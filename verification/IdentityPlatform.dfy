/**
 The OAuth flow as the program runs it: one mutable database object, the repository
 operations that update its tables in place, and the use cases that call them. Each use
 case is proved to do exactly what its specification function says.
 */
module IdentityPlatform {
  import opened Basics
  import opened ScopeSets
  import opened ConsentMachine
  import opened IdentityStore
  import opened IdentityUseCases
  import opened RefreshLedger
  import opened IdentityInvariants

  /** A consent as stored: its own columns, one row per scope, one row per account. */
  datatype ConsentRow = ConsentRow(
    userId: string, clientId: string, institutionId: string, purpose: string, status: ConsentStatus, version: int,
    expiresAt: int, authorizedAt: Option<int>, activatedAt: Option<int>, revokedAt: Option<int>,
    createdAt: int, updatedAt: int, scopes: map<Scope, bool>, accounts: set<string>)

  /** `toConsent` */
  function ToConsent(id: Id, row: ConsentRow): ConsentProps {
    ConsentProps(id, row.userId, row.clientId, row.institutionId, RequestedOf(row.scopes), row.purpose, row.status,
                 row.accounts, GrantedOf(row.scopes), row.version, row.expiresAt, row.authorizedAt, row.activatedAt,
                 row.revokedAt, row.createdAt, row.updatedAt)
  }

  function ToRow(c: ConsentProps): ConsentRow {
    ConsentRow(c.userId, c.clientId, c.institutionId, c.purpose, c.status, c.version, c.expiresAt, c.authorizedAt,
               c.activatedAt, c.revokedAt, c.createdAt, c.updatedAt, GrantRows(c.requestedScopes, c.grantedScopes),
               c.authorizedAccountIds)
  }

  /** Storing and loading a consent gives it back, for every consent a run can reach. */
  lemma StoredConsentRoundTrips(c: ConsentProps)
    requires ConsentShape(c)
    ensures ToConsent(c.id, ToRow(c)) == c
  {
    GrantRowsRoundTrip(c.requestedScopes, c.grantedScopes);
  }

  /** The columns `save` never updates; a copy may be as stale as it likes in all others. */
  ghost predicate SameFixedColumns(c: ConsentProps, d: ConsentProps) {
    d.userId == c.userId && d.clientId == c.clientId && d.institutionId == c.institutionId && d.createdAt == c.createdAt
  }

  lemma EvolvingKeepsFixedColumns(c: ConsentProps, d: ConsentProps)
    requires ConsentEvolves(c, d)
    ensures SameFixedColumns(c, d)
  {
  }

  lemma LoadedIds(env: Env, s: Store, batch: seq<ConsentProps>, candidates: seq<Id>)
    requires Inv(env, s) && |batch| == |candidates|
    requires forall k | 0 <= k < |candidates| :: candidates[k] in s.consents && batch[k] == s.consents[candidates[k]]
    ensures forall k | 0 <= k < |candidates| :: batch[k].id == candidates[k]
  {
    hide RequestsInv, CodesInv, FamiliesInv, AccessInv, LedgerInv, VersionsInv, ConsentShape;
  }

  /** One candidate more at the end of the batch. */
  lemma {:induction false} ExpireOneMore(s: Store, candidates: seq<Id>, id: Id, now: int)
    ensures var first, all := DoExpireConsents(s, candidates, now), DoExpireConsents(s, candidates + [id], now);
            var one := ExpireOne(first.store, id, now);
            all == Outcome(if one.Some? then one.value else first.store,
                           ConsentsExpired(first.reply.expiredIds + if one.Some? then [id] else []))
    decreases |candidates|
  {
    hide ExpireOne;
    if candidates == [] {
      assert ([] + [id])[1..] == [] && ([] + [id])[0] == id;
    } else {
      assert (candidates + [id])[1..] == candidates[1..] + [id];
      var one := ExpireOne(s, candidates[0], now);
      ExpireOneMore(if one.Some? then one.value else s, candidates[1..], id, now);
    }
  }

  lemma ExpireOneTouches(s: Store, id: Id, now: int)
    ensures var one := ExpireOne(s, id, now);
            one.Some? && id in s.consents && s.consents[id].id == id ==>
              forall c | c in s.consents && c != id :: c in one.value.consents && one.value.consents[c] == s.consents[c]
  {
  }

  class Database {
    var nextId: Id
    var consentRows: map<Id, ConsentRow>
    var requests: map<Id, AuthRequest>
    var codes: map<Digest<Id>, AuthCode>
    var families: map<Id, Family>
    var tokenRows: map<Digest<Opaque>, TokenRow>
    var access: map<Id, AccessToken>
    var outbox: seq<Event>

    ghost function Consents(): map<Id, ConsentProps>
      reads this`consentRows
    {
      map id | id in consentRows :: ToConsent(id, consentRows[id])
    }

    /** The tables as one value. */
    ghost function Model(): Store
      reads this
    {
      Store(nextId, Consents(), requests, codes, Ledger(families, tokenRows), access, outbox)
    }

    constructor ()
      ensures Model() == EMPTY
    {
      nextId := 0;
      consentRows, requests, codes, families, tokenRows, access := map[], map[], map[], map[], map[], map[];
      outbox := [];
    }

    method Generate() returns (id: Id)
      modifies this`nextId
      ensures id == old(nextId) && nextId == id + 1
    {
      id := nextId;
      nextId := nextId + 1;
    }

    /** The events buffered during a transaction are written when it commits. */
    method Commit(events: seq<Event>)
      modifies this`outbox
      ensures outbox == old(outbox) + events
    {
      outbox := outbox + events;
    }

    // -------------------------------------------------------------- consent repository

    method FindConsent(id: Id) returns (consent: Consent?)
      ensures consent == null <==> id !in Model().consents
      ensures consent != null ==> fresh(consent) && consent.Props() == Model().consents[id]
    {
      if id in consentRows {
        consent := new Consent(ToConsent(id, consentRows[id]));
      } else {
        consent := null;
      }
    }

    /** Upsert: the columns a consent never changes are written only on creation. */
    method StoreConsent(consent: Consent)
      requires ConsentShape(consent.Props())
      requires consent.id in Model().consents ==> SameFixedColumns(Model().consents[consent.id], consent.Props())
      modifies this`consentRows
      ensures Consents() == old(Consents())[consent.id := consent.Props()]
    {
      var c := consent;
      var scopes := ConsentScopeGrantRows(c.requestedScopes, c.grantedScopes);
      var row := ConsentRow(c.userId, c.clientId, c.institutionId, c.purpose, c.status, c.version, c.expiresAt,
                            c.authorizedAt, c.activatedAt, c.revokedAt, c.createdAt, c.updatedAt, scopes,
                            c.authorizedAccountIds);
      if c.id in consentRows {
        var stored := consentRows[c.id];
        row := row.(userId := stored.userId, clientId := stored.clientId, institutionId := stored.institutionId,
                    createdAt := stored.createdAt);
      }
      StoredConsentRoundTrips(consent.Props());
      assert row == ToRow(consent.Props());
      consentRows := consentRows[c.id := row];
      assert Consents() == old(Consents())[c.id := consent.Props()];
    }

    // -------------------------------------------------------------- token repository

    method OpenRequestOf(consentId: Id, ghost env: Env) returns (found: Option<Id>)
      requires Inv(env, Model())
      ensures found == FindOpenRequest(Model(), consentId)
    {
      ghost var spec := FindOpenRequest(Model(), consentId);
      if id :| id in requests && requests[id].consentId == consentId && requests[id].consumedAt.None? {
        assert IsOpenRequest(Model(), id, consentId);
        SameConsentSameRequest(env, requests, Consents(), nextId, id, spec.value);
        return Some(id);
      }
      return None;
    }

    method FamilyOfHash(hash: Digest<Opaque>) returns (found: Option<Id>)
      requires LedgerInv(Model().ledger, nextId)
      ensures found == FindFamilyByHash(Model().ledger, hash)
    {
      LookupIsScan(Model().ledger, nextId, hash);
      if id :| id in families && families[id].currentTokenHash == hash {
        assert FamilyOk(Model().ledger, id);
        return Some(id);
      }
      if hash in tokenRows {
        return Some(tokenRows[hash].familyId);
      }
      return None;
    }

    method InsertFamily(id: Id, family: Family)
      modifies this`families, this`tokenRows
      ensures Ledger(families, tokenRows) == SaveFamily(old(Ledger(families, tokenRows)), id, family)
    {
      families := families[id := family];
      tokenRows := tokenRows[family.currentTokenHash := TokenRow(id, family.generation, family.expiresAt, None)];
    }

    /** Retire the current row if it is still unused, move the family on, insert the next row. */
    method RotateRefreshToken(id: Id, newHash: Digest<Opaque>, generation: int, expiresAt: int, now: int)
      requires id in families
      modifies this`families, this`tokenRows
      ensures Ledger(families, tokenRows) == Rotate(old(Ledger(families, tokenRows)), id, newHash, generation, expiresAt, now)
    {
      var current := families[id].currentTokenHash;
      if current in tokenRows && tokenRows[current].familyId == id && tokenRows[current].usedAt.None? {
        tokenRows := tokenRows[current := tokenRows[current].(usedAt := Some(now))];
      }
      families := families[id := families[id].(currentTokenHash := newHash, generation := generation,
                                               expiresAt := expiresAt)];
      tokenRows := tokenRows[newHash := TokenRow(id, generation, expiresAt, None)];
    }

    method RevokeRefreshTokenFamily(id: Id, now: int)
      requires id in families
      modifies this`families
      ensures Ledger(families, tokenRows) == RevokeFamily(old(Ledger(families, tokenRows)), id, now)
    {
      families := families[id := families[id].(revokedAt := Some(now))];
    }

    method MarkFamilyReused(id: Id, now: int)
      requires id in families
      modifies this`families
      ensures Ledger(families, tokenRows) == MarkReuseDetected(old(Ledger(families, tokenRows)), id, now)
    {
      families := families[id := families[id].(reuseDetectedAt := Some(now), revokedAt := Some(now))];
    }

    /** `updateMany` over the live families of a consent. */
    method RevokeRefreshTokenFamiliesForConsent(consentId: Id, now: int)
      modifies this`families
      ensures Ledger(families, tokenRows) == RevokeFamiliesForConsent(old(Ledger(families, tokenRows)), consentId, now)
    {
      families := map id | id in families ::
        if families[id].consentId == consentId && families[id].revokedAt.None?
        then families[id].(revokedAt := Some(now)) else families[id];
    }

    method RevokeAccessTokensOfConsent(consentId: Id, now: int)
      modifies this`access
      ensures access == RevokeAccessTokensForConsent(old(Model()), consentId, now).access
    {
      access := map id | id in access ::
        if access[id].consentId == consentId && access[id].revokedAt.None?
        then access[id].(revokedAt := Some(now)) else access[id];
    }

    // -------------------------------------------------------------- use cases: consents

    method CreateConsent(env: Env, cmd: Command, now: int) returns (reply: Reply)
      requires Inv(env, Model()) && cmd.CreateConsent?
      modifies this`nextId, this`consentRows, this`outbox
      ensures Inv(env, Model())
      ensures Outcome(Model(), reply) == DoCreateConsent(old(Model()), cmd, now)
    {
      hide ConsentsInv, RequestsInv, CodesInv, FamiliesInv, AccessInv, LedgerInv, VersionsInv, FromString, ToConsent;
      CreateConsentKeeps(env, Model(), cmd, now);
      FreshIds(Model(), env, nextId);
      var scopes := FromString(cmd.scopeText);
      if scopes.None? { return Refused(InvalidScopeFormat); }
      var id := Generate();
      var consent := new Consent(Created(id, cmd.userId, cmd.clientUuid, cmd.institutionId, scopes.value, cmd.purpose,
                                         cmd.expiresAt, now));
      var error := consent.SubmitForAuthorization(now);
      StoreConsent(consent);
      var eventId := Generate();
      Commit([Event(eventId, ConsentAggregate, consent.id, ConsentCreatedEvent, consent.version, now)]);
      return ConsentCreated(id);
    }

    /** Builds and submits a consent, then writes the consent and the request in one transaction. */
    method CreateAuthorizationRequest(env: Env, cmd: Command, now: int) returns (reply: Reply)
      requires Inv(env, Model()) && cmd.CreateAuthorizationRequest?
      modifies this`nextId, this`consentRows, this`requests, this`outbox
      ensures Inv(env, Model())
      ensures Outcome(Model(), reply) == DoCreateAuthorizationRequest(env, old(Model()), cmd, now)
    {
      hide ConsentsInv, RequestsInv, CodesInv, FamiliesInv, AccessInv, LedgerInv, VersionsInv, FromString,
           RequestCheck, ToConsent, SaveAndEmit;
      RequestCheckPasses(env, cmd);
      CreateRequestKeeps(env, Model(), cmd, now);
      FreshIds(Model(), env, nextId);
      var refused := RequestCheck(env, cmd);
      if refused.Some? { return Refused(refused.value); }
      var client := env.clients[cmd.clientId];
      var scopes := FromString(cmd.scopeText).value;
      var id := Generate();
      var consent := new Consent(Created(id, cmd.userId, client.id, cmd.institutionId, scopes, cmd.purpose,
                                         now + DEFAULT_CONSENT_TTL_MS, now));
      var error := consent.SubmitForAuthorization(now);
      var requestId := Generate();
      StoreRequested(consent, requestId,
                     AuthRequest(client.id, id, cmd.redirectUri, scopes, cmd.challenge.value,
                                 if cmd.challengeMethod.Some? then cmd.challengeMethod.value else "S256",
                                 now + AUTH_REQUEST_TTL_MS, None, now), now);
      return ConsentCreated(id);
    }

    /** Its transaction. */
    method StoreRequested(consent: Consent, requestId: Id, request: AuthRequest, now: int)
      requires ConsentShape(consent.Props()) && consent.id !in Model().consents
      modifies this`nextId, this`consentRows, this`requests, this`outbox
      ensures Model()
              == SaveAuthorizationRequest(SaveAndEmit(old(Model()), consent.Props(), ConsentCreatedEvent, now), requestId, request)
    {
      hide ConsentShape, ToConsent;
      StoreConsent(consent);
      requests := requests[requestId := request];
      var eventId := Generate();
      Commit([Event(eventId, ConsentAggregate, consent.id, ConsentCreatedEvent, consent.version, now)]);
    }

    method ActivateConsent(env: Env, cmd: Command, now: int) returns (reply: Reply)
      requires Inv(env, Model()) && cmd.ActivateConsent?
      modifies this`nextId, this`consentRows, this`outbox
      ensures Inv(env, Model())
      ensures Outcome(Model(), reply) == DoActivateConsent(old(Model()), cmd, now)
    {
      hide ConsentsInv, RequestsInv, CodesInv, FamiliesInv, AccessInv, LedgerInv, VersionsInv, ToConsent;
      ghost var before := Model();
      ActivateKeeps(env, before, cmd, now);
      var consent := FindConsent(cmd.consentId);
      if consent == null { return Refused(NotFound); }
      ConsentFacts(before.consents, before.nextId, cmd.consentId);
      if consent.userId != cmd.actorUserId { return Refused(Forbidden); }
      if consent.status != AUTHORIZED { return Refused(InvalidState); }
      var error := consent.Activate(now);
      TransitionsEvolve(before.consents[cmd.consentId], consent.Props(), {}, {}, now);
      StoreConsent(consent);
      var eventId := Generate();
      Commit([Event(eventId, ConsentAggregate, consent.id, ConsentActivatedEvent, consent.version, now)]);
      return ConsentActivated;
    }

    method AuthorizeConsent(env: Env, cmd: Command, now: int) returns (reply: Reply)
      requires Inv(env, Model()) && cmd.AuthorizeConsent?
      modifies this`nextId, this`consentRows, this`requests, this`codes, this`outbox
      ensures Inv(env, Model())
      ensures Outcome(Model(), reply) == DoAuthorizeConsent(old(Model()), cmd, now)
    {
      hide ConsentsInv, RequestsInv, CodesInv, FamiliesInv, AccessInv, LedgerInv, VersionsInv, FromString, ToConsent;
      ghost var before := Model();
      AuthorizeKeeps(env, before, cmd, now);
      var consent := FindConsent(cmd.consentId);
      if consent == null { return Refused(NotFound); }
      ConsentFacts(before.consents, before.nextId, cmd.consentId);
      if consent.userId != cmd.actorUserId { return Refused(Forbidden); }
      if consent.status != AWAITING_AUTHORIZATION { return Refused(InvalidState); }
      var requestId := OpenRequestOf(consent.id, env);
      if requestId.None? { return Refused(NoOpenRequest); }
      var request := requests[requestId.value];
      if request.expiresAt <= now { return Refused(RequestExpired); }
      var granted := FromString(cmd.grantedText);
      if granted.None? { return Refused(InvalidScopeFormat); }
      var error := consent.Authorize(cmd.accountIds, granted.value, now);
      if error.Some? { return Refused(Domain(error.value)); }
      TransitionsEvolve(before.consents[cmd.consentId], consent.Props(), cmd.accountIds, granted.value, now);
      var code := GrantFor(consent, requestId.value, now);
      return ConsentAuthorized(consent.id, code);
    }

    /** Code generation and the transaction of the authorization. */
    method GrantFor(consent: Consent, requestId: Id, now: int) returns (code: Id)
      requires requestId in requests && ConsentShape(consent.Props()) && consent.grantedScopes.Some?
      requires consent.id in Model().consents && ConsentEvolves(Model().consents[consent.id], consent.Props())
      modifies this`nextId, this`consentRows, this`requests, this`codes, this`outbox
      ensures Model() == IssueCode(old(Model()), consent.Props(), requestId, now) && code == old(nextId)
    {
      hide ConsentShape, ConsentEvolves, ToConsent;
      EvolvingKeepsFixedColumns(Model().consents[consent.id], consent.Props());
      var request := requests[requestId];
      code := Generate();
      StoreConsent(consent);
      requests := requests[requestId := request.(consumedAt := Some(now))];
      codes := codes[Digest(code) := AuthCode(consent.clientId, consent.userId, consent.id, request.redirectUri,
                                              consent.grantedScopes.value, request.challenge, request.challengeMethod,
                                              now + AUTH_CODE_TTL_MS, None, now)];
      var eventId := Generate();
      Commit([Event(eventId, ConsentAggregate, consent.id, ConsentAuthorizedEvent, consent.version, now)]);
    }

    method RevokeConsent(env: Env, cmd: Command, now: int) returns (reply: Reply)
      requires Inv(env, Model()) && cmd.RevokeConsent?
      modifies this`nextId, this`consentRows, this`families, this`access, this`outbox
      ensures Inv(env, Model())
      ensures Outcome(Model(), reply) == DoRevokeConsent(old(Model()), cmd, now)
    {
      hide ConsentsInv, RequestsInv, CodesInv, FamiliesInv, AccessInv, LedgerInv, VersionsInv, ToConsent;
      ghost var before := Model();
      RevokeConsentKeeps(env, before, cmd, now);
      var consent := FindConsent(cmd.consentId);
      if consent == null { return Refused(NotFound); }
      ConsentFacts(before.consents, before.nextId, cmd.consentId);
      if consent.userId != cmd.actorUserId { return Refused(Forbidden); }
      if IsTerminalConsent(consent.status) { return Refused(InvalidState); }
      var error := consent.Revoke(now);
      if error.Some? { return Refused(Domain(error.value)); }
      TransitionsEvolve(before.consents[cmd.consentId], consent.Props(), {}, {}, now);
      StoreConsent(consent);
      RevokeAccessTokensOfConsent(consent.id, now);
      RevokeRefreshTokenFamiliesForConsent(consent.id, now);
      var eventId := Generate();
      Commit([Event(eventId, ConsentAggregate, consent.id, ConsentRevokedEvent, consent.version, now)]);
      return ConsentRevoked;
    }

    /** The rows of the batch, loaded by one query. */
    method LoadBatch(candidates: seq<Id>) returns (batch: seq<ConsentProps>)
      requires forall k | 0 <= k < |candidates| :: candidates[k] in Model().consents
      ensures |batch| == |candidates|
      ensures forall k | 0 <= k < |candidates| :: batch[k] == Model().consents[candidates[k]]
    {
      batch := seq(|candidates|, k requires 0 <= k < |candidates| && candidates[k] in consentRows reads this`consentRows =>
                     ToConsent(candidates[k], consentRows[candidates[k]]));
    }

    /** One consent of the batch: skipped, or expired in a transaction of its own, which may throw. */
    method ExpireLoaded(env: Env, loaded: ConsentProps, now: int, throws: bool) returns (expired: bool, threw: bool)
      requires Inv(env, Model()) && loaded.id in Model().consents && Model().consents[loaded.id] == loaded
      modifies this`nextId, this`consentRows, this`outbox
      ensures Inv(env, Model())
      ensures var done := ExpireOne(old(Model()), loaded.id, now);
              && threw == (throws && done.Some?) && expired == (!throws && done.Some?)
              && Model() == if expired then done.value else old(Model())
    {
      hide ConsentsInv, RequestsInv, CodesInv, FamiliesInv, AccessInv, LedgerInv, VersionsInv, ToConsent;
      ghost var before := Model();
      ExpireOneKeeps(env, before, loaded.id, now);
      var consent := new Consent(loaded);
      if IsTerminalConsent(consent.status) || consent.expiresAt > now { return false, false; }
      ConsentFacts(before.consents, before.nextId, loaded.id);
      var error := consent.Expire(now);
      if throws { return false, true; }
      TransitionsEvolve(before.consents[loaded.id], consent.Props(), {}, {}, now);
      StoreConsent(consent);
      var eventId := Generate();
      Commit([Event(eventId, ConsentAggregate, consent.id, ConsentExpiredEvent, consent.version, now)]);
      return true, false;
    }

    /**
     The batch loop over the rows that were loaded before it. A transaction that throws ends it
     after `done` candidates; those before stay expired.
     */
    method ExpireConsents(env: Env, candidates: seq<Id>, now: int, faults: set<Id>)
      returns (expiredIds: seq<Id>, threw: bool, ghost done: nat)
      requires Inv(env, Model()) && forall k | 0 <= k < |candidates| :: candidates[k] in Model().consents
      requires forall j, k | 0 <= j < k < |candidates| :: candidates[j] != candidates[k]
      modifies this`nextId, this`consentRows, this`outbox
      ensures Inv(env, Model())
      ensures done <= |candidates|
      ensures Outcome(Model(), ConsentsExpired(expiredIds)) == DoExpireConsents(old(Model()), candidates[..done], now)
      ensures if threw then done < |candidates| && candidates[done] in faults && ExpireOne(Model(), candidates[done], now).Some?
              else done == |candidates|
    {
      hide Inv, ExpireOne, ToConsent;
      expiredIds, done := [], 0;
      var batch := LoadBatch(candidates);
      LoadedIds(env, Model(), batch, candidates);
      for k := 0 to |candidates|
        invariant done == k && Inv(env, Model())
        invariant Outcome(Model(), ConsentsExpired(expiredIds)) == DoExpireConsents(old(Model()), candidates[..k], now)
        invariant forall j | k <= j < |candidates| ::
                    candidates[j] in Model().consents && Model().consents[candidates[j]] == batch[j] && batch[j].id == candidates[j]
      {
        ghost var before := Model();
        ExpireOneMore(old(Model()), candidates[..k], candidates[k], now);
        assert candidates[..k + 1] == candidates[..k] + [candidates[k]];
        ExpireOneTouches(before, candidates[k], now);
        var expired;
        expired, threw := ExpireLoaded(env, batch[k], now, candidates[k] in faults);
        if threw { return; }
        if expired { expiredIds := expiredIds + [candidates[k]]; }
        done := k + 1;
      }
      assert candidates[..|candidates|] == candidates;
      threw := false;
    }

    // -------------------------------------------------------------- use cases: tokens

    /** The checks of the exchange, in order. */
    method CheckExchange(env: Env, cmd: Command, now: int) returns (error: Option<Error>)
      requires cmd.ExchangeCode?
      ensures error == ExchangeCheck(env, Model(), cmd, now)
    {
      hide VerifyPkce, AuthenticatedClient;
      var client := AuthenticatedClient(env, cmd.clientId, cmd.clientSecret);
      if client.None? { return Some(InvalidClient); }
      if Digest(cmd.code) !in codes { return Some(InvalidCode); }
      var code := codes[Digest(cmd.code)];
      if code.usedAt.Some? { return Some(CodeUsed); }
      if code.expiresAt <= now { return Some(CodeExpired); }
      if code.clientId != client.value.id { return Some(CodeClientMismatch); }
      if code.redirectUri != cmd.redirectUri { return Some(RedirectUriMismatch); }
      if client.value.requirePkce || code.challenge != "" {
        if code.challenge == "" || cmd.verifier.None?
           || !VerifyPkce(env, cmd.verifier.value, code.challenge, code.challengeMethod) {
          return Some(PkceFailed);
        }
      }
      if code.consentId !in consentRows { return Some(ConsentMissing); }
      var status := consentRows[code.consentId].status;
      if status != AUTHORIZED && status != ACTIVE { return Some(ConsentNotAuthorized); }
      return None;
    }

    method ExchangeCode(env: Env, cmd: Command, now: int) returns (reply: Reply)
      requires Inv(env, Model()) && cmd.ExchangeCode?
      modifies this`nextId, this`consentRows, this`codes, this`families, this`tokenRows, this`access, this`outbox
      ensures Inv(env, Model())
      ensures Outcome(Model(), reply) == DoExchangeCode(env, old(Model()), cmd, now)
    {
      hide ConsentsInv, RequestsInv, CodesInv, FamiliesInv, AccessInv, LedgerInv, VersionsInv, VerifyPkce, IssueTokens;
      ghost var before := Model();
      ExchangeKeeps(env, before, cmd, now);
      var refused := CheckExchange(env, cmd, now);
      if refused.Some? { return Refused(refused.value); }
      var code := codes[Digest(cmd.code)];
      ConsentFacts(before.consents, before.nextId, code.consentId);
      var consent := FindConsent(code.consentId);
      if consent.status == AUTHORIZED {
        var error := consent.Activate(now);
        TransitionsEvolve(before.consents[code.consentId], consent.Props(), {}, {}, now);
      }
      var first := nextId;
      IssueFor(env, consent, env.clients[cmd.clientId], cmd.code, now);
      return TokensIssued(consent.id, first + 2,
                          if OFFLINE_ACCESS in code.scopes then Some(Opaque(first, first + 1)) else None, code.scopes);
    }

    /** Token generation and the transaction of the exchange. */
    method IssueFor(env: Env, consent: Consent, client: Client, codeId: Id, now: int)
      requires Digest(codeId) in codes && ConsentShape(consent.Props())
      requires consent.id in Model().consents && ConsentEvolves(Model().consents[consent.id], consent.Props())
      modifies this`nextId, this`consentRows, this`codes, this`families, this`tokenRows, this`access, this`outbox
      ensures Model() == IssueTokens(env, old(Model()), consent.Props(), codeId, client.id, now)
    {
      hide SaveFamily, ConsentEvolves, ConsentShape, IssueTokens, ToConsent;
      EvolvingKeepsFixedColumns(Model().consents[consent.id], consent.Props());
      IssueTokensTables(env, Model(), consent.Props(), codeId, client.id, now);
      var code := codes[Digest(codeId)];
      var n := nextId;
      nextId := nextId + 5;
      StoreConsent(consent);
      codes := codes[Digest(codeId) := code.(usedAt := Some(now))];
      access := access[n + 2 := AccessToken(n + 4, client.id, code.userId, consent.id, code.scopes,
                                            now + env.accessTtlSeconds * 1000, None, now)];
      if OFFLINE_ACCESS in code.scopes {
        InsertFamily(n + 3, Family(client.id, code.userId, consent.id, Digest(Opaque(n, n + 1)), code.scopes,
                                   now + REFRESH_TOKEN_TTL_MS, None, None, 1, now));
      }
      EmitIssued(consent, n + 2, now);
    }

    /** The two events of the exchange, written together. */
    method EmitIssued(consent: Consent, tokenId: Id, now: int)
      modifies this`nextId, this`outbox
      ensures nextId == old(nextId) + 2
      ensures outbox == old(outbox)
              + [Event(old(nextId), ConsentAggregate, consent.id, ConsentActivatedEvent, consent.version, now)]
              + [Event(old(nextId) + 1, TokenAggregate, tokenId, TokenIssuedEvent, 1, now)]
    {
      var activation := Generate();
      var issue := Generate();
      Commit([Event(activation, ConsentAggregate, consent.id, ConsentActivatedEvent, consent.version, now),
              Event(issue, TokenAggregate, tokenId, TokenIssuedEvent, 1, now)]);
    }

    method RefreshTokens(env: Env, cmd: Command, now: int) returns (reply: Reply)
      requires Inv(env, Model()) && cmd.RefreshTokens?
      modifies this`nextId, this`families, this`tokenRows, this`access, this`outbox
      ensures Inv(env, Model())
      ensures Outcome(Model(), reply) == DoRefreshTokens(env, old(Model()), cmd, now)
    {
      hide ConsentsInv, RequestsInv, CodesInv, FamiliesInv, AccessInv, LedgerInv, VersionsInv, Rotate, FindFamilyByHash;
      ghost var before := Model();
      RefreshKeeps(env, before, cmd, now);
      LookupIsScan(before.ledger, before.nextId, Digest(cmd.refreshToken));
      var client := AuthenticatedClient(env, cmd.clientId, cmd.clientSecret);
      if client.None? { return Refused(InvalidClient); }
      var familyId := FamilyOfHash(Digest(cmd.refreshToken));
      if familyId.None? { return Refused(InvalidRefreshToken); }
      var id := familyId.value;
      var family := families[id];
      if family.clientId != client.value.id { return Refused(RefreshClientMismatch); }
      if IsFamilyRevoked(family) {
        Reuse(id, now);
        return Refused(TokenReuseDetected(id));
      }
      if family.expiresAt <= now { return Refused(RefreshExpired); }
      if Digest(cmd.refreshToken) != family.currentTokenHash {
        Reuse(id, now);
        return Refused(TokenReuseDetected(id));
      }
      var consent := FindConsent(family.consentId);
      if consent == null || consent.status != ACTIVE { return Refused(ConsentNotActiveForRefresh); }
      var first := nextId;
      RotateFor(env, id, client.value, now);
      return TokensRefreshed(id, first + 2,
                             if OFFLINE_ACCESS in family.scopes then Some(Opaque(first, first + 1)) else None,
                             family.scopes);
    }

    /** Token generation and the transaction of the rotation. */
    method RotateFor(env: Env, id: Id, client: Client, now: int)
      requires id in families
      modifies this`nextId, this`families, this`tokenRows, this`access, this`outbox
      ensures Model() == RotateFamily(env, old(Model()), id, client.id, now)
    {
      hide Rotate;
      var family := families[id];
      var first := Generate();
      var second := Generate();
      var tokenId := Generate();
      var jti := Generate();
      RotateRefreshToken(id, Digest(Opaque(first, second)), family.generation + 1, now + REFRESH_TOKEN_TTL_MS, now);
      access := access[tokenId := AccessToken(jti, client.id, family.userId, family.consentId, family.scopes,
                                              now + env.accessTtlSeconds * 1000, None, now)];
      var eventId := Generate();
      Commit([Event(eventId, FamilyAggregate, id, TokenIssuedEvent, family.generation + 1, now)]);
    }

    /** The two transactions of token revocation. */
    method RevokeFamilyFor(id: Id, now: int)
      requires id in families
      modifies this`nextId, this`families, this`outbox
      ensures Model() == RevokeFamilyOnRequest(old(Model()), id, now)
    {
      RevokeRefreshTokenFamily(id, now);
      var eventId := Generate();
      Commit([Event(eventId, FamilyAggregate, id, TokenRevokedEvent, 1, now)]);
    }

    method RevokeAccessFor(id: Id, now: int)
      requires id in access
      modifies this`nextId, this`access, this`outbox
      ensures Model() == RevokeAccessOnRequest(old(Model()), id, now)
    {
      access := access[id := access[id].(revokedAt := Some(now))];
      var eventId := Generate();
      Commit([Event(eventId, AccessTokenAggregate, id, TokenRevokedEvent, 1, now)]);
    }

    /** The token is looked for among the refresh families, then among the access tokens. */
    method RevokeToken(env: Env, cmd: Command, now: int) returns (reply: Reply)
      requires Inv(env, Model()) && cmd.RevokeToken?
      modifies this`nextId, this`families, this`access, this`outbox
      ensures Inv(env, Model())
      ensures Outcome(Model(), reply) == DoRevokeToken(env, old(Model()), cmd, now)
    {
      hide ConsentsInv, RequestsInv, CodesInv, FamiliesInv, AccessInv, LedgerInv, VersionsInv, FindFamilyByHash, ToConsent,
           FindAccessTokenByJti, RevokeFamilyOnRequest, RevokeAccessOnRequest;
      RevokeTokenKeeps(env, Model(), cmd, now);
      var client := ActiveClient(env, cmd.clientId);
      if client.None? { return Refused(InvalidClient); }
      if cmd.presented.OpaqueToken? && (cmd.hint == None || cmd.hint == Some(RefreshHint)) {
        LookupIsScan(Model().ledger, nextId, Digest(cmd.presented.token));
        var family := FamilyOfHash(Digest(cmd.presented.token));
        if family.Some? && families[family.value].clientId == client.value.id {
          RevokeFamilyFor(family.value, now);
          return TokenRevoked;
        }
      }
      if cmd.presented.Jwt? && cmd.presented.verified.Some? && (cmd.hint == None || cmd.hint == Some(AccessHint))
         && cmd.presented.verified.value.0 == client.value.clientId {
        var id := AccessTokenOfJti(env, cmd.presented.verified.value.1);
        if id.Some? && access[id.value].clientId == client.value.id {
          RevokeAccessFor(id.value, now);
          return TokenRevoked;
        }
      }
      return Refused(TokenNotFound);
    }

    method AccessTokenOfJti(ghost env: Env, jti: Id) returns (found: Option<Id>)
      requires Inv(env, Model())
      ensures found == FindAccessTokenByJti(Model(), jti)
    {
      hide ConsentsInv, RequestsInv, CodesInv, FamiliesInv, LedgerInv, VersionsInv, AccessOk;
      ghost var spec := FindAccessTokenByJti(Model(), jti);
      if id :| id in access && access[id].jti == jti {
        assert HasJti(Model(), id, jti);
        return Some(id);
      }
      return None;
    }

    /** The transaction of `handleReuse`. */
    method Reuse(id: Id, now: int)
      requires id in families
      modifies this`nextId, this`families, this`outbox
      ensures Model() == HandleReuse(old(Model()), id, now)
    {
      MarkFamilyReused(id, now);
      RevokeRefreshTokenFamily(id, now);
      var detected := Generate();
      var revoked := Generate();
      Commit([Event(detected, FamilyAggregate, id, TokenReuseDetectedEvent, 1, now),
              Event(revoked, FamilyAggregate, id, TokenRevokedEvent, 1, now)]);
    }
  }

  lemma SameConsentSameRequest(env: Env, requests: Requests, consents: Consents, next: Id, q: Id, r: Id)
    requires RequestsInv(env, requests, consents, next) && q in requests && r in requests
    requires requests[q].consentId == requests[r].consentId
    ensures q == r
  {
  }
}
