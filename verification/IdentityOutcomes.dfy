/**
 What each OAuth use case answers and writes, in terms of the command and the stored rows: when it
 goes ahead, which refusal it gives otherwise, and the tables it leaves. Over whole runs: what a
 token revocation ends, and which accounts a grant opens.
 */
module IdentityOutcomes {
  import opened Basics
  import opened ScopeSets
  import opened ConsentMachine
  import opened IdentityStore
  import opened IdentityUseCases
  import opened RefreshLedger
  import opened IdentityInvariants
  import opened IdentityRuns
  import opened IdentityTheorems

  // ---------------------------------------------------------------- creation

  /** A consent as it is stored first: submitted, at version 2, with nothing granted. */
  function Waiting(id: Id, userId: string, clientUuid: string, institutionId: string, scopes: set<Scope>, purpose: string,
                   expiresAt: int, now: int): ConsentProps
  {
    ConsentProps(id, userId, clientUuid, institutionId, scopes, purpose, AWAITING_AUTHORIZATION, {}, None, 2, expiresAt, None, None,
                 None, now, now)
  }

  /** Plain creation stores a waiting consent whenever the scope text is well formed. */
  lemma CreateConsentExactly(env: Env, s: Store, cmd: Command, now: int)
    requires cmd.CreateConsent?
    ensures var scopes := FromString(cmd.scopeText); var n := s.nextId;
            Execute(env, s, cmd, now)
            == if scopes.None? then Outcome(s, Refused(InvalidScopeFormat))
               else Outcome(s.(nextId := n + 2,
                               consents := s.consents[n := Waiting(n, cmd.userId, cmd.clientUuid, cmd.institutionId, scopes.value,
                                                                   cmd.purpose, cmd.expiresAt, now)],
                               outbox := s.outbox + [Event(n + 1, ConsentAggregate, n, ConsentCreatedEvent, 2, now)]),
                            ConsentCreated(n))
  {
    hide FromString;
  }

  /** Why an authorization request is refused, the first reason that applies. */
  ghost predicate MayRequest(env: Env, cmd: Command, error: Option<Error>)
    requires cmd.CreateAuthorizationRequest?
  {
    if cmd.clientId !in env.clients || !env.clients[cmd.clientId].isActive then error == Some(InvalidClient) else
    var client, unchallenged := env.clients[cmd.clientId], cmd.challenge == None || cmd.challenge == Some("");
    if cmd.institutionId !in env.institutions || !env.institutions[cmd.institutionId] then error == Some(InvalidInstitution)
    else if FromString(cmd.scopeText).None? then error == Some(InvalidScopeFormat)
    else if "authorization_code" !in client.grantTypes then error == Some(UnsupportedGrant)
    else if cmd.redirectUri !in client.redirectUris then error == Some(InvalidRedirectUri)
    else if client.requirePkce && unchallenged then error == Some(PkceRequired)
    else if exists scope :: scope in FromString(cmd.scopeText).value && scope !in client.allowedScopes then error == Some(InvalidScope)
    else if unchallenged then error == Some(ChallengeRequired)
    else error == None
  }

  /**
   An authorization request of an active client for an active institution, within its grant types,
   redirect URIs and scopes and with a challenge, stores a consent that waits for 90 days and an
   open request for 10 minutes; any other is refused and stores nothing.
   */
  lemma CreateRequestExactly(env: Env, s: Store, cmd: Command, now: int)
    requires cmd.CreateAuthorizationRequest?
    ensures MayRequest(env, cmd, None) ==> cmd.clientId in env.clients && FromString(cmd.scopeText).Some? && cmd.challenge.Some?
    ensures MayRequest(env, cmd, None) ==>
              var client, scopes, n := env.clients[cmd.clientId], FromString(cmd.scopeText).value, s.nextId;
              Execute(env, s, cmd, now)
              == Outcome(s.(nextId := n + 3,
                            consents := s.consents[n := Waiting(n, cmd.userId, client.id, cmd.institutionId, scopes, cmd.purpose,
                                                                now + 90 * 24 * 60 * 60 * 1000, now)],
                            requests := s.requests[n + 1 :=
                              AuthRequest(client.id, n, cmd.redirectUri, scopes, cmd.challenge.value,
                                          if cmd.challengeMethod.Some? then cmd.challengeMethod.value else "S256",
                                          now + 10 * 60 * 1000, None, now)],
                            outbox := s.outbox + [Event(n + 2, ConsentAggregate, n, ConsentCreatedEvent, 2, now)]),
                         ConsentCreated(n))
    ensures forall error :: MayRequest(env, cmd, Some(error)) ==> Execute(env, s, cmd, now) == Outcome(s, Refused(error))
    ensures MayRequest(env, cmd, None) || exists error :: MayRequest(env, cmd, Some(error))
  {
    hide FromString;
    if RequestCheck(env, cmd).Some? { assert MayRequest(env, cmd, RequestCheck(env, cmd)); }
  }

  // ---------------------------------------------------------------- the user's decisions

  /** A request that backs an authorization now. */
  ghost predicate OpensGrant(s: Store, cmd: Command, now: int, r: Id)
    requires cmd.AuthorizeConsent?
  {
    IsOpenRequest(s, r, cmd.consentId) && now < s.requests[r].expiresAt
  }

  /** The consent is the actor's and waits, has an unexpired open request, and the grant meets what was asked. */
  ghost predicate Grantable(s: Store, cmd: Command, now: int)
    requires cmd.AuthorizeConsent?
  {
    && cmd.consentId in s.consents && s.consents[cmd.consentId].userId == cmd.actorUserId
    && s.consents[cmd.consentId].status == AWAITING_AUTHORIZATION && (exists r :: OpensGrant(s, cmd, now, r))
    && FromString(cmd.grantedText).Some?
    && exists scope :: scope in FromString(cmd.grantedText).value && scope in s.consents[cmd.consentId].requestedScopes
  }

  /** An authorization succeeds exactly then. */
  lemma AuthorizeAcceptedExactly(env: Env, s: Store, cmd: Command, now: int)
    requires Inv(env, s) && cmd.AuthorizeConsent?
    ensures DoAuthorizeConsent(s, cmd, now).reply.ConsentAuthorized? <==> Grantable(s, cmd, now)
  {
    hide ConsentsInv, RequestsInv, CodesInv, FamiliesInv, AccessInv, LedgerInv, VersionsInv, FromString, IssueCode;
    OnlyRequest(env, s, cmd.consentId);
    if cmd.consentId in s.consents { ConsentFacts(s.consents, s.nextId, cmd.consentId); }
    if DoAuthorizeConsent(s, cmd, now).reply.ConsentAuthorized? {
      assert OpensGrant(s, cmd, now, FindOpenRequest(s, cmd.consentId).value);
      var scope :| scope in FromString(cmd.grantedText).value * s.consents[cmd.consentId].requestedScopes;
    }
    if Grantable(s, cmd, now) {
      var r: Id :| OpensGrant(s, cmd, now, r);
      assert FindOpenRequest(s, cmd.consentId) == Some(r);
      var scope :| scope in FromString(cmd.grantedText).value && scope in s.consents[cmd.consentId].requestedScopes;
      assert scope in FromString(cmd.grantedText).value * s.consents[cmd.consentId].requestedScopes;
    }
  }

  lemma OnlyRequest(env: Env, s: Store, c: Id)
    requires Inv(env, s)
    ensures forall q, r :: IsOpenRequest(s, q, c) && IsOpenRequest(s, r, c) ==> q == r
  {
    hide ConsentsInv, CodesInv, FamiliesInv, AccessInv, LedgerInv, VersionsInv, RequestOk;
  }

  /** Otherwise nothing is written, and the first reason that applies is given. */
  lemma AuthorizeRefusedExactly(env: Env, s: Store, cmd: Command, now: int)
    requires Inv(env, s) && cmd.AuthorizeConsent? && !Grantable(s, cmd, now)
    ensures DoAuthorizeConsent(s, cmd, now)
            == Outcome(s, Refused(
                 if cmd.consentId !in s.consents then NotFound
                 else if s.consents[cmd.consentId].userId != cmd.actorUserId then Forbidden
                 else if s.consents[cmd.consentId].status != AWAITING_AUTHORIZATION then InvalidState
                 else if forall r :: !IsOpenRequest(s, r, cmd.consentId) then NoOpenRequest
                 else if forall r :: !OpensGrant(s, cmd, now, r) then RequestExpired
                 else if FromString(cmd.grantedText).None? then InvalidScopeFormat
                 else Domain(ScopeNotGranted)))
  {
    hide ConsentsInv, RequestsInv, CodesInv, FamiliesInv, AccessInv, LedgerInv, VersionsInv, FromString, IssueCode;
    OnlyRequest(env, s, cmd.consentId);
    if cmd.consentId in s.consents { ConsentFacts(s.consents, s.nextId, cmd.consentId); }
    var found := FindOpenRequest(s, cmd.consentId);
    if found.Some? && now < s.requests[found.value].expiresAt { assert OpensGrant(s, cmd, now, found.value); }
    if cmd.consentId in s.consents && FromString(cmd.grantedText).Some? {
      var granted, asked := FromString(cmd.grantedText).value, s.consents[cmd.consentId].requestedScopes;
      assert (forall scope :: !(scope in granted && scope in asked)) ==> granted * asked == {};
    }
  }

  /**
   A successful authorization stores exactly the accounts it names and the scopes granted out of
   those asked, consumes the request, and leaves a code for 10 minutes that carries the consent's
   client and user, the granted scopes, and the redirect URI and challenge of the request.
   */
  lemma AuthorizeWrites(env: Env, s: Store, cmd: Command, now: int, r: Id)
    requires Inv(env, s) && cmd.AuthorizeConsent? && Grantable(s, cmd, now) && OpensGrant(s, cmd, now, r)
    ensures var c, q, n := s.consents[cmd.consentId], s.requests[r], s.nextId;
            var scopes := FromString(cmd.grantedText).value * c.requestedScopes;
            DoAuthorizeConsent(s, cmd, now)
            == Outcome(s.(nextId := n + 2,
                          consents := s.consents[cmd.consentId :=
                            c.(status := AUTHORIZED, authorizedAccountIds := cmd.accountIds, grantedScopes := Some(scopes),
                               authorizedAt := Some(now), updatedAt := now, version := c.version + 1)],
                          requests := s.requests[r := q.(consumedAt := Some(now))],
                          codes := s.codes[Digest(n) :=
                            AuthCode(c.clientId, c.userId, cmd.consentId, q.redirectUri, scopes, q.challenge, q.challengeMethod,
                                     now + 10 * 60 * 1000, None, now)],
                          outbox := s.outbox + [Event(n + 1, ConsentAggregate, cmd.consentId, ConsentAuthorizedEvent, c.version + 1,
                                                      now)]),
                       ConsentAuthorized(cmd.consentId, n))
  {
    hide ConsentsInv, RequestsInv, CodesInv, FamiliesInv, AccessInv, LedgerInv, VersionsInv, FromString;
    OnlyRequest(env, s, cmd.consentId);
    ConsentFacts(s.consents, s.nextId, cmd.consentId);
    assert FindOpenRequest(s, cmd.consentId) == Some(r);
    var scope :| scope in FromString(cmd.grantedText).value && scope in s.consents[cmd.consentId].requestedScopes;
    assert scope in FromString(cmd.grantedText).value * s.consents[cmd.consentId].requestedScopes;
  }

  /** Activation: by the consent's user, of an AUTHORIZED consent, and of nothing else. */
  lemma ActivateExactly(env: Env, s: Store, cmd: Command, now: int)
    requires Inv(env, s) && cmd.ActivateConsent?
    ensures DoActivateConsent(s, cmd, now)
            == if cmd.consentId !in s.consents then Outcome(s, Refused(NotFound)) else
               var c := s.consents[cmd.consentId];
               if c.userId != cmd.actorUserId then Outcome(s, Refused(Forbidden))
               else if c.status != AUTHORIZED then Outcome(s, Refused(InvalidState))
               else Outcome(s.(nextId := s.nextId + 1,
                               consents := s.consents[cmd.consentId := c.(status := ACTIVE, activatedAt := Some(now), updatedAt := now,
                                                                          version := c.version + 1)],
                               outbox := s.outbox + [Event(s.nextId, ConsentAggregate, cmd.consentId, ConsentActivatedEvent,
                                                           c.version + 1, now)]),
                            ConsentActivated)
  {
    hide RequestsInv, CodesInv, FamiliesInv, AccessInv, LedgerInv, VersionsInv;
  }

  /** Which refusal a consent revocation gets; None when it goes ahead. */
  function RevocationRefusal(s: Store, cmd: Command): Option<Error>
    requires cmd.RevokeConsent?
  {
    if cmd.consentId !in s.consents then Some(NotFound)
    else if s.consents[cmd.consentId].userId != cmd.actorUserId then Some(Forbidden)
    else if s.consents[cmd.consentId].status in {REVOKED, EXPIRED, REJECTED} then Some(InvalidState)
    else if s.consents[cmd.consentId].status !in {AUTHORIZED, ACTIVE} then Some(Domain(InvalidStateTransition))
    else None
  }

  /**
   Consent revocation: by the consent's user, of an AUTHORIZED or ACTIVE consent. It revokes the
   consent and exactly the families and access tokens under it that were not revoked before.
   */
  lemma RevokeConsentExactly(env: Env, s: Store, cmd: Command, now: int)
    requires Inv(env, s) && cmd.RevokeConsent?
    ensures RevocationRefusal(s, cmd).Some? ==> DoRevokeConsent(s, cmd, now) == Outcome(s, Refused(RevocationRefusal(s, cmd).value))
    ensures RevocationRefusal(s, cmd).None? ==>
              var done := DoRevokeConsent(s, cmd, now); var t, id, c := done.store, cmd.consentId, s.consents[cmd.consentId];
              && done.reply == ConsentRevoked
              && t == s.(nextId := s.nextId + 1, ledger := s.ledger.(families := t.ledger.families), access := t.access,
                         consents := s.consents[id := c.(status := REVOKED, revokedAt := Some(now), updatedAt := now,
                                                         version := c.version + 1)],
                         outbox := s.outbox + [Event(s.nextId, ConsentAggregate, id, ConsentRevokedEvent, c.version + 1, now)])
              && t.ledger.families.Keys == s.ledger.families.Keys && t.access.Keys == s.access.Keys
              && (forall f | f in s.ledger.families :: t.ledger.families[f]
                    == if s.ledger.families[f].consentId == id && s.ledger.families[f].revokedAt == None
                       then s.ledger.families[f].(revokedAt := Some(now)) else s.ledger.families[f])
              && (forall a | a in s.access :: t.access[a]
                    == if s.access[a].consentId == id && s.access[a].revokedAt == None
                       then s.access[a].(revokedAt := Some(now)) else s.access[a])
  {
    hide RequestsInv, CodesInv, FamiliesInv, AccessInv, LedgerInv, VersionsInv;
  }

  // ---------------------------------------------------------------- expiry

  function ExpiredRow(c: ConsentProps, now: int): ConsentProps {
    c.(status := EXPIRED, updatedAt := now, version := c.version + 1)
  }

  /** These consents and no others are expired, each once. */
  ghost predicate RowsExpire(s: Store, candidates: seq<Id>, now: int, t: Store, ids: seq<Id>) {
    && t.consents.Keys == s.consents.Keys
    && (forall id | id in s.consents ::
          t.consents[id] == if id in candidates && Due(s, id, now) then ExpiredRow(s.consents[id], now) else s.consents[id])
    && (forall id :: id in ids <==> id in candidates && Due(s, id, now))
    && (forall i, j | 0 <= i < j < |ids| :: ids[i] != ids[j])
  }

  /** The events of the expired consents, in the order they are reported. */
  function ExpiryEvents(s: Store, ids: seq<Id>, next: Id, now: int): seq<Event>
    requires forall id | id in ids :: id in s.consents
  {
    if ids == [] then []
    else [Event(next, ConsentAggregate, ids[0], ConsentExpiredEvent, s.consents[ids[0]].version + 1, now)]
         + ExpiryEvents(s, ids[1..], next + 1, now)
  }

  ghost predicate ExpiresJust(s: Store, candidates: seq<Id>, now: int, t: Store, ids: seq<Id>) {
    && RowsExpire(s, candidates, now, t, ids) && (forall id | id in ids :: id in s.consents)
    && t == s.(nextId := s.nextId + |ids|, consents := t.consents, outbox := s.outbox + ExpiryEvents(s, ids, s.nextId, now))
  }

  /** The events depend on the versions of the consents they are about. */
  lemma {:induction false} SameEvents(s: Store, t: Store, ids: seq<Id>, next: Id, now: int)
    requires forall id | id in ids :: id in s.consents && id in t.consents && s.consents[id].version == t.consents[id].version
    ensures ExpiryEvents(s, ids, next, now) == ExpiryEvents(t, ids, next, now)
  {
    if ids != [] { SameEvents(s, t, ids[1..], next + 1, now); }
  }

  lemma NothingExpires(s: Store, now: int)
    ensures ExpiresJust(s, [], now, s, [])
  {
  }

  lemma SkipsOne(s: Store, candidates: seq<Id>, now: int, t: Store, ids: seq<Id>)
    requires candidates != [] && !Due(s, candidates[0], now) && ExpiresJust(s, candidates[1..], now, t, ids)
    ensures ExpiresJust(s, candidates, now, t, ids)
  {
    assert candidates == [candidates[0]] + candidates[1..];
    assert forall id :: id in candidates <==> id == candidates[0] || id in candidates[1..];
  }

  lemma RowsExpireOne(s: Store, candidates: seq<Id>, now: int, one: Store, t: Store, ids: seq<Id>)
    requires candidates != [] && Due(s, candidates[0], now)
    requires one.consents == s.consents[candidates[0] := ExpiredRow(s.consents[candidates[0]], now)]
    requires RowsExpire(one, candidates[1..], now, t, ids)
    ensures RowsExpire(s, candidates, now, t, [candidates[0]] + ids)
  {
    var id, more := candidates[0], [candidates[0]] + ids;
    assert forall x :: x in candidates <==> x == id || x in candidates[1..];
    assert forall x :: Due(one, x, now) <==> Due(s, x, now) && x != id;
    assert forall x :: x in more <==> x == id || x in ids;
    forall i, j | 0 <= i < j < |more| ensures more[i] != more[j] {
      if i == 0 { assert more[j] == ids[j - 1] && ids[j - 1] in ids; }
    }
  }

  lemma ExpiresOne(s: Store, candidates: seq<Id>, now: int, one: Store, t: Store, ids: seq<Id>)
    requires candidates != [] && Due(s, candidates[0], now)
    requires var id := candidates[0]; var c := s.consents[id];
             one == s.(nextId := s.nextId + 1, consents := s.consents[id := ExpiredRow(c, now)],
                       outbox := s.outbox + [Event(s.nextId, ConsentAggregate, id, ConsentExpiredEvent, c.version + 1, now)])
    requires ExpiresJust(one, candidates[1..], now, t, ids)
    ensures ExpiresJust(s, candidates, now, t, [candidates[0]] + ids)
  {
    hide ExpiryEvents;
    RowsExpireOne(s, candidates, now, one, t, ids);
    NotTwice(one, candidates[1..], now, t, ids, candidates[0]);
    hide RowsExpire;
    EventsGrow(s, one, candidates[0], ids, now);
  }

  lemma EventsGrow(s: Store, one: Store, id: Id, ids: seq<Id>, now: int)
    requires id in s.consents && id !in ids && one.consents == s.consents[id := ExpiredRow(s.consents[id], now)]
    requires forall i | i in ids :: i in s.consents
    ensures var e := Event(s.nextId, ConsentAggregate, id, ConsentExpiredEvent, s.consents[id].version + 1, now);
            s.outbox + ExpiryEvents(s, [id] + ids, s.nextId, now) == s.outbox + [e] + ExpiryEvents(one, ids, s.nextId + 1, now)
  {
    SameEvents(s, one, ids, s.nextId + 1, now);
    assert ([id] + ids)[1..] == ids;
  }

  /** An expired consent is not due again. */
  lemma NotTwice(s: Store, candidates: seq<Id>, now: int, t: Store, ids: seq<Id>, id: Id)
    requires RowsExpire(s, candidates, now, t, ids) && id in s.consents && s.consents[id].status == EXPIRED
    ensures id !in ids
  {
  }

  lemma OneExpiry(env: Env, s: Store, id: Id, now: int)
    requires Inv(env, s)
    ensures Due(s, id, now) ==>
              ExpireOne(s, id, now)
              == Some(s.(nextId := s.nextId + 1, consents := s.consents[id := ExpiredRow(s.consents[id], now)],
                         outbox := s.outbox + [Event(s.nextId, ConsentAggregate, id, ConsentExpiredEvent, s.consents[id].version + 1,
                                                     now)]))
    ensures !Due(s, id, now) ==> ExpireOne(s, id, now) == None
  {
    hide RequestsInv, CodesInv, FamiliesInv, AccessInv, LedgerInv, VersionsInv;
  }

  /** Over any candidates, due or not, repeated or not: the batch expires exactly the due ones and reports them. */
  lemma {:induction false} ExpireExactly(env: Env, s: Store, candidates: seq<Id>, now: int)
    requires Inv(env, s)
    ensures var done := DoExpireConsents(s, candidates, now);
            ExpiresJust(s, candidates, now, done.store, done.reply.expiredIds)
    decreases |candidates|
  {
    hide Inv, ExpireOne, ExpiresJust, Due, ExpiredRow, RowsExpire;
    if candidates == [] {
      NothingExpires(s, now);
    } else {
      OneExpiry(env, s, candidates[0], now);
      var one := ExpireOne(s, candidates[0], now);
      if one.Some? {
        ExpireOneKeeps(env, s, candidates[0], now);
        ExpireExactly(env, one.value, candidates[1..], now);
        var rest := DoExpireConsents(one.value, candidates[1..], now);
        ExpiresOne(s, candidates, now, one.value, rest.store, rest.reply.expiredIds);
      } else {
        ExpireExactly(env, s, candidates[1..], now);
        var rest := DoExpireConsents(s, candidates[1..], now);
        SkipsOne(s, candidates, now, rest.store, rest.reply.expiredIds);
      }
    }
  }

  // ---------------------------------------------------------------- the code exchange

  /** The verifier answers the challenge: equal to it under "plain", taken to it by the S256 transform under any other method. */
  ghost predicate AnswersChallenge(env: Env, verifier: Option<string>, challenge: string, challengeMethod: string) {
    && verifier.Some?
    && (challengeMethod == "plain" ==> verifier.value == challenge)
    && (challengeMethod != "plain" ==> verifier.value != "" && challenge != "" && env.s256(verifier.value) == challenge)
  }

  /** An exchange goes ahead exactly with this: the client proven, the code its own, unused, unexpired and answered, the consent live. */
  ghost predicate Redeemable(env: Env, s: Store, cmd: Command, now: int)
    requires cmd.ExchangeCode?
  {
    && Proves(env, cmd.clientId, cmd.clientSecret) && Digest(cmd.code) in s.codes
    && var k := s.codes[Digest(cmd.code)];
       && k.usedAt == None && now < k.expiresAt && k.clientId == env.clients[cmd.clientId].id && k.redirectUri == cmd.redirectUri
       && AnswersChallenge(env, cmd.verifier, k.challenge, k.challengeMethod)
       && k.consentId in s.consents && s.consents[k.consentId].status in {AUTHORIZED, ACTIVE}
  }

  lemma CodeRowFacts(env: Env, s: Store, code: Id)
    requires Inv(env, s) && Digest(code) in s.codes
    ensures var k := s.codes[Digest(code)];
            k.challenge != "" && k.consentId in s.consents && s.consents[k.consentId].id == k.consentId
  {
    hide FamiliesInv, AccessInv, LedgerInv, VersionsInv, RequestsInv, CodesInv, ConsentsInv;
    var k := s.codes[Digest(code)];
    CodeFacts(s.codes, s.requests, s.consents, s.nextId, Digest(code));
    var r :| Backs(s.requests, r, k);
    RequestFacts(env, s.requests, s.consents, s.nextId, r);
    ConsentFacts(s.consents, s.nextId, k.consentId);
  }

  lemma ExchangeAcceptedExactly(env: Env, s: Store, cmd: Command, now: int)
    requires Inv(env, s) && cmd.ExchangeCode?
    ensures DoExchangeCode(env, s, cmd, now).reply.TokensIssued? <==> Redeemable(env, s, cmd, now)
  {
    hide Inv, AuthenticatedClient, IssueTokens;
    AuthenticatedExactly(env, cmd.clientId, cmd.clientSecret);
    if Digest(cmd.code) in s.codes { CodeRowFacts(env, s, cmd.code); }
  }

  /** Otherwise nothing is written, and the first reason that applies is given. */
  lemma ExchangeRefusedExactly(env: Env, s: Store, cmd: Command, now: int)
    requires Inv(env, s) && cmd.ExchangeCode? && !Redeemable(env, s, cmd, now)
    ensures DoExchangeCode(env, s, cmd, now)
            == Outcome(s, Refused(
                 if !Proves(env, cmd.clientId, cmd.clientSecret) then InvalidClient
                 else if Digest(cmd.code) !in s.codes then InvalidCode else
                 var k := s.codes[Digest(cmd.code)];
                 if k.usedAt.Some? then CodeUsed
                 else if k.expiresAt <= now then CodeExpired
                 else if k.clientId != env.clients[cmd.clientId].id then CodeClientMismatch
                 else if k.redirectUri != cmd.redirectUri then RedirectUriMismatch
                 else if !AnswersChallenge(env, cmd.verifier, k.challenge, k.challengeMethod) then PkceFailed
                 else ConsentNotAuthorized))
  {
    hide Inv, AuthenticatedClient, IssueTokens;
    AuthenticatedExactly(env, cmd.clientId, cmd.clientSecret);
    if Digest(cmd.code) in s.codes { CodeRowFacts(env, s, cmd.code); }
  }

  /** The consent after its exchange: activated, unless it was active. */
  function Active(c: ConsentProps, now: int): ConsentProps {
    if c.status == ACTIVE then c else c.(status := ACTIVE, activatedAt := Some(now), updatedAt := now, version := c.version + 1)
  }

  /**
   A successful exchange: the code is used, the consent active, one access token with the scopes of
   the code, and with offline_access one family of generation 1 with its unused row, for 30 days.
   */
  lemma ExchangeWrites(env: Env, s: Store, cmd: Command, now: int)
    requires Inv(env, s) && cmd.ExchangeCode? && Redeemable(env, s, cmd, now)
    ensures var k, n := s.codes[Digest(cmd.code)], s.nextId;
            var offline, until, token := "offline_access" in k.scopes, now + 30 * 24 * 60 * 60 * 1000, Opaque(n, n + 1);
            var c := Active(s.consents[k.consentId], now);
            DoExchangeCode(env, s, cmd, now)
            == Outcome(s.(nextId := n + 7,
                          consents := s.consents[k.consentId := c],
                          codes := s.codes[Digest(cmd.code) := k.(usedAt := Some(now))],
                          access := s.access[n + 2 := AccessToken(n + 4, k.clientId, k.userId, k.consentId, k.scopes,
                                                                  now + env.accessTtlSeconds * 1000, None, now)],
                          ledger := if !offline then s.ledger else
                                    Ledger(s.ledger.families[n + 3 := Family(k.clientId, k.userId, k.consentId, Digest(token), k.scopes,
                                                                             until, None, None, 1, now)],
                                           s.ledger.rows[Digest(token) := TokenRow(n + 3, 1, until, None)]),
                          outbox := s.outbox + [Event(n + 5, ConsentAggregate, k.consentId, ConsentActivatedEvent, c.version, now)]
                                    + [Event(n + 6, TokenAggregate, n + 2, TokenIssuedEvent, 1, now)]),
                       TokensIssued(k.consentId, n + 2, if offline then Some(token) else None, k.scopes))
  {
    hide Inv, AuthenticatedClient, IssueTokens;
    AuthenticatedExactly(env, cmd.clientId, cmd.clientSecret);
    CodeRowFacts(env, s, cmd.code);
    var k := s.codes[Digest(cmd.code)];
    IssueTokensTables(env, s, Active(s.consents[k.consentId], now), cmd.code, k.clientId, now);
  }

  // ---------------------------------------------------------------- the refresh

  /**
   An accepted refresh: the presented row is used, the family moves to the next generation with a
   new unused row, both for 30 days, and one access token carries the family's scopes.
   */
  lemma RefreshWrites(env: Env, s: Store, cmd: Command, now: int)
    requires Inv(env, s) && cmd.RefreshTokens? && Proves(env, cmd.clientId, cmd.clientSecret)
    requires LiveToken(s, env.clients[cmd.clientId], cmd.refreshToken, now)
    ensures var hash, n := Digest(cmd.refreshToken), s.nextId;
            var row := s.ledger.rows[hash]; var id := row.familyId; var f := s.ledger.families[id];
            var next, until := Opaque(n, n + 1), now + 30 * 24 * 60 * 60 * 1000;
            DoRefreshTokens(env, s, cmd, now)
            == Outcome(s.(nextId := n + 5,
                          ledger := Ledger(s.ledger.families[id := f.(currentTokenHash := Digest(next), generation := f.generation + 1,
                                                                      expiresAt := until)],
                                           s.ledger.rows[hash := row.(usedAt := Some(now))]
                                                        [Digest(next) := TokenRow(id, f.generation + 1, until, None)]),
                          access := s.access[n + 2 := AccessToken(n + 3, f.clientId, f.userId, f.consentId, f.scopes,
                                                                  now + env.accessTtlSeconds * 1000, None, now)],
                          outbox := s.outbox + [Event(n + 4, FamilyAggregate, id, TokenIssuedEvent, f.generation + 1, now)]),
                       TokensRefreshed(id, n + 2, if "offline_access" in f.scopes then Some(next) else None, f.scopes))
  {
    hide ConsentsInv, RequestsInv, CodesInv, FamiliesInv, AccessInv, VersionsInv, OneRowEach, AllGenerations, AuthenticatedClient,
         FindFamilyByHash, HandleReuse;
    var l, hash := s.ledger, Digest(cmd.refreshToken);
    AuthenticatedExactly(env, cmd.clientId, cmd.clientSecret);
    LookupIsScan(l, s.nextId, hash);
    assert RowOk(l, hash) && FamilyOk(l, l.rows[hash].familyId);
  }

  /** A refused refresh writes nothing, unless it detects reuse: then it marks and revokes the family and nothing else. */
  lemma RefusedRefreshWrites(env: Env, s: Store, cmd: Command, now: int)
    requires Inv(env, s) && cmd.RefreshTokens? && DoRefreshTokens(env, s, cmd, now).reply.Refused?
    ensures var done, n := DoRefreshTokens(env, s, cmd, now), s.nextId;
            if !done.reply.error.TokenReuseDetected? then done.store == s else
            var id := done.reply.error.familyId;
            && id in s.ledger.families
            && done.store == s.(nextId := n + 2,
                                ledger := s.ledger.(families := s.ledger.families[id :=
                                  s.ledger.families[id].(reuseDetectedAt := Some(now), revokedAt := Some(now))]),
                                outbox := s.outbox + [Event(n, FamilyAggregate, id, TokenReuseDetectedEvent, 1, now),
                                                      Event(n + 1, FamilyAggregate, id, TokenRevokedEvent, 1, now)])
  {
    hide ConsentsInv, RequestsInv, CodesInv, FamiliesInv, AccessInv, VersionsInv, LedgerInv, AuthenticatedClient, FindFamilyByHash,
         RotateFamily;
    LookupIsScan(s.ledger, s.nextId, Digest(cmd.refreshToken));
  }

  // ---------------------------------------------------------------- token revocation

  /** The calling client is registered and active. */
  ghost predicate Calls(env: Env, cmd: Command)
    requires cmd.RevokeToken?
  {
    cmd.clientId in env.clients && env.clients[cmd.clientId].isActive
  }

  /** The presented token has a row of this family, which is the caller's, and the hint does not exclude refresh tokens. */
  ghost predicate NamesFamily(env: Env, s: Store, cmd: Command, id: Id)
    requires cmd.RevokeToken?
  {
    && Calls(env, cmd) && cmd.presented.OpaqueToken? && cmd.hint in {None, Some(RefreshHint)}
    && Digest(cmd.presented.token) in s.ledger.rows && s.ledger.rows[Digest(cmd.presented.token)].familyId == id
    && id in s.ledger.families && s.ledger.families[id].clientId == env.clients[cmd.clientId].id
  }

  /** The JWT verifies for the caller and has the jti of this access row, which is the caller's, and the hint does not exclude it. */
  ghost predicate NamesAccess(env: Env, s: Store, cmd: Command, id: Id)
    requires cmd.RevokeToken?
  {
    && Calls(env, cmd) && cmd.presented.Jwt? && cmd.hint in {None, Some(AccessHint)}
    && cmd.presented.verified.Some? && cmd.presented.verified.value.0 == env.clients[cmd.clientId].clientId
    && id in s.access && s.access[id].jti == cmd.presented.verified.value.1
    && s.access[id].clientId == env.clients[cmd.clientId].id
  }

  /**
   A revocation that names a refresh token of the caller revokes exactly its family, one that names
   an access token of the caller exactly that token, and any other is refused and writes nothing.
   */
  lemma RevokeTokenExactly(env: Env, s: Store, cmd: Command, now: int, id: Id)
    requires Inv(env, s) && cmd.RevokeToken?
    ensures var n := s.nextId; var done := DoRevokeToken(env, s, cmd, now);
            && (NamesFamily(env, s, cmd, id) ==>
                  done == Outcome(s.(nextId := n + 1,
                                     ledger := s.ledger.(families :=
                                       s.ledger.families[id := s.ledger.families[id].(revokedAt := Some(now))]),
                                     outbox := s.outbox + [Event(n, FamilyAggregate, id, TokenRevokedEvent, 1, now)]),
                                  TokenRevoked))
            && (NamesAccess(env, s, cmd, id) ==>
                  done == Outcome(s.(nextId := n + 1,
                                     access := s.access[id := s.access[id].(revokedAt := Some(now))],
                                     outbox := s.outbox + [Event(n, AccessTokenAggregate, id, TokenRevokedEvent, 1, now)]),
                                  TokenRevoked))
            && ((forall j :: !NamesFamily(env, s, cmd, j) && !NamesAccess(env, s, cmd, j)) ==>
                  done == Outcome(s, Refused(if Calls(env, cmd) then TokenNotFound else InvalidClient)))
  {
    hide ConsentsInv, RequestsInv, CodesInv, FamiliesInv, VersionsInv, LedgerInv, FindFamilyByHash, AccessOk, FindAccessTokenByJti;
    if cmd.presented.OpaqueToken? { LookupIsScan(s.ledger, s.nextId, Digest(cmd.presented.token)); }
    if Calls(env, cmd) {
      var client := env.clients[cmd.clientId];
      var family, token := RevocableFamily(s, cmd, client), RevocableAccessToken(s, cmd, client);
      if family.Some? { assert NamesFamily(env, s, cmd, family.value); }
      if token.Some? { assert NamesAccess(env, s, cmd, token.value); }
      if NamesAccess(env, s, cmd, id) { assert HasJti(s, id, cmd.presented.verified.value.1); }
    }
  }

  lemma RevokedInOneStep(env: Env, s: Store, r: Request, id: Id)
    requires Inv(env, s) && r.command.RevokeToken? && Step(env, s, r).reply == TokenRevoked
    ensures var t := Step(env, s, r).store;
            && (NamesFamily(env, s, r.command, id) ==> id in t.ledger.families && t.ledger.families[id].revokedAt == Some(r.now))
            && (NamesAccess(env, s, r.command, id) ==> id in t.access && t.access[id].revokedAt == Some(r.now))
  {
    hide Inv, DoRevokeToken, NamesFamily, NamesAccess;
    RevokeTokenExactly(env, s, r.command, r.now, id);
    NamedIsStored(env, s, r.command, id);
  }

  /**
   From then on, in every state of the run, the family is revoked, none of its tokens is live at
   any time, and no refresh of it is accepted.
   */
  lemma RevokedFamilyIsDead(env: Env, run: Run, i: nat, n: nat, id: Id, client: Client, token: Opaque, at: int)
    requires i < n <= |run| && run[i].command.RevokeToken? && ReplyAt(env, run, i) == TokenRevoked
    requires NamesFamily(env, StateAt(env, run, i), run[i].command, id)
    ensures var s := StateAt(env, run, n);
            && id in s.ledger.families && IsFamilyRevoked(s.ledger.families[id])
            && (OwnerOf(s.ledger, Digest(token)) == Some(id) ==> !LiveToken(s, client, token, at))
            && (n < |run| && run[n].command.RefreshTokens? && ReplyAt(env, run, n).TokensRefreshed? ==>
                  ReplyAt(env, run, n).familyId != id)
  {
    hide Inv, Step, NamesFamily;
    ReachableInv(env, run, i);
    RevokedInOneStep(env, StateAt(env, run, i), run[i], id);
    DeadForever(env, run, i + 1, n, id, run[i].now);
  }

  lemma NamedIsStored(env: Env, s: Store, cmd: Command, id: Id)
    requires cmd.RevokeToken?
    ensures NamesFamily(env, s, cmd, id) ==> id in s.ledger.families
    ensures NamesAccess(env, s, cmd, id) ==> id in s.access
  {
  }

  /** And a revoked access token stays revoked. */
  lemma RevokedAccessIsDead(env: Env, run: Run, i: nat, n: nat, id: Id)
    requires i < n <= |run| && run[i].command.RevokeToken? && ReplyAt(env, run, i) == TokenRevoked
    requires NamesAccess(env, StateAt(env, run, i), run[i].command, id)
    ensures id in StateAt(env, run, n).access && StateAt(env, run, n).access[id].revokedAt.Some?
  {
    hide Inv, Step, NamesAccess, ConsentsEvolve, RequestsEvolve, CodesEvolve, LedgerEvolves;
    ReachableInv(env, run, i);
    RevokedInOneStep(env, StateAt(env, run, i), run[i], id);
    RunEvolves(env, run, i + 1, n);
  }

  // ---------------------------------------------------------------- which accounts a grant opens

  /** The step adds no grant: what is granted afterwards was granted before. */
  ghost predicate AddsNoGrant(s: Store, t: Store, c: Id) {
    c in t.consents && t.consents[c].grantedScopes.Some? ==> c in s.consents && s.consents[c].grantedScopes.Some?
  }

  lemma CreationAddsNoGrant(env: Env, s: Store, cmd: Command, now: int, c: Id)
    requires cmd.CreateConsent? || cmd.CreateAuthorizationRequest?
    ensures AddsNoGrant(s, Execute(env, s, cmd, now).store, c)
  {
    hide FromString, MayRequest, Execute;
    if cmd.CreateConsent? { CreateConsentExactly(env, s, cmd, now); } else { CreateRequestExactly(env, s, cmd, now); }
  }

  lemma StatusAddsNoGrant(env: Env, s: Store, cmd: Command, now: int, c: Id)
    requires Inv(env, s) && (cmd.ActivateConsent? || cmd.RevokeConsent? || cmd.ExpireConsents?)
    ensures AddsNoGrant(s, Execute(env, s, cmd, now).store, c)
  {
    hide Inv, DoActivateConsent, DoRevokeConsent, DoExpireConsents;
    match cmd {
      case ActivateConsent(_, _) => ActivateExactly(env, s, cmd, now);
      case RevokeConsent(_, _) => RevokeConsentExactly(env, s, cmd, now);
      case ExpireConsents(candidates) => ExpireExactly(env, s, candidates, now);
    }
  }

  lemma TokensAddNoGrant(env: Env, s: Store, cmd: Command, now: int, c: Id)
    requires Inv(env, s) && (cmd.ExchangeCode? || cmd.RefreshTokens? || cmd.RevokeToken?)
    ensures AddsNoGrant(s, Execute(env, s, cmd, now).store, c)
  {
    hide Inv, DoExchangeCode, DoRefreshTokens, DoRevokeToken;
    if cmd.ExchangeCode? {
      if Redeemable(env, s, cmd, now) { ExchangeWrites(env, s, cmd, now); } else { ExchangeRefusedExactly(env, s, cmd, now); }
    } else {
      RotationKeepsConsents(env, s, cmd, now);
    }
  }

  /** A grant that a step adds is that of an authorization by the consent's user, with the accounts it names. */
  ghost predicate Grants(cmd: Command, reply: Reply, t: Store, c: Id) {
    && cmd.AuthorizeConsent? && reply.ConsentAuthorized? && reply.consentId == c && c in t.consents
    && t.consents[c].userId == cmd.actorUserId && t.consents[c].authorizedAccountIds == cmd.accountIds
    && FromString(cmd.grantedText).Some?
    && t.consents[c].grantedScopes == Some(FromString(cmd.grantedText).value * t.consents[c].requestedScopes)
  }

  lemma NewGrant(env: Env, s: Store, cmd: Command, now: int, c: Id)
    requires Inv(env, s) && !AddsNoGrant(s, Execute(env, s, cmd, now).store, c)
    ensures Grants(cmd, Execute(env, s, cmd, now).reply, Execute(env, s, cmd, now).store, c)
  {
    hide Inv, AddsNoGrant, FromString;
    match cmd {
      case AuthorizeConsent(_, _, _, _) => AuthorizationGrants(env, s, cmd, now, c);
      case ExchangeCode(_, _, _, _, _) => TokensAddNoGrant(env, s, cmd, now, c);
      case RefreshTokens(_, _, _) => TokensAddNoGrant(env, s, cmd, now, c);
      case RevokeToken(_, _, _) => TokensAddNoGrant(env, s, cmd, now, c);
      case ActivateConsent(_, _) => StatusAddsNoGrant(env, s, cmd, now, c);
      case RevokeConsent(_, _) => StatusAddsNoGrant(env, s, cmd, now, c);
      case ExpireConsents(_) => StatusAddsNoGrant(env, s, cmd, now, c);
      case _ => CreationAddsNoGrant(env, s, cmd, now, c);
    }
  }

  lemma AuthorizationGrants(env: Env, s: Store, cmd: Command, now: int, c: Id)
    requires Inv(env, s) && cmd.AuthorizeConsent? && !AddsNoGrant(s, DoAuthorizeConsent(s, cmd, now).store, c)
    ensures Grants(cmd, DoAuthorizeConsent(s, cmd, now).reply, DoAuthorizeConsent(s, cmd, now).store, c)
  {
    hide Inv, DoAuthorizeConsent, FromString, IsOpenRequest;
    if Grantable(s, cmd, now) {
      var r: Id :| OpensGrant(s, cmd, now, r);
      AuthorizeWrites(env, s, cmd, now, r);
    } else {
      AuthorizeRefusedExactly(env, s, cmd, now);
    }
  }

  /** Step `m` of the run is the authorization whose accounts and scopes consent `c` carries at state `n`. */
  ghost predicate GrantedAs(env: Env, run: Run, m: nat, n: nat, c: Id)
    requires n <= |run|
  {
    m < n && Grants(run[m].command, ReplyAt(env, run, m), StateAt(env, run, n), c)
  }

  /** Every grant in a state of a run is that of one earlier authorization of the consent by its user. */
  lemma {:induction false} OriginOfGrant(env: Env, run: Run, n: nat, c: Id) returns (m: nat)
    requires n <= |run| && c in StateAt(env, run, n).consents && StateAt(env, run, n).consents[c].grantedScopes.Some?
    ensures GrantedAs(env, run, m, n, c)
    decreases n
  {
    hide Inv, Execute, FromString, RequestsEvolve, CodesEvolve, AccessTokensEvolve, LedgerEvolves;
    assert n > 0;
    var s, r := StateAt(env, run, n - 1), run[n - 1];
    ReachableInv(env, run, n - 1);
    if c in s.consents && s.consents[c].grantedScopes.Some? {
      m := OriginOfGrant(env, run, n - 1, c);
      StepEvolves(env, s, r);
    } else {
      NewGrant(env, s, r.command, r.now, c);
      m := n - 1;
    }
  }

  /**
   Over a run, access to an account is allowed under a consent exactly when the one authorization
   of that consent named the account, and granted the scope, while the token, the institution, the
   status and the time agree.
   */
  lemma AccountAccessExactly(env: Env, run: Run, m: nat, n: nat, c: Id, claims: TokenClaims, scope: Scope, account: string,
                             institution: Option<string>, now: int)
    requires n <= |run| && GrantedAs(env, run, m, n, c)
    ensures var row := StateAt(env, run, n).consents[c]; var cmd := run[m].command;
            DecideAccountAccess(claims, row, scope, Some(account), institution, now) == Allowed
            <==> && account in cmd.accountIds && scope in FromString(cmd.grantedText).value && scope in row.requestedScopes
                 && scope in claims.scopes && claims.consentId == Some(c)
                 && (institution.Some? ==> institution.value == row.institutionId)
                 && (claims.institutionId.Some? ==> claims.institutionId.value == row.institutionId)
                 && row.status in {AUTHORIZED, ACTIVE} && now < row.expiresAt
    ensures forall k :: GrantedAs(env, run, k, n, c) ==> k == m
  {
    hide RequestsInv, CodesInv, FamiliesInv, AccessInv, LedgerInv, VersionsInv, Step, FromString, DecideAccountAccess;
    ReachableInv(env, run, n);
    ConsentFacts(StateAt(env, run, n).consents, StateAt(env, run, n).nextId, c);
    AccessAllowedExactly(claims, StateAt(env, run, n).consents[c], scope, Some(account), institution, now);
    forall k | GrantedAs(env, run, k, n, c) ensures k == m { OneCodePerConsent(env, run, k, m); }
  }

  /** Nothing is allowed under a consent that was never granted. */
  lemma UngrantedOpensNothing(env: Env, run: Run, n: nat, c: Id, claims: TokenClaims, scope: Scope, account: Option<string>,
                              institution: Option<string>, now: int)
    requires n <= |run| && c in StateAt(env, run, n).consents && forall m :: !GrantedAs(env, run, m, n, c)
    ensures DecideAccountAccess(claims, StateAt(env, run, n).consents[c], scope, account, institution, now) != Allowed
  {
    hide RequestsInv, CodesInv, FamiliesInv, AccessInv, LedgerInv, VersionsInv, Step, FromString, DecideAccountAccess, Grants;
    ReachableInv(env, run, n);
    var row := StateAt(env, run, n).consents[c];
    if row.grantedScopes.Some? {
      var m := OriginOfGrant(env, run, n, c);
      assert false;
    }
    ConsentFacts(StateAt(env, run, n).consents, StateAt(env, run, n).nextId, c);
    AccessAllowedExactly(claims, row, scope, account, institution, now);
  }
}
