/** Whole serial runs of the OAuth flow, from empty tables: what they keep, and what never goes back. */
module IdentityRuns {
  import opened Basics
  import opened ConsentMachine
  import opened IdentityStore
  import opened IdentityUseCases
  import opened RefreshLedger
  import opened IdentityInvariants

  // ---------------------------------------------------------------- what never goes back

  ghost predicate RequestEvolves(q: AuthRequest, r: AuthRequest) {
    r.(consumedAt := q.consumedAt) == q && (q.consumedAt.Some? ==> r == q)
  }

  ghost predicate CodeEvolves(k: AuthCode, l: AuthCode) {
    l.(usedAt := k.usedAt) == k && (k.usedAt.Some? ==> l == k)
  }

  ghost predicate AccessEvolves(a: AccessToken, b: AccessToken) {
    b.(revokedAt := a.revokedAt) == a && (a.revokedAt.Some? ==> b.revokedAt.Some?)
  }

  ghost predicate ConsentsEvolve(s: Consents, t: Consents) {
    forall c | c in s :: c in t && ConsentEvolves(s[c], t[c])
  }

  ghost predicate RequestsEvolve(s: Requests, t: Requests) {
    forall r | r in s :: r in t && RequestEvolves(s[r], t[r])
  }

  ghost predicate CodesEvolve(s: Codes, t: Codes) {
    forall h | h in s :: h in t && CodeEvolves(s[h], t[h])
  }

  ghost predicate AccessTokensEvolve(s: AccessTokens, t: AccessTokens) {
    forall id | id in s :: id in t && AccessEvolves(s[id], t[id])
  }

  /** No row is ever deleted; terminal, consumed, used and revoked are never undone; events only append. */
  ghost predicate Evolves(s: Store, t: Store) {
    && s.nextId <= t.nextId && s.outbox <= t.outbox
    && ConsentsEvolve(s.consents, t.consents) && RequestsEvolve(s.requests, t.requests)
    && CodesEvolve(s.codes, t.codes) && AccessTokensEvolve(s.access, t.access)
    && LedgerEvolves(s.ledger, t.ledger)
  }

  lemma ConsentsEvolveTransitive(s: Consents, t: Consents, u: Consents)
    requires ConsentsEvolve(s, t) && ConsentsEvolve(t, u)
    ensures ConsentsEvolve(s, u)
  {
    forall c | c in s ensures c in u && ConsentEvolves(s[c], u[c]) {
      assert c in t && ConsentEvolves(s[c], t[c]) && ConsentEvolves(t[c], u[c]);
    }
  }

  lemma LedgerEvolvesTransitive(s: Ledger, t: Ledger, u: Ledger)
    requires LedgerEvolves(s, t) && LedgerEvolves(t, u)
    ensures LedgerEvolves(s, u)
  {
    forall id | id in s.families ensures id in u.families && FamilyEvolves(s.families[id], u.families[id]) {
      assert FamilyEvolves(s.families[id], t.families[id]) && FamilyEvolves(t.families[id], u.families[id]);
    }
  }

  lemma RowsEvolveTransitive(s: Store, t: Store, u: Store)
    requires RequestsEvolve(s.requests, t.requests) && RequestsEvolve(t.requests, u.requests)
    requires CodesEvolve(s.codes, t.codes) && CodesEvolve(t.codes, u.codes)
    requires AccessTokensEvolve(s.access, t.access) && AccessTokensEvolve(t.access, u.access)
    ensures RequestsEvolve(s.requests, u.requests) && CodesEvolve(s.codes, u.codes)
    ensures AccessTokensEvolve(s.access, u.access)
  {
    forall r | r in s.requests ensures r in u.requests && RequestEvolves(s.requests[r], u.requests[r]) {
      assert RequestEvolves(s.requests[r], t.requests[r]) && RequestEvolves(t.requests[r], u.requests[r]);
    }
    forall h | h in s.codes ensures h in u.codes && CodeEvolves(s.codes[h], u.codes[h]) {
      assert CodeEvolves(s.codes[h], t.codes[h]) && CodeEvolves(t.codes[h], u.codes[h]);
    }
    forall id | id in s.access ensures id in u.access && AccessEvolves(s.access[id], u.access[id]) {
      assert AccessEvolves(s.access[id], t.access[id]) && AccessEvolves(t.access[id], u.access[id]);
    }
  }

  lemma EvolvesTransitive(s: Store, t: Store, u: Store)
    requires Evolves(s, t) && Evolves(t, u)
    ensures Evolves(s, u)
  {
    hide ConsentsEvolve, RequestsEvolve, CodesEvolve, AccessTokensEvolve, LedgerEvolves;
    ConsentsEvolveTransitive(s.consents, t.consents, u.consents);
    LedgerEvolvesTransitive(s.ledger, t.ledger, u.ledger);
    RowsEvolveTransitive(s, t, u);
  }

  lemma EvolvesReflexive(s: Store)
    ensures Evolves(s, s)
  {
  }

  lemma SaveAndEmitEvolves(s: Store, d: ConsentProps, eventType: EventType, now: int)
    requires d.id in s.consents ==> ConsentEvolves(s.consents[d.id], d)
    ensures Evolves(s, SaveAndEmit(s, d, eventType, now))
  {
    assert s.outbox <= s.outbox + [ConsentEvent(s, d, eventType, now)];
  }

  lemma {:induction false} ExpireConsentsEvolves(env: Env, s: Store, candidates: seq<Id>, now: int)
    requires Inv(env, s)
    ensures Evolves(s, DoExpireConsents(s, candidates, now).store)
    decreases |candidates|
  {
    hide Inv, Evolves;
    if candidates == [] {
      EvolvesReflexive(s);
    } else {
      var one := ExpireOne(s, candidates[0], now);
      if one.Some? {
        ExpireOneKeeps(env, s, candidates[0], now);
        ExpireOneEvolves(env, s, candidates[0], now);
        ExpireConsentsEvolves(env, one.value, candidates[1..], now);
        EvolvesTransitive(s, one.value, DoExpireConsents(one.value, candidates[1..], now).store);
      } else {
        ExpireConsentsEvolves(env, s, candidates[1..], now);
      }
    }
  }

  lemma ExpireOneEvolves(env: Env, s: Store, id: Id, now: int)
    requires Inv(env, s) && ExpireOne(s, id, now).Some?
    ensures Evolves(s, ExpireOne(s, id, now).value)
  {
    hide ConsentsInv, RequestsInv, CodesInv, FamiliesInv, AccessInv, LedgerInv, VersionsInv, Evolves;
    ConsentFacts(s.consents, s.nextId, id);
    SaveAndEmitEvolves(s, Expired(s.consents[id], now).value, ConsentExpiredEvent, now);
  }

  lemma RotateEvolves(l: Ledger, next: Id, id: Id, hash: Digest<Opaque>, expiresAt: int, now: int)
    requires LedgerInv(l, next) && id in l.families && hash !in l.rows && !IsFamilyRevoked(l.families[id])
    ensures LedgerEvolves(l, Rotate(l, id, hash, l.families[id].generation + 1, expiresAt, now))
  {
    hide LedgerInv;
    var m := Rotate(l, id, hash, l.families[id].generation + 1, expiresAt, now);
    assert FamilyEvolves(l.families[id], m.families[id]);
  }

  lemma FreshHash(l: Ledger, next: Id, n: Id)
    requires LedgerInv(l, next) && next <= n
    ensures Digest(Opaque(n, n + 1)) !in l.rows && n + 3 !in l.families
  {
    hide OneRowEach, AllGenerations;
  }

  // One row put into one table.

  lemma PutConsentEvolves(consents: Consents, d: ConsentProps)
    requires d.id in consents ==> ConsentEvolves(consents[d.id], d)
    ensures ConsentsEvolve(consents, consents[d.id := d])
  {
    forall c | c in consents ensures ConsentEvolves(consents[c], consents[d.id := d][c]) {}
  }

  lemma PutRequestEvolves(requests: Requests, r: Id, q: AuthRequest)
    requires r in requests ==> RequestEvolves(requests[r], q)
    ensures RequestsEvolve(requests, requests[r := q])
  {
  }

  lemma PutCodeEvolves(codes: Codes, h: Digest<Id>, k: AuthCode)
    requires h in codes ==> CodeEvolves(codes[h], k)
    ensures CodesEvolve(codes, codes[h := k])
  {
  }

  lemma PutAccessEvolves(access: AccessTokens, id: Id, a: AccessToken)
    requires id in access ==> AccessEvolves(access[id], a)
    ensures AccessTokensEvolve(access, access[id := a])
  {
  }

  /** Every part of the store is related to itself, so a step argues only about what it writes. */
  lemma UnchangedEvolves(s: Store)
    ensures ConsentsEvolve(s.consents, s.consents) && RequestsEvolve(s.requests, s.requests)
    ensures CodesEvolve(s.codes, s.codes) && AccessTokensEvolve(s.access, s.access)
    ensures LedgerEvolves(s.ledger, s.ledger)
  {
  }

  lemma AppendEvolves(outbox: seq<Event>, e: Event, f: Event)
    ensures outbox <= outbox + [e] && outbox <= outbox + [e] + [f] && outbox <= outbox + [e, f]
  {
  }

  lemma CreateEvolves(env: Env, s: Store, cmd: Command, now: int)
    requires Inv(env, s) && (cmd.CreateConsent? || cmd.CreateAuthorizationRequest?)
    ensures Evolves(s, Execute(env, s, cmd, now).store)
  {
    hide ConsentsInv, RequestsInv, CodesInv, FamiliesInv, AccessInv, LedgerInv, VersionsInv, ConsentsEvolve,
         RequestsEvolve, CodesEvolve, AccessTokensEvolve, LedgerEvolves;
    UnchangedEvolves(s);
    FreshIds(s, env, s.nextId);
    FreshIds(s, env, s.nextId + 1);
    var t := Execute(env, s, cmd, now).store;
    if t != s {
      PutConsentEvolves(s.consents, t.consents[s.nextId]);
      if cmd.CreateAuthorizationRequest? {
        PutRequestEvolves(s.requests, s.nextId + 1, t.requests[s.nextId + 1]);
      }
      var e := t.outbox[|s.outbox|];
      AppendEvolves(s.outbox, e, e);
    }
  }

  lemma AuthorizeEvolves(env: Env, s: Store, cmd: Command, now: int)
    requires Inv(env, s) && cmd.AuthorizeConsent?
    ensures Evolves(s, DoAuthorizeConsent(s, cmd, now).store)
  {
    hide ConsentsInv, RequestsInv, CodesInv, FamiliesInv, AccessInv, LedgerInv, VersionsInv, ConsentsEvolve,
         RequestsEvolve, CodesEvolve, AccessTokensEvolve, LedgerEvolves;
    UnchangedEvolves(s);
    var t := DoAuthorizeConsent(s, cmd, now).store;
    if t != s {
      FreshIds(s, env, s.nextId);
      ConsentFacts(s.consents, s.nextId, cmd.consentId);
      var requestId := FindOpenRequest(s, cmd.consentId).value;
      PutConsentEvolves(s.consents, t.consents[cmd.consentId]);
      PutRequestEvolves(s.requests, requestId, t.requests[requestId]);
      PutCodeEvolves(s.codes, Digest(s.nextId), t.codes[Digest(s.nextId)]);
      AppendEvolves(s.outbox, t.outbox[|s.outbox|], t.outbox[|s.outbox|]);
    }
  }

  lemma ActivateEvolves(env: Env, s: Store, cmd: Command, now: int)
    requires Inv(env, s) && cmd.ActivateConsent?
    ensures Evolves(s, DoActivateConsent(s, cmd, now).store)
  {
    hide ConsentsInv, RequestsInv, CodesInv, FamiliesInv, AccessInv, LedgerInv, VersionsInv, ConsentsEvolve,
         RequestsEvolve, CodesEvolve, AccessTokensEvolve, LedgerEvolves;
    UnchangedEvolves(s);
    var t := DoActivateConsent(s, cmd, now).store;
    if t != s {
      ConsentFacts(s.consents, s.nextId, cmd.consentId);
      SaveAndEmitEvolves(s, t.consents[cmd.consentId], ConsentActivatedEvent, now);
    }
  }

  lemma BulkRevocationEvolves(s: Store, consentId: Id, now: int)
    ensures AccessTokensEvolve(s.access, RevokeAccessTokensForConsent(s, consentId, now).access)
    ensures LedgerEvolves(s.ledger, RevokeFamiliesForConsent(s.ledger, consentId, now))
  {
  }

  lemma RevokeConsentEvolves(env: Env, s: Store, cmd: Command, now: int)
    requires Inv(env, s) && cmd.RevokeConsent?
    ensures Evolves(s, DoRevokeConsent(s, cmd, now).store)
  {
    hide ConsentsInv, RequestsInv, CodesInv, FamiliesInv, AccessInv, LedgerInv, VersionsInv, ConsentsEvolve,
         RequestsEvolve, CodesEvolve, AccessTokensEvolve, LedgerEvolves;
    UnchangedEvolves(s);
    var t := DoRevokeConsent(s, cmd, now).store;
    if t != s {
      ConsentFacts(s.consents, s.nextId, cmd.consentId);
      PutConsentEvolves(s.consents, t.consents[cmd.consentId]);
      BulkRevocationEvolves(s, cmd.consentId, now);
      AppendEvolves(s.outbox, t.outbox[|s.outbox|], t.outbox[|s.outbox|]);
    }
  }

  lemma SaveFamilyEvolves(l: Ledger, id: Id, f: Family)
    requires id !in l.families && f.currentTokenHash !in l.rows
    ensures LedgerEvolves(l, SaveFamily(l, id, f))
  {
  }

  lemma IssueTokensEvolves(env: Env, s: Store, d: ConsentProps, codeId: Id, clientUuid: string, now: int)
    requires Digest(codeId) in s.codes && s.codes[Digest(codeId)].usedAt == None
    requires d.id in s.consents ==> ConsentEvolves(s.consents[d.id], d)
    requires s.nextId + 2 !in s.access && s.nextId + 3 !in s.ledger.families
    requires Digest(Opaque(s.nextId, s.nextId + 1)) !in s.ledger.rows
    ensures Evolves(s, IssueTokens(env, s, d, codeId, clientUuid, now))
  {
    hide ConsentsEvolve, RequestsEvolve, CodesEvolve, AccessTokensEvolve, LedgerEvolves, SaveFamily, ConsentEvolves;
    UnchangedEvolves(s);
    var t := IssueTokens(env, s, d, codeId, clientUuid, now);
    var code := s.codes[Digest(codeId)];
    var n := s.nextId;
    PutConsentEvolves(s.consents, d);
    PutCodeEvolves(s.codes, Digest(codeId), code.(usedAt := Some(now)));
    PutAccessEvolves(s.access, n + 2, t.access[n + 2]);
    SaveFamilyEvolves(s.ledger, n + 3, Family(clientUuid, code.userId, d.id, Digest(Opaque(n, n + 1)), code.scopes,
                                              now + REFRESH_TOKEN_TTL_MS, None, None, 1, now));
    AppendEvolves(s.outbox, t.outbox[|s.outbox|], t.outbox[|s.outbox| + 1]);
  }

  lemma ExchangeEvolves(env: Env, s: Store, cmd: Command, now: int)
    requires Inv(env, s) && cmd.ExchangeCode?
    ensures Evolves(s, DoExchangeCode(env, s, cmd, now).store)
  {
    hide ConsentsInv, RequestsInv, CodesInv, FamiliesInv, AccessInv, LedgerInv, VersionsInv, Evolves, IssueTokens;
    if ExchangeCheck(env, s, cmd, now).None? {
      var code := s.codes[Digest(cmd.code)];
      var n := s.nextId;
      CodeFacts(s.codes, s.requests, s.consents, n, Digest(cmd.code));
      ConsentFacts(s.consents, n, code.consentId);
      FreshIds(s, env, n + 2);
      FreshHash(s.ledger, n, n);
      var consent := s.consents[code.consentId];
      var d := if consent.status == AUTHORIZED then Activated(consent, now).value else consent;
      IssueTokensEvolves(env, s, d, cmd.code, env.clients[cmd.clientId].id, now);
    } else {
      EvolvesReflexive(s);
    }
  }

  /** A rotation of a family that is not revoked. */
  lemma RotationEvolves(env: Env, s: Store, id: Id, clientUuid: string, now: int)
    requires Inv(env, s) && id in s.ledger.families && !IsFamilyRevoked(s.ledger.families[id])
    ensures Evolves(s, RotateFamily(env, s, id, clientUuid, now))
  {
    hide ConsentsInv, RequestsInv, CodesInv, FamiliesInv, AccessInv, LedgerInv, VersionsInv, LedgerEvolves, Rotate;
    var n := s.nextId;
    FreshIds(s, env, n + 2);
    FreshHash(s.ledger, n, n);
    RotateEvolves(s.ledger, n, id, Digest(Opaque(n, n + 1)), now + REFRESH_TOKEN_TTL_MS, now);
    assert forall e: Event :: s.outbox <= s.outbox + [e];
  }

  lemma HandleReuseEvolves(s: Store, id: Id, now: int)
    requires id in s.ledger.families
    ensures Evolves(s, HandleReuse(s, id, now))
  {
    hide LedgerEvolves, RevokeFamily, MarkReuseDetected;
    ReuseEvolves(s.ledger, id, now);
    assert forall e: Event, f: Event :: s.outbox <= s.outbox + [e, f];
  }

  lemma RefreshEvolves(env: Env, s: Store, cmd: Command, now: int)
    requires Inv(env, s) && cmd.RefreshTokens?
    ensures Evolves(s, DoRefreshTokens(env, s, cmd, now).store)
  {
    hide ConsentsInv, RequestsInv, CodesInv, FamiliesInv, AccessInv, LedgerInv, VersionsInv, Evolves, FindFamilyByHash,
         AuthenticatedClient, RotateFamily, HandleReuse;
    LookupIsScan(s.ledger, s.nextId, Digest(cmd.refreshToken));
    var done := DoRefreshTokens(env, s, cmd, now);
    if done.store == s {
      EvolvesReflexive(s);
    } else {
      var client := AuthenticatedClient(env, cmd.clientId, cmd.clientSecret).value;
      var id := FindFamilyByHash(s.ledger, Digest(cmd.refreshToken)).value;
      if RefreshCheck(s, client, id, cmd.refreshToken, now).None? {
        RotationEvolves(env, s, id, client.id, now);
      } else {
        HandleReuseEvolves(s, id, now);
      }
    }
  }

  lemma ReuseEvolves(l: Ledger, id: Id, now: int)
    requires id in l.families
    ensures LedgerEvolves(l, RevokeFamily(MarkReuseDetected(l, id, now), id, now))
    ensures LedgerEvolves(l, RevokeFamily(l, id, now))
  {
  }

  lemma RevokeTokenEvolves(env: Env, s: Store, cmd: Command, now: int)
    requires Inv(env, s) && cmd.RevokeToken?
    ensures Evolves(s, DoRevokeToken(env, s, cmd, now).store)
  {
    hide ConsentsInv, RequestsInv, CodesInv, FamiliesInv, AccessInv, LedgerInv, VersionsInv, ConsentsEvolve,
         RequestsEvolve, CodesEvolve, AccessTokensEvolve, LedgerEvolves;
    UnchangedEvolves(s);
    if cmd.presented.OpaqueToken? {
      LookupIsScan(s.ledger, s.nextId, Digest(cmd.presented.token));
    }
    var t := DoRevokeToken(env, s, cmd, now).store;
    if t != s {
      var client := env.clients[cmd.clientId];
      AppendEvolves(s.outbox, t.outbox[|s.outbox|], t.outbox[|s.outbox|]);
      if RevocableFamily(s, cmd, client).Some? {
        ReuseEvolves(s.ledger, RevocableFamily(s, cmd, client).value, now);
      } else {
        var id := RevocableAccessToken(s, cmd, client).value;
        PutAccessEvolves(s.access, id, t.access[id]);
      }
    }
  }

  lemma StepEvolves(env: Env, s: Store, r: Request)
    requires Inv(env, s)
    ensures Evolves(s, Step(env, s, r).store)
  {
    hide Inv, Evolves;
    var cmd, now := r.command, r.now;
    match cmd {
      case CreateConsent(_, _, _, _, _, _) => CreateEvolves(env, s, cmd, now);
      case CreateAuthorizationRequest(_, _, _, _, _, _, _, _) => CreateEvolves(env, s, cmd, now);
      case AuthorizeConsent(_, _, _, _) => AuthorizeEvolves(env, s, cmd, now);
      case ActivateConsent(_, _) => ActivateEvolves(env, s, cmd, now);
      case ExchangeCode(_, _, _, _, _) => ExchangeEvolves(env, s, cmd, now);
      case RefreshTokens(_, _, _) => RefreshEvolves(env, s, cmd, now);
      case RevokeToken(_, _, _) => RevokeTokenEvolves(env, s, cmd, now);
      case RevokeConsent(_, _) => RevokeConsentEvolves(env, s, cmd, now);
      case ExpireConsents(candidates) => ExpireConsentsEvolves(env, s, candidates, now);
    }
    CounterGrows(env, s, cmd, now);
    CounterEvolves(s, Execute(env, s, cmd, now).store.nextId);
  }

  lemma CounterEvolves(s: Store, later: Id)
    requires s.nextId <= later
    ensures Evolves(s, s.(nextId := later))
  {
  }

  // ---------------------------------------------------------------- runs

  type Run = seq<Request>

  /** The tables after the first `n` requests of a run. */
  ghost function StateAt(env: Env, run: Run, n: nat): Store
    requires n <= |run|
  {
    if n == 0 then EMPTY else Step(env, StateAt(env, run, n - 1), run[n - 1]).store
  }

  ghost function ReplyAt(env: Env, run: Run, i: nat): Reply
    requires i < |run|
  {
    Step(env, StateAt(env, run, i), run[i]).reply
  }

  lemma {:induction false} ReachableInv(env: Env, run: Run, n: nat)
    requires n <= |run|
    ensures Inv(env, StateAt(env, run, n))
  {
    hide Inv, Step;
    if n == 0 {
      EmptyInv(env);
    } else {
      ReachableInv(env, run, n - 1);
      StepKeepsInv(env, StateAt(env, run, n - 1), run[n - 1]);
    }
  }

  lemma {:induction false} RunEvolves(env: Env, run: Run, i: nat, n: nat)
    requires i <= n <= |run|
    ensures Evolves(StateAt(env, run, i), StateAt(env, run, n))
    decreases n
  {
    hide Inv, Step, Evolves;
    if i == n {
      EvolvesReflexive(StateAt(env, run, i));
    } else {
      var s := StateAt(env, run, n - 1);
      RunEvolves(env, run, i, n - 1);
      ReachableInv(env, run, n - 1);
      StepEvolves(env, s, run[n - 1]);
      EvolvesTransitive(StateAt(env, run, i), s, StateAt(env, run, n));
    }
  }
}
