/**
 What every step of the OAuth flow keeps: how the rows of each table are bound to the
 consent they were issued under, stated table by table.
 */
module IdentityInvariants {
  import opened Basics
  import opened ScopeSets
  import opened ConsentMachine
  import opened IdentityStore
  import opened IdentityUseCases
  import opened RefreshLedger

  type Consents = map<Id, ConsentProps>
  type Requests = map<Id, AuthRequest>
  type Codes = map<Digest<Id>, AuthCode>
  type Families = map<Id, Family>
  type AccessTokens = map<Id, AccessToken>

  ghost predicate ConsentsInv(consents: Consents, next: Id) {
    forall c | c in consents :: consents[c].id == c && c < next && ConsentShape(consents[c])
  }

  /** The client a request names may redirect there and ask for these scopes. */
  ghost predicate AllowedBy(env: Env, key: string, q: AuthRequest) {
    key in env.clients && env.clients[key].id == q.clientId
    && q.redirectUri in env.clients[key].redirectUris && q.scopes <= env.clients[key].allowedScopes
  }

  /** A request mirrors its consent and is consumed exactly when the consent has been granted. */
  ghost predicate RequestOk(env: Env, q: AuthRequest, consents: Consents) {
    && q.challenge != "" && q.consentId in consents
    && consents[q.consentId].requestedScopes == q.scopes && consents[q.consentId].clientId == q.clientId
    && (q.consumedAt.Some? <==> consents[q.consentId].grantedScopes.Some?)
    && exists key :: AllowedBy(env, key, q)
  }

  ghost predicate RequestsInv(env: Env, requests: Requests, consents: Consents, next: Id) {
    && (forall r | r in requests :: r < next && RequestOk(env, requests[r], consents))
    && (forall q, r | q in requests && r in requests :: requests[q].consentId == requests[r].consentId ==> q == r)
  }

  /** What was issued under a consent carries its client, its user and exactly its granted scopes. */
  ghost predicate GrantedUnder(consents: Consents, consentId: Id, clientId: string, userId: string, scopes: set<Scope>) {
    && consentId in consents
    && consents[consentId].clientId == clientId && consents[consentId].userId == userId
    && consents[consentId].grantedScopes == Some(scopes)
  }

  ghost predicate Backs(requests: Requests, r: Id, k: AuthCode) {
    && r in requests && requests[r].consentId == k.consentId && requests[r].redirectUri == k.redirectUri
    && requests[r].challenge == k.challenge && requests[r].challengeMethod == k.challengeMethod
  }

  ghost predicate CodeOk(k: AuthCode, requests: Requests, consents: Consents) {
    && GrantedUnder(consents, k.consentId, k.clientId, k.userId, k.scopes)
    && exists r :: Backs(requests, r, k)
  }

  ghost predicate CodesInv(codes: Codes, requests: Requests, consents: Consents, next: Id) {
    && (forall h | h in codes :: h.preimage < next && CodeOk(codes[h], requests, consents))
    && (forall g, h | g in codes && h in codes :: codes[g].consentId == codes[h].consentId ==> g == h)
  }

  ghost predicate IsUsedCode(codes: Codes, h: Digest<Id>, consentId: Id) {
    h in codes && codes[h].consentId == consentId && codes[h].usedAt.Some?
  }

  /** Tokens exist only under a consent whose code was exchanged, and none lives under a revoked one. */
  ghost predicate IssuedUnder(consents: Consents, codes: Codes, consentId: Id, revokedAt: Option<int>) {
    && consentId in consents && (consents[consentId].status == REVOKED ==> revokedAt.Some?)
    && exists h :: IsUsedCode(codes, h, consentId)
  }

  ghost predicate FamilyGrantOk(f: Family, codes: Codes, consents: Consents) {
    && GrantedUnder(consents, f.consentId, f.clientId, f.userId, f.scopes)
    && IssuedUnder(consents, codes, f.consentId, f.revokedAt) && OFFLINE_ACCESS in f.scopes
  }

  ghost predicate FamiliesInv(families: Families, codes: Codes, consents: Consents) {
    && (forall id | id in families :: FamilyGrantOk(families[id], codes, consents))
    && (forall i, j | i in families && j in families :: families[i].consentId == families[j].consentId ==> i == j)
  }

  ghost predicate AccessOk(a: AccessToken, codes: Codes, consents: Consents) {
    && GrantedUnder(consents, a.consentId, a.clientId, a.userId, a.scopes)
    && IssuedUnder(consents, codes, a.consentId, a.revokedAt)
  }

  ghost predicate AccessInv(access: AccessTokens, codes: Codes, consents: Consents, next: Id) {
    && (forall id | id in access :: id < next && access[id].jti < next && AccessOk(access[id], codes, consents))
    && (forall i, j | i in access && j in access :: access[i].jti == access[j].jti ==> i == j)
  }

  /** The outbox carries, for each consent, every version from 2 to the current one and no other. */
  ghost predicate VersionsInv(outbox: seq<Event>, consents: Consents) {
    forall c: Id, v: int :: v in Versions(outbox, ConsentAggregate, c) <==> c in consents && 2 <= v <= consents[c].version
  }

  ghost predicate Inv(env: Env, s: Store) {
    && ConsentsInv(s.consents, s.nextId)
    && RequestsInv(env, s.requests, s.consents, s.nextId)
    && CodesInv(s.codes, s.requests, s.consents, s.nextId)
    && FamiliesInv(s.ledger.families, s.codes, s.consents)
    && AccessInv(s.access, s.codes, s.consents, s.nextId)
    && LedgerInv(s.ledger, s.nextId)
    && VersionsInv(s.outbox, s.consents)
  }

  lemma EmptyInv(env: Env)
    ensures Inv(env, EMPTY)
  {
  }

  // ---------------------------------------------------------------- reading one row

  lemma ConsentFacts(consents: Consents, next: Id, c: Id)
    requires ConsentsInv(consents, next) && c in consents
    ensures consents[c].id == c && c < next && ConsentShape(consents[c])
  {
  }

  lemma RequestFacts(env: Env, requests: Requests, consents: Consents, next: Id, r: Id)
    requires RequestsInv(env, requests, consents, next) && r in requests
    ensures r < next && RequestOk(env, requests[r], consents)
  {
  }

  lemma CodeFacts(codes: Codes, requests: Requests, consents: Consents, next: Id, h: Digest<Id>)
    requires CodesInv(codes, requests, consents, next) && h in codes
    ensures h.preimage < next && CodeOk(codes[h], requests, consents)
  {
  }

  lemma FamilyFacts(families: Families, codes: Codes, consents: Consents, id: Id)
    requires FamiliesInv(families, codes, consents) && id in families
    ensures FamilyGrantOk(families[id], codes, consents)
  {
  }

  lemma AccessFacts(access: AccessTokens, codes: Codes, consents: Consents, next: Id, id: Id)
    requires AccessInv(access, codes, consents, next) && id in access
    ensures AccessOk(access[id], codes, consents)
  {
  }

  /** An id at or past the counter is in no table. */
  lemma FreshIds(s: Store, env: Env, n: Id)
    requires Inv(env, s) && s.nextId <= n
    ensures n !in s.consents && n !in s.requests && Digest(n) !in s.codes && n !in s.access
    ensures forall i | i in s.access :: s.access[i].jti != n
    ensures forall r | r in s.requests :: s.requests[r].consentId != n
  {
    hide FamiliesInv, LedgerInv, VersionsInv, CodeOk, AccessOk;
    forall r | r in s.requests ensures s.requests[r].consentId != n {
      RequestFacts(env, s.requests, s.consents, s.nextId, r);
      ConsentFacts(s.consents, s.nextId, s.requests[r].consentId);
    }
  }

  // ---------------------------------------------------------------- ids taken from the counter

  lemma LaterConsents(consents: Consents, next: Id, later: Id)
    requires ConsentsInv(consents, next) && next <= later
    ensures ConsentsInv(consents, later)
  {
  }

  lemma LaterRequests(env: Env, requests: Requests, consents: Consents, next: Id, later: Id)
    requires RequestsInv(env, requests, consents, next) && next <= later
    ensures RequestsInv(env, requests, consents, later)
  {
    hide RequestOk;
  }

  lemma LaterCodes(codes: Codes, requests: Requests, consents: Consents, next: Id, later: Id)
    requires CodesInv(codes, requests, consents, next) && next <= later
    ensures CodesInv(codes, requests, consents, later)
  {
    hide CodeOk;
  }

  lemma LaterAccess(access: AccessTokens, codes: Codes, consents: Consents, next: Id, later: Id)
    requires AccessInv(access, codes, consents, next) && next <= later
    ensures AccessInv(access, codes, consents, later)
  {
    hide AccessOk;
  }

  lemma TakeKeeps(env: Env, s: Store, count: nat)
    requires Inv(env, s)
    ensures Inv(env, Take(s, count))
  {
    hide ConsentsInv, RequestsInv, CodesInv, FamiliesInv, AccessInv, LedgerInv, VersionsInv;
    var later := s.nextId + count;
    LaterConsents(s.consents, s.nextId, later);
    LaterRequests(env, s.requests, s.consents, s.nextId, later);
    LaterCodes(s.codes, s.requests, s.consents, s.nextId, later);
    LaterAccess(s.access, s.codes, s.consents, s.nextId, later);
    LaterNextKeeps(s.ledger, s.nextId, later);
  }

  // ---------------------------------------------------------------- one consent changes

  lemma PutConsent(consents: Consents, next: Id, d: ConsentProps)
    requires ConsentsInv(consents, next) && d.id < next && ConsentShape(d)
    ensures ConsentsInv(consents[d.id := d], next)
  {
  }

  /** Same identity and same grant: every transition except `authorize`. */
  ghost predicate SameGrant(c: ConsentProps, d: ConsentProps) {
    && d.id == c.id && d.clientId == c.clientId && d.userId == c.userId
    && d.requestedScopes == c.requestedScopes && d.grantedScopes == c.grantedScopes
  }

  /** The consent is new to the table, or keeps its identity and its grant. */
  ghost predicate Undisturbed(consents: Consents, d: ConsentProps) {
    d.id in consents ==> SameGrant(consents[d.id], d)
  }

  lemma UndisturbedRequests(env: Env, requests: Requests, consents: Consents, next: Id, d: ConsentProps)
    requires RequestsInv(env, requests, consents, next) && Undisturbed(consents, d)
    ensures RequestsInv(env, requests, consents[d.id := d], next)
  {
    hide AllowedBy;
    forall r | r in requests ensures RequestOk(env, requests[r], consents[d.id := d]) {
      assert RequestOk(env, requests[r], consents);
    }
  }

  lemma UndisturbedCodes(codes: Codes, requests: Requests, consents: Consents, next: Id, d: ConsentProps)
    requires CodesInv(codes, requests, consents, next) && Undisturbed(consents, d)
    ensures CodesInv(codes, requests, consents[d.id := d], next)
  {
    hide Backs;
    forall h | h in codes ensures CodeOk(codes[h], requests, consents[d.id := d]) {
      assert CodeOk(codes[h], requests, consents);
    }
  }

  /** Tokens stay well issued when the changed consent is not revoked, or every token under it is. */
  lemma UndisturbedTokens(families: Families, access: AccessTokens, codes: Codes, consents: Consents, next: Id,
                          d: ConsentProps)
    requires FamiliesInv(families, codes, consents) && AccessInv(access, codes, consents, next)
    requires Undisturbed(consents, d)
    requires d.status == REVOKED ==>
               && (forall id | id in families :: families[id].consentId == d.id ==> families[id].revokedAt.Some?)
               && (forall id | id in access :: access[id].consentId == d.id ==> access[id].revokedAt.Some?)
    ensures FamiliesInv(families, codes, consents[d.id := d])
    ensures AccessInv(access, codes, consents[d.id := d], next)
  {
    hide IsUsedCode;
    forall id | id in families ensures FamilyGrantOk(families[id], codes, consents[d.id := d]) {
      assert FamilyGrantOk(families[id], codes, consents);
    }
    forall id | id in access ensures AccessOk(access[id], codes, consents[d.id := d]) {
      assert AccessOk(access[id], codes, consents);
    }
  }

  /** The bulk revocation of a consent's tokens. */
  lemma BulkRevocationKeeps(s: Store, next: Id, consentId: Id, now: int)
    requires FamiliesInv(s.ledger.families, s.codes, s.consents) && AccessInv(s.access, s.codes, s.consents, next)
    ensures FamiliesInv(RevokeFamiliesForConsent(s.ledger, consentId, now).families, s.codes, s.consents)
    ensures AccessInv(RevokeAccessTokensForConsent(s, consentId, now).access, s.codes, s.consents, next)
  {
    hide IsUsedCode;
    var families := RevokeFamiliesForConsent(s.ledger, consentId, now).families;
    forall id | id in families ensures FamilyGrantOk(families[id], s.codes, s.consents) {
      assert FamilyGrantOk(s.ledger.families[id], s.codes, s.consents);
    }
    var access := RevokeAccessTokensForConsent(s, consentId, now).access;
    forall id | id in access ensures AccessOk(access[id], s.codes, s.consents) {
      assert AccessOk(s.access[id], s.codes, s.consents);
    }
  }

  /** Saving a consent with the event of its version: creation, activation, expiry. */
  lemma SaveAndEmitKeeps(env: Env, s: Store, d: ConsentProps, eventType: EventType, now: int)
    requires Inv(env, s) && d.id < s.nextId && Undisturbed(s.consents, d) && d.status != REVOKED && ConsentShape(d)
    requires d.id in s.consents ==> s.consents[d.id].version <= d.version <= s.consents[d.id].version + 1
    requires d.id !in s.consents ==> d.version == 2
    ensures Inv(env, SaveAndEmit(s, d, eventType, now))
  {
    hide ConsentsInv, RequestsInv, CodesInv, FamiliesInv, AccessInv, LedgerInv, VersionsInv;
    if d.id in s.consents { ConsentFacts(s.consents, s.nextId, d.id); }
    PutConsent(s.consents, s.nextId, d);
    UndisturbedRequests(env, s.requests, s.consents, s.nextId, d);
    UndisturbedCodes(s.codes, s.requests, s.consents, s.nextId, d);
    UndisturbedTokens(s.ledger.families, s.access, s.codes, s.consents, s.nextId, d);
    ConsentEventKeepsVersions(s.outbox, s.consents, d, ConsentEvent(s, d, eventType, now));
    var t := Emit(SaveConsent(s, d), [ConsentEvent(s, d, eventType, now)]);
    assert Inv(env, t);
    TakeKeeps(env, t, 1);
  }

  // ---------------------------------------------------------------- event versions

  lemma VersionsAppend(outbox: seq<Event>, e: Event, aggregate: Aggregate, id: Id)
    ensures Versions(outbox + [e], aggregate, id)
         == Versions(outbox, aggregate, id)
            + (if e.aggregate == aggregate && e.aggregateId == id then {e.version} else {})
  {
    assert (outbox + [e])[..|outbox|] == outbox;
  }

  lemma OtherEventKeepsVersions(outbox: seq<Event>, consents: Consents, e: Event)
    requires VersionsInv(outbox, consents) && e.aggregate != ConsentAggregate
    ensures VersionsInv(outbox + [e], consents)
  {
    forall c: Id ensures Versions(outbox + [e], ConsentAggregate, c) == Versions(outbox, ConsentAggregate, c) {
      VersionsAppend(outbox, e, ConsentAggregate, c);
    }
  }

  /** Saving a consent one version on, or at the version it has, with the event of that version. */
  lemma ConsentEventKeepsVersions(outbox: seq<Event>, consents: Consents, d: ConsentProps, e: Event)
    requires VersionsInv(outbox, consents)
    requires e.aggregate == ConsentAggregate && e.aggregateId == d.id && e.version == d.version && d.version >= 2
    requires d.id in consents ==> consents[d.id].version >= 1
                                  && consents[d.id].version <= d.version <= consents[d.id].version + 1
    requires d.id !in consents ==> d.version == 2
    ensures VersionsInv(outbox + [e], consents[d.id := d])
  {
    forall c: Id, v: int
      ensures v in Versions(outbox + [e], ConsentAggregate, c)
              <==> c in consents[d.id := d] && 2 <= v <= consents[d.id := d][c].version
    {
      VersionsAppend(outbox, e, ConsentAggregate, c);
    }
  }

  // ---------------------------------------------------------------- use case by use case

  lemma CreateConsentKeeps(env: Env, s: Store, cmd: Command, now: int)
    requires Inv(env, s) && cmd.CreateConsent?
    ensures Inv(env, DoCreateConsent(s, cmd, now).store)
  {
    hide ConsentsInv, RequestsInv, CodesInv, FamiliesInv, AccessInv, LedgerInv, VersionsInv;
    var done := DoCreateConsent(s, cmd, now);
    if done.store != s {
      FreshIds(s, env, s.nextId);
      TakeKeeps(env, s, 1);
      SaveAndEmitKeeps(env, Take(s, 1), done.store.consents[s.nextId], ConsentCreatedEvent, now);
    }
  }

  lemma NewRequestKeeps(env: Env, requests: Requests, consents: Consents, id: Id, q: AuthRequest, next: Id)
    requires RequestsInv(env, requests, consents, next) && id < next && id !in requests
    requires RequestOk(env, q, consents)
    requires forall r | r in requests :: requests[r].consentId != q.consentId
    ensures RequestsInv(env, requests[id := q], consents, next)
  {
    hide RequestOk;
  }

  lemma NewRequestKeepsCodes(codes: Codes, requests: Requests, consents: Consents, next: Id, id: Id, q: AuthRequest)
    requires CodesInv(codes, requests, consents, next) && id !in requests
    ensures CodesInv(codes, requests[id := q], consents, next)
  {
    forall h | h in codes ensures CodeOk(codes[h], requests[id := q], consents) {
      assert CodeOk(codes[h], requests, consents);
      var r :| Backs(requests, r, codes[h]);
      assert Backs(requests[id := q], r, codes[h]);
    }
  }

  lemma CreateRequestKeeps(env: Env, s: Store, cmd: Command, now: int)
    requires Inv(env, s) && cmd.CreateAuthorizationRequest?
    ensures Inv(env, DoCreateAuthorizationRequest(env, s, cmd, now).store)
  {
    hide ConsentsInv, RequestsInv, CodesInv, FamiliesInv, AccessInv, LedgerInv, VersionsInv;
    var done := DoCreateAuthorizationRequest(env, s, cmd, now);
    if done.store != s {
      var d := done.store.consents[s.nextId];
      var q := done.store.requests[s.nextId + 1];
      FreshIds(s, env, s.nextId);
      FreshIds(s, env, s.nextId + 1);
      TakeKeeps(env, s, 2);
      SaveAndEmitKeeps(env, Take(s, 2), d, ConsentCreatedEvent, now);
      var t := SaveAndEmit(Take(s, 2), d, ConsentCreatedEvent, now);
      assert AllowedBy(env, cmd.clientId, q);
      NewRequestKeeps(env, t.requests, t.consents, s.nextId + 1, q, t.nextId);
      NewRequestKeepsCodes(t.codes, t.requests, t.consents, t.nextId, s.nextId + 1, q);
    }
  }

  // ---------------------------------------------------------------- authorization

  /** The consent takes its grant and the request that backs it is consumed, together. */
  lemma GrantKeepsRequests(env: Env, requests: Requests, consents: Consents, next: Id, d: ConsentProps, requestId: Id,
                           now: int)
    requires RequestsInv(env, requests, consents, next) && d.id in consents && d.grantedScopes.Some?
    requires SameGrant(consents[d.id].(grantedScopes := d.grantedScopes), d)
    requires requestId in requests && requests[requestId].consentId == d.id
    ensures RequestsInv(env, requests[requestId := requests[requestId].(consumedAt := Some(now))],
                        consents[d.id := d], next)
  {
    var consumed := requests[requestId := requests[requestId].(consumedAt := Some(now))];
    forall r | r in consumed ensures RequestOk(env, consumed[r], consents[d.id := d]) {
      assert RequestOk(env, requests[r], consents);
      var key :| AllowedBy(env, key, requests[r]);
      assert AllowedBy(env, key, consumed[r]);
    }
  }

  /** A consent without a grant has no code and no token yet. */
  lemma UngrantedIsBare(env: Env, s: Store, c: Id)
    requires Inv(env, s) && c in s.consents && s.consents[c].grantedScopes == None
    ensures forall h | h in s.codes :: s.codes[h].consentId != c
    ensures forall id | id in s.ledger.families :: s.ledger.families[id].consentId != c
    ensures forall id | id in s.access :: s.access[id].consentId != c
  {
    hide ConsentsInv, RequestsInv, CodesInv, FamiliesInv, AccessInv, LedgerInv, VersionsInv;
    forall h | h in s.codes ensures s.codes[h].consentId != c {
      CodeFacts(s.codes, s.requests, s.consents, s.nextId, h);
    }
    forall id | id in s.ledger.families ensures s.ledger.families[id].consentId != c {
      FamilyFacts(s.ledger.families, s.codes, s.consents, id);
    }
    forall id | id in s.access ensures s.access[id].consentId != c {
      AccessFacts(s.access, s.codes, s.consents, s.nextId, id);
    }
  }

  lemma GrantKeepsCodes(codes: Codes, requests: Requests, consents: Consents, next: Id, d: ConsentProps, requestId: Id,
                        now: int)
    requires CodesInv(codes, requests, consents, next) && requestId in requests
    requires forall h | h in codes :: codes[h].consentId != d.id
    ensures CodesInv(codes, requests[requestId := requests[requestId].(consumedAt := Some(now))],
                     consents[d.id := d], next)
  {
    var consumed := requests[requestId := requests[requestId].(consumedAt := Some(now))];
    forall h | h in codes ensures CodeOk(codes[h], consumed, consents[d.id := d]) {
      assert CodeOk(codes[h], requests, consents);
      var r :| Backs(requests, r, codes[h]);
      assert Backs(consumed, r, codes[h]);
    }
  }

  lemma GrantKeepsTokens(families: Families, access: AccessTokens, codes: Codes, consents: Consents, next: Id,
                         d: ConsentProps)
    requires FamiliesInv(families, codes, consents) && AccessInv(access, codes, consents, next)
    requires forall id | id in families :: families[id].consentId != d.id
    requires forall id | id in access :: access[id].consentId != d.id
    ensures FamiliesInv(families, codes, consents[d.id := d])
    ensures AccessInv(access, codes, consents[d.id := d], next)
  {
    hide IsUsedCode;
    forall id | id in families ensures FamilyGrantOk(families[id], codes, consents[d.id := d]) {
      assert FamilyGrantOk(families[id], codes, consents);
    }
    forall id | id in access ensures AccessOk(access[id], codes, consents[d.id := d]) {
      assert AccessOk(access[id], codes, consents);
    }
  }

  lemma NewCodeKeeps(codes: Codes, requests: Requests, consents: Consents, next: Id, code: Id, k: AuthCode)
    requires CodesInv(codes, requests, consents, next) && code < next && Digest(code) !in codes
    requires CodeOk(k, requests, consents) && forall h | h in codes :: codes[h].consentId != k.consentId
    ensures CodesInv(codes[Digest(code) := k], requests, consents, next)
  {
    hide CodeOk;
  }

  /** Used codes stay: the tokens issued under them stay well issued. */
  lemma MoreCodesKeepTokens(families: Families, access: AccessTokens, codes: Codes, more: Codes, consents: Consents,
                            next: Id)
    requires FamiliesInv(families, codes, consents) && AccessInv(access, codes, consents, next)
    requires forall h | h in codes :: h in more && more[h].consentId == codes[h].consentId
                                      && (codes[h].usedAt.Some? ==> more[h].usedAt.Some?)
    ensures FamiliesInv(families, more, consents) && AccessInv(access, more, consents, next)
  {
    forall c: Id, h | IsUsedCode(codes, h, c) ensures IsUsedCode(more, h, c) {}
    forall id | id in families ensures FamilyGrantOk(families[id], more, consents) {
      assert FamilyGrantOk(families[id], codes, consents);
    }
    forall id | id in access ensures AccessOk(access[id], more, consents) {
      assert AccessOk(access[id], codes, consents);
    }
  }

  lemma IssueCodeKeeps(env: Env, s: Store, d: ConsentProps, requestId: Id, now: int)
    requires Inv(env, s) && IsOpenRequest(s, requestId, d.id)
    requires d.id in s.consents && s.consents[d.id].grantedScopes == None && d.grantedScopes.Some?
    requires d.version == s.consents[d.id].version + 1 && ConsentShape(d) && d.status == AUTHORIZED
    requires SameGrant(s.consents[d.id].(grantedScopes := d.grantedScopes), d)
    ensures Inv(env, IssueCode(s, d, requestId, now))
  {
    hide ConsentsInv, RequestsInv, CodesInv, FamiliesInv, AccessInv, LedgerInv, VersionsInv;
    var t := IssueCode(s, d, requestId, now);
    var s0 := Take(s, 2);
    TakeKeeps(env, s, 2);
    ConsentFacts(s.consents, s.nextId, d.id);
    FreshIds(s, env, s.nextId);
    UngrantedIsBare(env, s, d.id);
    PutConsent(s0.consents, s0.nextId, d);
    GrantKeepsRequests(env, s0.requests, s0.consents, s0.nextId, d, requestId, now);
    GrantKeepsCodes(s0.codes, s0.requests, s0.consents, s0.nextId, d, requestId, now);
    var k := t.codes[Digest(s.nextId)];
    assert Backs(t.requests, requestId, k);
    NewCodeKeeps(s0.codes, t.requests, t.consents, s0.nextId, s.nextId, k);
    GrantKeepsTokens(s0.ledger.families, s0.access, s0.codes, s0.consents, s0.nextId, d);
    MoreCodesKeepTokens(s0.ledger.families, s0.access, s0.codes, t.codes, t.consents, s0.nextId);
    ConsentEventKeepsVersions(s.outbox, s.consents, d, ConsentEvent(Take(s, 1), d, ConsentAuthorizedEvent, now));
  }

  lemma AuthorizeKeeps(env: Env, s: Store, cmd: Command, now: int)
    requires Inv(env, s) && cmd.AuthorizeConsent?
    ensures Inv(env, DoAuthorizeConsent(s, cmd, now).store)
  {
    hide ConsentsInv, RequestsInv, CodesInv, FamiliesInv, AccessInv, LedgerInv, VersionsInv;
    var done := DoAuthorizeConsent(s, cmd, now);
    if done.store != s {
      ConsentFacts(s.consents, s.nextId, cmd.consentId);
      var requestId := FindOpenRequest(s, cmd.consentId).value;
      var d := Authorized(s.consents[cmd.consentId], cmd.accountIds, FromString(cmd.grantedText).value, now).value;
      IssueCodeKeeps(env, s, d, requestId, now);
    }
  }

  // ---------------------------------------------------------------- activation, expiry, revocation

  lemma ActivateKeeps(env: Env, s: Store, cmd: Command, now: int)
    requires Inv(env, s) && cmd.ActivateConsent?
    ensures Inv(env, DoActivateConsent(s, cmd, now).store)
  {
    hide ConsentsInv, RequestsInv, CodesInv, FamiliesInv, AccessInv, LedgerInv, VersionsInv;
    if DoActivateConsent(s, cmd, now).store != s {
      ConsentFacts(s.consents, s.nextId, cmd.consentId);
      SaveAndEmitKeeps(env, s, Activated(s.consents[cmd.consentId], now).value, ConsentActivatedEvent, now);
    }
  }

  lemma ExpireOneKeeps(env: Env, s: Store, id: Id, now: int)
    requires Inv(env, s)
    ensures ExpireOne(s, id, now).Some? ==> Inv(env, ExpireOne(s, id, now).value)
  {
    hide ConsentsInv, RequestsInv, CodesInv, FamiliesInv, AccessInv, LedgerInv, VersionsInv;
    if ExpireOne(s, id, now).Some? {
      ConsentFacts(s.consents, s.nextId, id);
      SaveAndEmitKeeps(env, s, Expired(s.consents[id], now).value, ConsentExpiredEvent, now);
    }
  }

  lemma {:induction false} ExpireConsentsKeeps(env: Env, s: Store, candidates: seq<Id>, now: int)
    requires Inv(env, s)
    ensures Inv(env, DoExpireConsents(s, candidates, now).store)
    decreases |candidates|
  {
    hide Inv;
    if candidates != [] {
      ExpireOneKeeps(env, s, candidates[0], now);
      var one := ExpireOne(s, candidates[0], now);
      ExpireConsentsKeeps(env, if one.Some? then one.value else s, candidates[1..], now);
    }
  }

  lemma RevokeConsentKeeps(env: Env, s: Store, cmd: Command, now: int)
    requires Inv(env, s) && cmd.RevokeConsent?
    ensures Inv(env, DoRevokeConsent(s, cmd, now).store)
  {
    hide ConsentsInv, RequestsInv, CodesInv, FamiliesInv, AccessInv, LedgerInv, VersionsInv;
    if DoRevokeConsent(s, cmd, now).store != s {
      ConsentFacts(s.consents, s.nextId, cmd.consentId);
      var d := Revoked(s.consents[cmd.consentId], now).value;
      var ledger := RevokeFamiliesForConsent(s.ledger, d.id, now);
      var access := RevokeAccessTokensForConsent(s, d.id, now).access;
      PutConsent(s.consents, s.nextId, d);
      UndisturbedRequests(env, s.requests, s.consents, s.nextId, d);
      UndisturbedCodes(s.codes, s.requests, s.consents, s.nextId, d);
      BulkRevocationKeeps(s, s.nextId, d.id, now);
      UndisturbedTokens(ledger.families, access, s.codes, s.consents, s.nextId, d);
      ConsentEventKeepsVersions(s.outbox, s.consents, d, ConsentEvent(s, d, ConsentRevokedEvent, now));
      SameLinesKeep(s.ledger, ledger, s.nextId);
      var t := Emit(SaveConsent(s, d), [ConsentEvent(s, d, ConsentRevokedEvent, now)])
               .(ledger := ledger, access := access);
      assert Inv(env, t);
      TakeKeeps(env, t, 1);
      assert RevokeEverything(s, d, now) == Take(t, 1);
    }
  }

  // ---------------------------------------------------------------- tokens

  lemma UsedCodeKeepsCodes(codes: Codes, requests: Requests, consents: Consents, next: Id, h: Digest<Id>, now: int)
    requires CodesInv(codes, requests, consents, next) && h in codes
    ensures CodesInv(codes[h := codes[h].(usedAt := Some(now))], requests, consents, next)
  {
    var used := codes[h := codes[h].(usedAt := Some(now))];
    forall g | g in used ensures CodeOk(used[g], requests, consents) {
      assert CodeOk(codes[g], requests, consents);
      var r :| Backs(requests, r, codes[g]);
      assert Backs(requests, r, used[g]);
    }
  }

  lemma UseCodeKeeps(env: Env, s: Store, code: Id, now: int)
    requires Inv(env, s) && Digest(code) in s.codes
    ensures Inv(env, MarkCodeUsed(s, code, now))
  {
    hide ConsentsInv, RequestsInv, CodesInv, FamiliesInv, AccessInv, LedgerInv, VersionsInv;
    UsedCodeKeepsCodes(s.codes, s.requests, s.consents, s.nextId, Digest(code), now);
    MoreCodesKeepTokens(s.ledger.families, s.access, s.codes, MarkCodeUsed(s, code, now).codes, s.consents, s.nextId);
  }

  lemma NewAccessKeeps(access: AccessTokens, codes: Codes, consents: Consents, next: Id, id: Id, a: AccessToken)
    requires AccessInv(access, codes, consents, next) && AccessOk(a, codes, consents)
    requires id < next && a.jti < next && id !in access && forall i | i in access :: access[i].jti != a.jti
    ensures AccessInv(access[id := a], codes, consents, next)
  {
    hide AccessOk;
  }

  lemma NewFamilyKeeps(families: Families, codes: Codes, consents: Consents, id: Id, f: Family)
    requires FamiliesInv(families, codes, consents) && FamilyGrantOk(f, codes, consents)
    requires forall i | i in families :: families[i].consentId != f.consentId
    ensures FamiliesInv(families[id := f], codes, consents)
  {
    hide FamilyGrantOk;
  }

  lemma EmitOtherKeeps(env: Env, s: Store, e: Event)
    requires Inv(env, s) && e.aggregate != ConsentAggregate
    ensures Inv(env, Emit(s, [e]))
    ensures Inv(env, Take(Emit(s, [e]), 1))
  {
    hide ConsentsInv, RequestsInv, CodesInv, FamiliesInv, AccessInv, LedgerInv, VersionsInv;
    OtherEventKeepsVersions(s.outbox, s.consents, e);
    TakeKeeps(env, Emit(s, [e]), 1);
  }

  /** No family exists yet under a consent whose code is still unused. */
  lemma UnusedCodeNoFamily(env: Env, s: Store, code: Id)
    requires Inv(env, s) && Digest(code) in s.codes && s.codes[Digest(code)].usedAt == None
    ensures forall i | i in s.ledger.families :: s.ledger.families[i].consentId != s.codes[Digest(code)].consentId
  {
    hide ConsentsInv, RequestsInv, FamiliesInv, AccessInv, LedgerInv, VersionsInv, CodeOk;
    forall i | i in s.ledger.families ensures s.ledger.families[i].consentId != s.codes[Digest(code)].consentId {
      FamilyFacts(s.ledger.families, s.codes, s.consents, i);
      var h :| IsUsedCode(s.codes, h, s.ledger.families[i].consentId);
      assert h != Digest(code);
    }
  }

  lemma ExchangeKeeps(env: Env, s: Store, cmd: Command, now: int)
    requires Inv(env, s) && cmd.ExchangeCode?
    ensures Inv(env, DoExchangeCode(env, s, cmd, now).store)
  {
    hide ConsentsInv, RequestsInv, CodesInv, FamiliesInv, AccessInv, LedgerInv, VersionsInv;
    if DoExchangeCode(env, s, cmd, now).store != s {
      var code := s.codes[Digest(cmd.code)];
      CodeFacts(s.codes, s.requests, s.consents, s.nextId, Digest(cmd.code));
      ConsentFacts(s.consents, s.nextId, code.consentId);
      var consent := s.consents[code.consentId];
      var d := if consent.status == AUTHORIZED then Activated(consent, now).value else consent;
      IssueTokensKeeps(env, s, d, cmd.code, now);
    }
  }

  /** Activation and use of the code: the first half of the exchange. */
  lemma RedeemKeeps(env: Env, s: Store, d: ConsentProps, codeId: Id, now: int)
    requires Inv(env, s) && Digest(codeId) in s.codes
    requires d.id in s.consents && SameGrant(s.consents[d.id], d) && ConsentShape(d) && d.status == ACTIVE
    requires s.consents[d.id].version <= d.version <= s.consents[d.id].version + 1
    ensures Inv(env, MarkCodeUsed(SaveAndEmit(Take(s, 5), d, ConsentActivatedEvent, now), codeId, now))
  {
    hide ConsentsInv, RequestsInv, CodesInv, FamiliesInv, AccessInv, LedgerInv, VersionsInv;
    ConsentFacts(s.consents, s.nextId, d.id);
    TakeKeeps(env, s, 5);
    SaveAndEmitKeeps(env, Take(s, 5), d, ConsentActivatedEvent, now);
    UseCodeKeeps(env, SaveAndEmit(Take(s, 5), d, ConsentActivatedEvent, now), codeId, now);
  }

  /** The tables after it. */
  lemma RedeemedTables(s: Store, d: ConsentProps, codeId: Id, now: int)
    requires Digest(codeId) in s.codes
    ensures Digest(codeId) in SaveAndEmit(Take(s, 5), d, ConsentActivatedEvent, now).codes
    ensures var t := MarkCodeUsed(SaveAndEmit(Take(s, 5), d, ConsentActivatedEvent, now), codeId, now);
            && t.nextId == s.nextId + 6 && t.consents == s.consents[d.id := d] && t.access == s.access && t.ledger == s.ledger
            && Digest(codeId) in t.codes && t.codes[Digest(codeId)] == s.codes[Digest(codeId)].(usedAt := Some(now))
  {
  }

  lemma IssueTokensKeeps(env: Env, s: Store, d: ConsentProps, codeId: Id, now: int)
    requires Inv(env, s) && Digest(codeId) in s.codes && s.codes[Digest(codeId)].usedAt == None
    requires d.id == s.codes[Digest(codeId)].consentId && d.id in s.consents && SameGrant(s.consents[d.id], d)
    requires s.consents[d.id].version <= d.version <= s.consents[d.id].version + 1 && ConsentShape(d)
    requires d.status == ACTIVE
    ensures Inv(env, IssueTokens(env, s, d, codeId, s.codes[Digest(codeId)].clientId, now))
  {
    hide ConsentsInv, RequestsInv, CodesInv, FamiliesInv, AccessInv, LedgerInv, VersionsInv, SaveAndEmit, MarkCodeUsed;
    var code := s.codes[Digest(codeId)];
    var n := s.nextId;
    RedeemedTables(s, d, codeId, now);
    CodeFacts(s.codes, s.requests, s.consents, s.nextId, Digest(codeId));
    UnusedCodeNoFamily(env, s, codeId);
    RedeemKeeps(env, s, d, codeId, now);
    var s2 := MarkCodeUsed(SaveAndEmit(Take(s, 5), d, ConsentActivatedEvent, now), codeId, now);
    assert IsUsedCode(s2.codes, Digest(codeId), d.id);
    var a := AccessToken(n + 4, code.clientId, code.userId, d.id, code.scopes, now + env.accessTtlSeconds * 1000, None, now);
    FreshIds(s, env, n + 2);
    FreshIds(s, env, n + 4);
    NewAccessKeeps(s2.access, s2.codes, s2.consents, s2.nextId, n + 2, a);
    var s3 := SaveAccessToken(s2, n + 2, a);
    assert Inv(env, s3);
    var s4 := s3;
    if OFFLINE_ACCESS in code.scopes {
      var family := Family(code.clientId, code.userId, d.id, Digest(Opaque(n, n + 1)), code.scopes,
                           now + REFRESH_TOKEN_TTL_MS, None, None, 1, now);
      NewFamilyKeeps(s3.ledger.families, s3.codes, s3.consents, n + 3, family);
      SaveFamilyKeeps(s.ledger, n, n + 3, family, s3.nextId);
      s4 := s3.(ledger := SaveFamily(s3.ledger, n + 3, family));
      assert Inv(env, s4);
    }
    EmitOtherKeeps(env, s4, Event(s4.nextId, TokenAggregate, n + 2, TokenIssuedEvent, 1, now));
  }

  /** A family row that keeps its owner and scopes and undoes no revocation keeps the grants. */
  lemma FamilyUpdateKeeps(families: Families, codes: Codes, consents: Consents, id: Id, g: Family)
    requires FamiliesInv(families, codes, consents) && id in families
    requires g.clientId == families[id].clientId && g.userId == families[id].userId
    requires g.consentId == families[id].consentId && g.scopes == families[id].scopes
    requires families[id].revokedAt.Some? ==> g.revokedAt.Some?
    ensures FamiliesInv(families[id := g], codes, consents)
  {
    hide IsUsedCode;
    forall i | i in families ensures FamilyGrantOk(families[id := g][i], codes, consents) {
      assert FamilyGrantOk(families[i], codes, consents);
    }
  }

  lemma RotateFamilyKeeps(env: Env, s: Store, familyId: Id, now: int)
    requires Inv(env, s) && familyId in s.ledger.families
    requires s.ledger.families[familyId].consentId in s.consents
    requires s.consents[s.ledger.families[familyId].consentId].status != REVOKED
    ensures Inv(env, RotateFamily(env, s, familyId, s.ledger.families[familyId].clientId, now))
  {
    hide ConsentsInv, RequestsInv, CodesInv, FamiliesInv, AccessInv, LedgerInv, VersionsInv;
    var family := s.ledger.families[familyId];
    var n := s.nextId;
    var hash := Digest(Opaque(n, n + 1));
    var expiresAt := now + REFRESH_TOKEN_TTL_MS;
    var ledger := Rotate(s.ledger, familyId, hash, family.generation + 1, expiresAt, now);
    FamilyFacts(s.ledger.families, s.codes, s.consents, familyId);
    TakeKeeps(env, s, 4);
    RotateKeeps(s.ledger, n, familyId, hash, expiresAt, now, n + 4);
    FamilyUpdateKeeps(s.ledger.families, s.codes, s.consents, familyId, ledger.families[familyId]);
    var s2 := Take(s, 4).(ledger := ledger);
    assert Inv(env, s2);
    var a := AccessToken(n + 3, family.clientId, family.userId, family.consentId, family.scopes,
                         now + env.accessTtlSeconds * 1000, None, now);
    FreshIds(s, env, n + 2);
    FreshIds(s, env, n + 3);
    NewAccessKeeps(s2.access, s2.codes, s2.consents, s2.nextId, n + 2, a);
    var s3 := SaveAccessToken(s2, n + 2, a);
    assert Inv(env, s3);
    EmitOtherKeeps(env, s3, Event(s3.nextId, FamilyAggregate, familyId, TokenIssuedEvent, family.generation + 1, now));
  }

  lemma RevokedFamilyKeeps(env: Env, s: Store, id: Id, g: Family)
    requires Inv(env, s) && id in s.ledger.families && g.revokedAt.Some?
    requires g == s.ledger.families[id].(revokedAt := g.revokedAt, reuseDetectedAt := g.reuseDetectedAt)
    ensures Inv(env, s.(ledger := s.ledger.(families := s.ledger.families[id := g])))
  {
    hide ConsentsInv, RequestsInv, CodesInv, FamiliesInv, AccessInv, LedgerInv, VersionsInv;
    FamilyUpdateKeeps(s.ledger.families, s.codes, s.consents, id, g);
    SameLinesKeep(s.ledger, s.ledger.(families := s.ledger.families[id := g]), s.nextId);
  }

  lemma HandleReuseKeeps(env: Env, s: Store, familyId: Id, now: int)
    requires Inv(env, s) && familyId in s.ledger.families
    ensures Inv(env, HandleReuse(s, familyId, now))
  {
    hide Inv;
    var ledger := RevokeFamily(MarkReuseDetected(s.ledger, familyId, now), familyId, now);
    RevokedFamilyKeeps(env, s, familyId, ledger.families[familyId]);
    var s1 := s.(ledger := ledger);
    assert ledger.families == s.ledger.families[familyId := ledger.families[familyId]];
    var e := Event(s.nextId, FamilyAggregate, familyId, TokenReuseDetectedEvent, 1, now);
    var f := Event(s.nextId + 1, FamilyAggregate, familyId, TokenRevokedEvent, 1, now);
    EmitOtherKeeps(env, s1, e);
    EmitOtherKeeps(env, Emit(s1, [e]), f);
    assert s1.outbox + [e, f] == s1.outbox + [e] + [f];
    TakeKeeps(env, Emit(s1, [e, f]), 2);
  }

  /** The client that passed the ownership check is the one the family belongs to. */
  lemma RefreshKeeps(env: Env, s: Store, cmd: Command, now: int)
    requires Inv(env, s) && cmd.RefreshTokens?
    ensures Inv(env, DoRefreshTokens(env, s, cmd, now).store)
  {
    hide ConsentsInv, RequestsInv, CodesInv, FamiliesInv, AccessInv, LedgerInv, VersionsInv;
    LookupIsScan(s.ledger, s.nextId, Digest(cmd.refreshToken));
    var done := DoRefreshTokens(env, s, cmd, now);
    if done.store != s {
      var client := AuthenticatedClient(env, cmd.clientId, cmd.clientSecret).value;
      var id := FindFamilyByHash(s.ledger, Digest(cmd.refreshToken)).value;
      if RefreshCheck(s, client, id, cmd.refreshToken, now).None? {
        RotateFamilyKeeps(env, s, id, now);
      } else {
        HandleReuseKeeps(env, s, id, now);
      }
    }
  }

  lemma RevokedAccessKeeps(access: AccessTokens, codes: Codes, consents: Consents, next: Id, id: Id, now: int)
    requires AccessInv(access, codes, consents, next) && id in access
    ensures AccessInv(access[id := access[id].(revokedAt := Some(now))], codes, consents, next)
  {
    hide IsUsedCode;
    var revoked := access[id := access[id].(revokedAt := Some(now))];
    forall i | i in revoked ensures AccessOk(revoked[i], codes, consents) {
      assert AccessOk(access[i], codes, consents);
    }
  }

  lemma RevokeTokenKeeps(env: Env, s: Store, cmd: Command, now: int)
    requires Inv(env, s) && cmd.RevokeToken?
    ensures Inv(env, DoRevokeToken(env, s, cmd, now).store)
  {
    hide ConsentsInv, RequestsInv, CodesInv, FamiliesInv, AccessInv, LedgerInv, VersionsInv;
    if cmd.presented.OpaqueToken? {
      LookupIsScan(s.ledger, s.nextId, Digest(cmd.presented.token));
    }
    var client := ActiveClient(env, cmd.clientId);
    if client.Some? {
      var family := RevocableFamily(s, cmd, client.value);
      var token := RevocableAccessToken(s, cmd, client.value);
      if family.Some? {
        var g := s.ledger.families[family.value].(revokedAt := Some(now));
        RevokedFamilyKeeps(env, s, family.value, g);
        EmitOtherKeeps(env, s.(ledger := RevokeFamily(s.ledger, family.value, now)),
                       Event(s.nextId, FamilyAggregate, family.value, TokenRevokedEvent, 1, now));
      } else if token.Some? {
        RevokedAccessKeeps(s.access, s.codes, s.consents, s.nextId, token.value, now);
        var t := RevokeAccessToken(s, token.value, now);
        assert Inv(env, t);
        EmitOtherKeeps(env, t, Event(s.nextId, AccessTokenAggregate, token.value, TokenRevokedEvent, 1, now));
      }
    }
  }

  // ---------------------------------------------------------------- every step

  lemma {:induction false} ExpireCounterGrows(s: Store, candidates: seq<Id>, now: int)
    ensures DoExpireConsents(s, candidates, now).store.nextId >= s.nextId
    decreases |candidates|
  {
    if candidates != [] {
      var one := ExpireOne(s, candidates[0], now);
      ExpireCounterGrows(if one.Some? then one.value else s, candidates[1..], now);
    }
  }

  lemma TokenCounterGrows(env: Env, s: Store, cmd: Command, now: int)
    requires Inv(env, s) && (cmd.ExchangeCode? || cmd.RefreshTokens? || cmd.RevokeToken?)
    ensures Execute(env, s, cmd, now).store.nextId >= s.nextId
  {
    hide ConsentsInv, RequestsInv, CodesInv, FamiliesInv, AccessInv, LedgerInv, VersionsInv, AuthenticatedClient, ActiveClient,
         FindFamilyByHash, FindAccessTokenByJti, RefreshCheck, ExchangeCheck, Rotate, SaveFamily;
    if cmd.RefreshTokens? {
      LookupIsScan(s.ledger, s.nextId, Digest(cmd.refreshToken));
    } else if cmd.RevokeToken? && cmd.presented.OpaqueToken? {
      LookupIsScan(s.ledger, s.nextId, Digest(cmd.presented.token));
    }
  }

  lemma CounterGrows(env: Env, s: Store, cmd: Command, now: int)
    requires Inv(env, s)
    ensures Execute(env, s, cmd, now).store.nextId >= s.nextId
  {
    hide Inv, FromString, RequestCheck, FindOpenRequest, DoExchangeCode, DoRefreshTokens, DoRevokeToken;
    if cmd.ExchangeCode? || cmd.RefreshTokens? || cmd.RevokeToken? {
      TokenCounterGrows(env, s, cmd, now);
    } else if cmd.ExpireConsents? {
      ExpireCounterGrows(s, cmd.candidates, now);
    }
  }

  lemma ExecuteKeepsInv(env: Env, s: Store, cmd: Command, now: int)
    requires Inv(env, s)
    ensures Inv(env, Execute(env, s, cmd, now).store)
  {
    hide Inv;
    match cmd {
      case CreateConsent(_, _, _, _, _, _) => CreateConsentKeeps(env, s, cmd, now);
      case CreateAuthorizationRequest(_, _, _, _, _, _, _, _) => CreateRequestKeeps(env, s, cmd, now);
      case AuthorizeConsent(_, _, _, _) => AuthorizeKeeps(env, s, cmd, now);
      case ActivateConsent(_, _) => ActivateKeeps(env, s, cmd, now);
      case ExchangeCode(_, _, _, _, _) => ExchangeKeeps(env, s, cmd, now);
      case RefreshTokens(_, _, _) => RefreshKeeps(env, s, cmd, now);
      case RevokeToken(_, _, _) => RevokeTokenKeeps(env, s, cmd, now);
      case RevokeConsent(_, _) => RevokeConsentKeeps(env, s, cmd, now);
      case ExpireConsents(candidates) => ExpireConsentsKeeps(env, s, candidates, now);
    }
  }

  /** Every serial step, committed or not, keeps every table invariant. */
  lemma StepKeepsInv(env: Env, s: Store, r: Request)
    requires Inv(env, s)
    ensures Inv(env, Step(env, s, r).store)
  {
    hide Inv, Execute;
    ExecuteKeepsInv(env, s, r.command, r.now);
    CounterGrows(env, s, r.command, r.now);
    TakeKeeps(env, s, Execute(env, s, r.command, r.now).store.nextId - s.nextId);
  }
}
