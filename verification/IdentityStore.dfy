/**
 The tables behind the OAuth flow, and the repository operations on them.

 Generated ids come from a counter, so a generated id is new to every table. A hash is a
 free constructor: injective, and nothing else is known about it.
 */
module IdentityStore {
  import opened Basics
  import opened ScopeSets
  import opened ConsentMachine

  datatype Digest<+T> = Digest(preimage: T)

  /** An opaque refresh token: two generated ids, one after the other. */
  datatype Opaque = Opaque(first: Id, second: Id)

  datatype Client = Client(id: string, clientId: string, secretHash: Option<Digest<string>>,
                           grantTypes: set<string>, redirectUris: set<string>, allowedScopes: set<Scope>,
                           requirePkce: bool, isConfidential: bool, isActive: bool)

  /** What the use cases read and never write: clients by public id, institutions, the S256 transform. */
  datatype Env = Env(clients: map<string, Client>, institutions: map<string, bool>, s256: string -> string,
                     accessTtlSeconds: nat)

  /** The two unique columns of the client table. */
  ghost predicate EnvOk(env: Env) {
    && (forall k :: k in env.clients ==> env.clients[k].clientId == k)
    && (forall j, k :: j in env.clients && k in env.clients && env.clients[j].id == env.clients[k].id ==> j == k)
  }

  datatype AuthRequest = AuthRequest(clientId: string, consentId: Id, redirectUri: string, scopes: set<Scope>,
                                     challenge: string, challengeMethod: string, expiresAt: int,
                                     consumedAt: Option<int>, createdAt: int)

  datatype AuthCode = AuthCode(clientId: string, userId: string, consentId: Id, redirectUri: string,
                               scopes: set<Scope>, challenge: string, challengeMethod: string, expiresAt: int,
                               usedAt: Option<int>, createdAt: int)

  datatype Family = Family(clientId: string, userId: string, consentId: Id, currentTokenHash: Digest<Opaque>,
                           scopes: set<Scope>, expiresAt: int, revokedAt: Option<int>,
                           reuseDetectedAt: Option<int>, generation: int, createdAt: int)

  datatype TokenRow = TokenRow(familyId: Id, generation: int, expiresAt: int, usedAt: Option<int>)

  datatype AccessToken = AccessToken(jti: Id, clientId: string, userId: string, consentId: Id, scopes: set<Scope>,
                                     expiresAt: int, revokedAt: Option<int>, createdAt: int)

  datatype Aggregate = ConsentAggregate | FamilyAggregate | TokenAggregate | AccessTokenAggregate

  datatype EventType =
    | ConsentCreatedEvent | ConsentAuthorizedEvent | ConsentActivatedEvent | ConsentRevokedEvent
    | ConsentExpiredEvent | TokenIssuedEvent | TokenRevokedEvent | TokenReuseDetectedEvent

  datatype Event = Event(eventId: Id, aggregate: Aggregate, aggregateId: Id, eventType: EventType, version: int,
                         timestamp: int)

  datatype Ledger = Ledger(families: map<Id, Family>, rows: map<Digest<Opaque>, TokenRow>)

  datatype Store = Store(nextId: Id, consents: map<Id, ConsentProps>, requests: map<Id, AuthRequest>,
                         codes: map<Digest<Id>, AuthCode>, ledger: Ledger, access: map<Id, AccessToken>,
                         outbox: seq<Event>)

  const EMPTY := Store(0, map[], map[], map[], Ledger(map[], map[]), map[], [])

  // ---------------------------------------------------------------- consents, requests, codes

  function SaveConsent(s: Store, c: ConsentProps): Store {
    s.(consents := s.consents[c.id := c])
  }

  function SaveAuthorizationRequest(s: Store, id: Id, r: AuthRequest): Store {
    s.(requests := s.requests[id := r])
  }

  ghost predicate IsOpenRequest(s: Store, id: Id, consentId: Id) {
    id in s.requests && s.requests[id].consentId == consentId && s.requests[id].consumedAt.None?
  }

  /** `findFirst` of the unconsumed requests of a consent, newest first. */
  ghost function FindOpenRequest(s: Store, consentId: Id): (r: Option<Id>)
    ensures r.Some? ==> IsOpenRequest(s, r.value, consentId)
    ensures r.None? ==> forall id :: !IsOpenRequest(s, id, consentId)
  {
    if exists id :: IsOpenRequest(s, id, consentId) then
      NewestOpenRequest(s, consentId);
      var id :| IsOpenRequest(s, id, consentId) && forall j :: IsOpenRequest(s, j, consentId)
                                                     ==> s.requests[j].createdAt <= s.requests[id].createdAt;
      Some(id)
    else None
  }

  lemma NewestOpenRequest(s: Store, consentId: Id)
    requires exists id :: IsOpenRequest(s, id, consentId)
    ensures exists id :: IsOpenRequest(s, id, consentId) && forall j :: IsOpenRequest(s, j, consentId)
                                                             ==> s.requests[j].createdAt <= s.requests[id].createdAt
  {
    var best: Id :| IsOpenRequest(s, best, consentId);
    var todo := s.requests.Keys - {best};
    while todo != {}
      invariant IsOpenRequest(s, best, consentId)
      invariant todo <= s.requests.Keys
      invariant forall j :: IsOpenRequest(s, j, consentId) && j !in todo
                  ==> s.requests[j].createdAt <= s.requests[best].createdAt
      decreases |todo|
    {
      var id :| id in todo;
      if IsOpenRequest(s, id, consentId) && s.requests[best].createdAt < s.requests[id].createdAt { best := id; }
      todo := todo - {id};
    }
  }

  function MarkRequestConsumed(s: Store, id: Id, now: int): Store
    requires id in s.requests
  {
    s.(requests := s.requests[id := s.requests[id].(consumedAt := Some(now))])
  }

  function SaveAuthorizationCode(s: Store, code: Id, k: AuthCode): Store {
    s.(codes := s.codes[Digest(code) := k])
  }

  function MarkCodeUsed(s: Store, code: Id, now: int): Store
    requires Digest(code) in s.codes
  {
    s.(codes := s.codes[Digest(code) := s.codes[Digest(code)].(usedAt := Some(now))])
  }

  // ---------------------------------------------------------------- access tokens

  function SaveAccessToken(s: Store, id: Id, a: AccessToken): Store {
    s.(access := s.access[id := a])
  }

  function RevokeAccessToken(s: Store, id: Id, now: int): Store
    requires id in s.access
  {
    s.(access := s.access[id := s.access[id].(revokedAt := Some(now))])
  }

  function RevokeAccessTokensForConsent(s: Store, consentId: Id, now: int): Store {
    s.(access := map id | id in s.access ::
         if s.access[id].consentId == consentId && s.access[id].revokedAt.None?
         then s.access[id].(revokedAt := Some(now)) else s.access[id])
  }

  // ---------------------------------------------------------------- refresh-token families

  predicate IsFamilyRevoked(f: Family) {
    f.revokedAt.Some? || f.reuseDetectedAt.Some?
  }

  function SaveFamily(l: Ledger, id: Id, f: Family): Ledger {
    Ledger(l.families[id := f], l.rows[f.currentTokenHash := TokenRow(id, f.generation, f.expiresAt, None)])
  }

  /** `rotateRefreshToken`: retire the current row, move the family on, insert the next row. */
  function Rotate(l: Ledger, id: Id, newHash: Digest<Opaque>, generation: int, expiresAt: int, now: int): Ledger
    requires id in l.families
  {
    var f := l.families[id];
    var retired := map h | h in l.rows ::
      if h == f.currentTokenHash && l.rows[h].familyId == id && l.rows[h].usedAt.None?
      then l.rows[h].(usedAt := Some(now)) else l.rows[h];
    Ledger(l.families[id := f.(currentTokenHash := newHash, generation := generation, expiresAt := expiresAt)],
           retired[newHash := TokenRow(id, generation, expiresAt, None)])
  }

  function RevokeFamily(l: Ledger, id: Id, now: int): Ledger
    requires id in l.families
  {
    l.(families := l.families[id := l.families[id].(revokedAt := Some(now))])
  }

  function MarkReuseDetected(l: Ledger, id: Id, now: int): Ledger
    requires id in l.families
  {
    l.(families := l.families[id := l.families[id].(reuseDetectedAt := Some(now), revokedAt := Some(now))])
  }

  function RevokeFamiliesForConsent(l: Ledger, consentId: Id, now: int): Ledger {
    l.(families := map id | id in l.families ::
         if l.families[id].consentId == consentId && l.families[id].revokedAt.None?
         then l.families[id].(revokedAt := Some(now)) else l.families[id])
  }

  ghost predicate IsCurrent(l: Ledger, id: Id, hash: Digest<Opaque>) {
    id in l.families && l.families[id].currentTokenHash == hash
  }

  /** The two-stage lookup: by current hash first, then through the row of that hash. */
  ghost function FindFamilyByHash(l: Ledger, hash: Digest<Opaque>): Option<Id> {
    if exists id :: IsCurrent(l, id, hash) then var id :| IsCurrent(l, id, hash); Some(id)
    else if hash in l.rows && l.rows[hash].familyId in l.families then Some(l.rows[hash].familyId)
    else None
  }

  /** The reference: the family that owns the row of that hash. */
  function OwnerOf(l: Ledger, hash: Digest<Opaque>): Option<Id> {
    if hash in l.rows then Some(l.rows[hash].familyId) else None
  }

  // ---------------------------------------------------------------- outbox

  function Emit(s: Store, events: seq<Event>): Store {
    s.(outbox := s.outbox + events)
  }

  /** The versions the outbox holds for one aggregate. */
  function Versions(outbox: seq<Event>, aggregate: Aggregate, id: Id): set<int> {
    if outbox == [] then {} else
      var e := outbox[|outbox| - 1];
      Versions(outbox[..|outbox| - 1], aggregate, id)
      + (if e.aggregate == aggregate && e.aggregateId == id then {e.version} else {})
  }
}
