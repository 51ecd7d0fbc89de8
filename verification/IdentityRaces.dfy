/**
 The OAuth use cases under arbitrary interleaving. A handler is cut at every database access:
 the rows it read are carried to its transaction, which compares none of them with what is
 stored by then.
 */
module IdentityRaces {
  import opened Basics
  import opened ScopeSets
  import opened ConsentMachine
  import opened IdentityStore
  import opened IdentityUseCases

  /** A transaction about to run, with the rows it was computed from. */
  datatype Pending =
    | ConsentSave(cmd: Command, read: ConsentProps, next: ConsentProps, eventType: EventType)
    | ConsentRevocation(cmd: Command, read: ConsentProps, next: ConsentProps)
    | Grant(cmd: Command, read: ConsentProps, next: ConsentProps, requestId: Id, request: AuthRequest)
    | Exchange(cmd: Command, code: AuthCode, read: ConsentProps, next: ConsentProps)
    | Rotation(cmd: Command, familyId: Id, family: Family, consent: ConsentProps)
    | Reuse(cmd: Command, familyId: Id, family: Family)
    | FamilyRevocation(cmd: Command, familyId: Id, family: Family)
    | AccessRevocation(cmd: Command, tokenId: Id, token: AccessToken)
    | Creation(cmd: Command)

  /** Where a handler stands: the next database access it will make, and what it carries. */
  datatype Proc =
    | Started(cmd: Command)
    | ConsentRead(cmd: Command, consent: ConsentProps)
    | CodeRead(cmd: Command, code: AuthCode)
    | FamilyRead(cmd: Command, familyId: Id, family: Family)
    | Expiring(rest: seq<ConsentProps>, at: int)
    | Ready(pending: Pending, at: int)

  /** The tables, the handlers, and the refresh tokens answered with new ones, oldest first. */
  datatype Sys = Sys(store: Store, procs: map<nat, Proc>, accepted: seq<Opaque>)

  const START := Sys(EMPTY, map[], [])

  // ---------------------------------------------------------------- from rows to a transaction; None when refused

  function ActivationOf(cmd: Command, row: ConsentProps, now: int): Option<Pending>
    requires cmd.ActivateConsent?
  {
    if row.userId != cmd.actorUserId || row.status != AUTHORIZED then None
    else match Activated(row, now)
      case Ok(next) => Some(ConsentSave(cmd, row, next, ConsentActivatedEvent))
      case Err(_) => None
  }

  /** One turn of the expiry loop over a consent loaded with its batch. */
  function ExpiryOf(row: ConsentProps, now: int): Option<Pending> {
    if IsTerminalConsent(row.status) || !IsExpired(row, now) then None
    else match Expired(row, now)
      case Ok(next) => Some(ConsentSave(ExpireConsents([row.id]), row, next, ConsentExpiredEvent))
      case Err(_) => None
  }

  function RevocationOf(cmd: Command, row: ConsentProps, now: int): Option<Pending>
    requires cmd.RevokeConsent?
  {
    if row.userId != cmd.actorUserId || IsTerminalConsent(row.status) then None
    else match Revoked(row, now)
      case Ok(next) => Some(ConsentRevocation(cmd, row, next))
      case Err(_) => None
  }

  function GrantOf(cmd: Command, row: ConsentProps, requestId: Id, request: AuthRequest, now: int): Option<Pending>
    requires cmd.AuthorizeConsent?
  {
    if row.userId != cmd.actorUserId || row.status != AWAITING_AUTHORIZATION || request.expiresAt <= now then None
    else match FromString(cmd.grantedText)
      case None => None
      case Some(granted) =>
        match Authorized(row, cmd.accountIds, granted, now)
        case Ok(next) => Some(Grant(cmd, row, next, requestId, request))
        case Err(_) => None
  }

  /** The checks of the exchange on the code and the consent that were read. */
  function ExchangeOf(env: Env, cmd: Command, code: AuthCode, row: ConsentProps, now: int): Option<Pending>
    requires cmd.ExchangeCode?
  {
    var view := EMPTY.(codes := map[Digest(cmd.code) := code], consents := map[code.consentId := row]);
    if ExchangeCheck(env, view, cmd, now).Some? then None
    else if row.status != AUTHORIZED then Some(Exchange(cmd, code, row, row))
    else match Activated(row, now)
      case Ok(next) => Some(Exchange(cmd, code, row, next))
      case Err(_) => None
  }

  /** The checks of the refresh on the family and the consent that were read. */
  function RotationOf(env: Env, cmd: Command, familyId: Id, family: Family, consents: map<Id, ConsentProps>, now: int)
    : Option<Pending>
    requires cmd.RefreshTokens?
  {
    var view := EMPTY.(ledger := Ledger(map[familyId := family], map[]), consents := consents);
    match AuthenticatedClient(env, cmd.clientId, cmd.clientSecret)
    case None => None
    case Some(client) =>
      match RefreshCheck(view, client, familyId, cmd.refreshToken, now)
      case None => Some(Rotation(cmd, familyId, family, consents[family.consentId]))
      case Some(TokenReuseDetected(_)) => Some(Reuse(cmd, familyId, family))
      case Some(_) => None
  }

  ghost function TokenRevocationOf(env: Env, s: Store, cmd: Command): Option<Pending>
    requires cmd.RevokeToken?
  {
    match ActiveClient(env, cmd.clientId)
    case None => None
    case Some(client) =>
      match RevocableFamily(s, cmd, client)
      case Some(id) => Some(FamilyRevocation(cmd, id, s.ledger.families[id]))
      case None =>
        match RevocableAccessToken(s, cmd, client)
        case Some(id) => Some(AccessRevocation(cmd, id, s.access[id]))
        case None => None
  }

  // ---------------------------------------------------------------- transactions

  /**
   What a transaction writes. An update of a row that is not there throws. The checks have
   compared the client with the owner of the code or family, so the owner stands for it.
   */
  ghost function Commit(env: Env, s: Store, p: Pending, now: int): Store {
    match p
    case ConsentSave(_, _, next, eventType) => SaveAndEmit(s, next, eventType, now)
    case ConsentRevocation(_, _, next) => RevokeEverything(s, next, now)
    case Grant(_, _, next, requestId, _) => if requestId in s.requests then IssueCode(s, next, requestId, now) else s
    case Exchange(cmd, code, _, next) =>
      if cmd.ExchangeCode? && Digest(cmd.code) in s.codes then IssueTokens(env, s, next, cmd.code, code.clientId, now) else s
    case Rotation(cmd, id, family, _) =>
      if id in s.ledger.families then RotateFrom(env, s, id, family.generation, family.clientId, now) else s
    case Reuse(_, id, _) => if id in s.ledger.families then HandleReuse(s, id, now) else s
    case FamilyRevocation(_, id, _) => if id in s.ledger.families then RevokeFamilyOnRequest(s, id, now) else s
    case AccessRevocation(_, id, _) => if id in s.access then RevokeAccessOnRequest(s, id, now) else s
    case Creation(cmd) => if IsCreation(cmd) then Execute(env, s, cmd, now).store else s
  }

  predicate IsCreation(cmd: Command) {
    cmd.CreateConsent? || cmd.CreateAuthorizationRequest?
  }

  // ---------------------------------------------------------------- steps

  /** Start a handler, or let one make its next database access. */
  datatype Action =
    | Start(h: nat, cmd: Command)
    | Move(h: nat, now: int, commits: bool)

  function Ended(s: Sys, h: nat): Sys {
    s.(procs := s.procs - {h})
  }

  function At(s: Sys, h: nat, proc: Proc): Sys {
    s.(procs := s.procs[h := proc])
  }

  /** On to the transaction, or refused. */
  function Readied(s: Sys, h: nat, p: Option<Pending>, now: int): Sys {
    if p.Some? then At(s, h, Ready(p.value, now)) else Ended(s, h)
  }

  /** The consents of a batch that are stored, as loaded by one query. */
  function Loaded(consents: map<Id, ConsentProps>, candidates: seq<Id>): seq<ConsentProps> {
    if candidates == [] then []
    else (if candidates[0] in consents then [consents[candidates[0]]] else []) + Loaded(consents, candidates[1..])
  }

  ghost function FirstRead(env: Env, s: Sys, h: nat, cmd: Command, now: int): Sys {
    var store := s.store;
    match cmd
    case CreateConsent(_, _, _, _, _, _) => At(s, h, Ready(Creation(cmd), now))
    case CreateAuthorizationRequest(_, _, _, _, _, _, _, _) => At(s, h, Ready(Creation(cmd), now))
    case AuthorizeConsent(id, _, _, _) =>
      if id in store.consents then At(s, h, ConsentRead(cmd, store.consents[id])) else Ended(s, h)
    case ActivateConsent(id, _) =>
      Readied(s, h, if id in store.consents then ActivationOf(cmd, store.consents[id], now) else None, now)
    case RevokeConsent(id, _) =>
      Readied(s, h, if id in store.consents then RevocationOf(cmd, store.consents[id], now) else None, now)
    case ExchangeCode(_, _, code, _, _) =>
      if Digest(code) in store.codes then At(s, h, CodeRead(cmd, store.codes[Digest(code)])) else Ended(s, h)
    case RefreshTokens(_, _, token) =>
      (match FindFamilyByHash(store.ledger, Digest(token))
       case Some(id) => At(s, h, FamilyRead(cmd, id, store.ledger.families[id]))
       case None => Ended(s, h))
    case RevokeToken(_, _, _) => Readied(s, h, TokenRevocationOf(env, store, cmd), now)
    case ExpireConsents(candidates) => At(s, h, Expiring(Loaded(store.consents, candidates), now))
  }

  ghost function SecondRead(env: Env, s: Sys, h: nat, proc: Proc, now: int): Sys
    requires proc.ConsentRead? || proc.CodeRead? || proc.FamilyRead?
  {
    match proc
    case ConsentRead(cmd, consent) =>
      (match FindOpenRequest(s.store, consent.id)
       case Some(r) => Readied(s, h, if cmd.AuthorizeConsent? then GrantOf(cmd, consent, r, s.store.requests[r], now) else None, now)
       case None => Ended(s, h))
    case CodeRead(cmd, code) =>
      Readied(s, h, if cmd.ExchangeCode? && code.consentId in s.store.consents
                    then ExchangeOf(env, cmd, code, s.store.consents[code.consentId], now) else None, now)
    case FamilyRead(cmd, id, family) =>
      Readied(s, h, if cmd.RefreshTokens? then RotationOf(env, cmd, id, family, s.store.consents, now) else None, now)
  }

  /** The transaction a handler runs at its next move, if any. */
  function PendingOf(proc: Proc): Option<Pending> {
    match proc
    case Ready(p, _) => Some(p)
    case Expiring(rest, at) => if rest == [] then None else ExpiryOf(rest[0], at)
    case _ => None
  }

  /** A transaction that commits; a refresh is then answered. */
  ghost function Committed(env: Env, s: Sys, p: Pending, at: int): Sys {
    s.(store := Commit(env, s.store, p, at),
       accepted := if p.Rotation? && p.cmd.RefreshTokens? then s.accepted + [p.cmd.refreshToken] else s.accepted)
  }

  /** One turn of the expiry loop; a transaction that throws ends the batch. */
  ghost function ExpiryTurn(env: Env, s: Sys, h: nat, rest: seq<ConsentProps>, at: int, commits: bool): Sys {
    if rest == [] then Ended(s, h)
    else match ExpiryOf(rest[0], at)
      case None => At(s, h, Expiring(rest[1..], at))
      case Some(p) => if commits then At(Committed(env, s, p, at), h, Expiring(rest[1..], at)) else Ended(s, h)
  }

  ghost function Advance(env: Env, s: Sys, a: Action): Sys {
    match a
    case Start(h, cmd) => if h in s.procs then s else At(s, h, Started(cmd))
    case Move(h, now, commits) =>
      if h !in s.procs then s
      else match s.procs[h]
        case Started(cmd) => FirstRead(env, s, h, cmd, now)
        case Expiring(rest, at) => ExpiryTurn(env, s, h, rest, at, commits)
        case Ready(p, at) => Ended(if commits then Committed(env, s, p, at) else s, h)
        case _ => SecondRead(env, s, h, s.procs[h], now)
  }

  ghost function After(env: Env, s: Sys, schedule: seq<Action>): Sys
    decreases |schedule|
  {
    if schedule == [] then s
    else Advance(env, After(env, s, schedule[..|schedule| - 1]), schedule[|schedule| - 1])
  }

  /** The transaction that step `a` commits in `s`, and the time it was computed at. */
  ghost function CommitsAt(s: Sys, a: Action): Option<(Pending, int)> {
    if a.Start? || a.h !in s.procs || !a.commits then None
    else match PendingOf(s.procs[a.h])
      case Some(p) => Some((p, s.procs[a.h].at))
      case None => None
  }

  // ---------------------------------------------------------------- what holds in every interleaving

  /** Of the ledger: the current row of a family is its own and its only unused one. Generations may repeat. */
  ghost predicate CurrentRow(l: Ledger, id: Id)
    requires id in l.families
  {
    l.families[id].currentTokenHash in l.rows && l.rows[l.families[id].currentTokenHash].familyId == id
  }

  ghost predicate OwnedRow(l: Ledger, h: Digest<Opaque>)
    requires h in l.rows
  {
    l.rows[h].familyId in l.families
    && (l.rows[h].usedAt.None? <==> h == l.families[l.rows[h].familyId].currentTokenHash)
  }

  ghost predicate WeakLedger(l: Ledger, next: Id) {
    && (forall id | id in l.families :: id < next && CurrentRow(l, id))
    && (forall h | h in l.rows :: h.preimage.first < next && OwnedRow(l, h))
  }

  /** Rows are keyed by their own ids, every id was generated, and every consent has been submitted. */
  ghost predicate Keyed(s: Store) {
    && (forall c | c in s.consents :: s.consents[c].id == c && c < s.nextId && s.consents[c].version >= 2)
    && (forall r | r in s.requests :: r < s.nextId)
    && (forall k | k in s.codes :: k.preimage < s.nextId)
    && (forall t | t in s.access :: t < s.nextId)
  }

  ghost predicate StoreOk(s: Store) {
    Keyed(s) && WeakLedger(s.ledger, s.nextId)
  }

  ghost predicate LedgerGrows(l: Ledger, m: Ledger) {
    && (forall id | id in l.families ::
          id in m.families && m.families[id].consentId == l.families[id].consentId
          && m.families[id].clientId == l.families[id].clientId)
    && (forall h | h in l.rows ::
          h in m.rows && m.rows[h].familyId == l.rows[h].familyId && (l.rows[h].usedAt.Some? ==> m.rows[h].usedAt.Some?))
  }

  /** Of a request only `consumedAt` is ever written, of a code only `usedAt`. */
  predicate SameButConsumed(q: AuthRequest, r: AuthRequest) {
    r == q.(consumedAt := r.consumedAt)
  }

  predicate SameButUsed(k: AuthCode, l: AuthCode) {
    l == k.(usedAt := l.usedAt)
  }

  /** Rows are never deleted, and what binds them to each other never changes. */
  ghost predicate Grows(s: Store, t: Store) {
    && s.nextId <= t.nextId && s.consents.Keys <= t.consents.Keys
    && (forall r | r in s.requests :: r in t.requests && SameButConsumed(s.requests[r], t.requests[r]))
    && (forall k | k in s.codes :: k in t.codes && SameButUsed(s.codes[k], t.codes[k]))
    && (forall a | a in s.access ::
          a in t.access && t.access[a].jti == s.access[a].jti && t.access[a].clientId == s.access[a].clientId)
    && LedgerGrows(s.ledger, t.ledger)
  }

  /** The presented token has a row of this family. */
  ghost predicate RowOfFamily(l: Ledger, token: Opaque, id: Id) {
    id in l.families && Digest(token) in l.rows && l.rows[Digest(token)].familyId == id
  }

  /** The consent a transaction saves was read, and has a version. */
  predicate SavesRead(s: Store, read: ConsentProps, next: ConsentProps) {
    next.id == read.id && read.id in s.consents && next.version >= 2
  }

  /** The rows a transaction writes are there and bound as when they were read, and were open then. */
  ghost predicate Anchored(s: Store, p: Pending) {
    match p
    case ConsentSave(_, read, next, _) => SavesRead(s, read, next) && next.status != REVOKED
    case ConsentRevocation(_, read, next) => SavesRead(s, read, next) && next.status == REVOKED
    case Grant(_, read, next, requestId, request) =>
      && SavesRead(s, read, next) && next.status == AUTHORIZED && requestId in s.requests
      && SameButConsumed(request, s.requests[requestId]) && request.consumedAt == None
    case Exchange(cmd, code, read, next) =>
      && cmd.ExchangeCode? && Digest(cmd.code) in s.codes && SameButUsed(code, s.codes[Digest(cmd.code)]) && code.usedAt == None
      && code.consentId == read.id && SavesRead(s, read, next) && next.status == ACTIVE
    case Rotation(cmd, id, family, _) =>
      && cmd.RefreshTokens? && RowOfFamily(s.ledger, cmd.refreshToken, id) && Digest(cmd.refreshToken) == family.currentTokenHash
      && !IsFamilyRevoked(family)
      && s.ledger.families[id].consentId == family.consentId && s.ledger.families[id].clientId == family.clientId
    case Reuse(cmd, id, family) => cmd.RefreshTokens? && RowOfFamily(s.ledger, cmd.refreshToken, id)
    case FamilyRevocation(cmd, id, family) =>
      && cmd.RevokeToken? && cmd.presented.OpaqueToken? && RowOfFamily(s.ledger, cmd.presented.token, id)
      && s.ledger.families[id].clientId == family.clientId
    case AccessRevocation(cmd, id, token) =>
      id in s.access && s.access[id].jti == token.jti && s.access[id].clientId == token.clientId
    case Creation(cmd) => IsCreation(cmd)
  }

  ghost predicate ProcOk(s: Store, proc: Proc) {
    match proc
    case Started(_) => true
    case ConsentRead(cmd, consent) =>
      cmd.AuthorizeConsent? && consent.id == cmd.consentId && consent.id in s.consents && consent.version >= 2
    case CodeRead(cmd, code) =>
      cmd.ExchangeCode? && Digest(cmd.code) in s.codes && SameButUsed(code, s.codes[Digest(cmd.code)])
    case FamilyRead(cmd, id, family) =>
      && cmd.RefreshTokens? && RowOfFamily(s.ledger, cmd.refreshToken, id)
      && s.ledger.families[id].consentId == family.consentId && s.ledger.families[id].clientId == family.clientId
    case Expiring(rest, _) => forall i | 0 <= i < |rest| :: rest[i].id in s.consents && rest[i].version >= 2
    case Ready(p, _) => Anchored(s, p)
  }

  ghost predicate ProcsOk(s: Store, procs: map<nat, Proc>) {
    forall h | h in procs :: ProcOk(s, procs[h])
  }

  /** Every token answered with new ones has a used row. */
  ghost predicate AcceptedOk(l: Ledger, accepted: seq<Opaque>) {
    forall i | 0 <= i < |accepted| :: Digest(accepted[i]) in l.rows && l.rows[Digest(accepted[i])].usedAt.Some?
  }

  ghost predicate RaceInv(s: Sys) {
    StoreOk(s.store) && ProcsOk(s.store, s.procs) && AcceptedOk(s.store.ledger, s.accepted)
  }

  lemma StartInv()
    ensures RaceInv(START)
  {
  }

  // ---------------------------------------------------------------- what a transaction keeps

  ghost predicate CommitOk(s: Store, t: Store) {
    StoreOk(t) && Grows(s, t)
  }

  lemma GrowsKeepsAnchor(s: Store, t: Store, p: Pending)
    requires Grows(s, t) && Anchored(s, p)
    ensures Anchored(t, p)
  {
  }

  lemma GrowsKeepsProc(s: Store, t: Store, proc: Proc)
    requires Grows(s, t) && ProcOk(s, proc)
    ensures ProcOk(t, proc)
  {
    hide Anchored;
    if proc.Ready? { GrowsKeepsAnchor(s, t, proc.pending); }
  }

  lemma SaveIsOk(s: Store, next: ConsentProps, eventType: EventType, now: int)
    requires StoreOk(s) && next.id < s.nextId && next.version >= 2
    ensures CommitOk(s, SaveAndEmit(s, next, eventType, now))
  {
    hide OwnedRow, CurrentRow;
  }

  /** The weak ledger under its three updates. */
  lemma RotateRows(l: Ledger, next: Id, id: Id, hash: Digest<Opaque>, generation: int, expiresAt: int, now: int, later: Id)
    requires WeakLedger(l, next) && id in l.families && next <= hash.preimage.first < later
    ensures hash !in l.rows
    ensures var m := Rotate(l, id, hash, generation, expiresAt, now);
            && (forall h | h in m.rows :: h.preimage.first < later && OwnedRow(m, h))
            && (forall h | h in l.rows && l.rows[h].familyId == id :: h in m.rows && m.rows[h].usedAt.Some?)
  {
    var m := Rotate(l, id, hash, generation, expiresAt, now);
    assert hash !in l.rows;
    assert CurrentRow(l, id);
    forall h | h in m.rows ensures h.preimage.first < later && OwnedRow(m, h) {
      if h != hash { assert OwnedRow(l, h); }
    }
    forall h | h in l.rows && l.rows[h].familyId == id ensures m.rows[h].usedAt.Some? { assert OwnedRow(l, h); }
  }

  lemma RotateFamilies(l: Ledger, next: Id, id: Id, hash: Digest<Opaque>, generation: int, expiresAt: int, now: int, later: Id)
    requires WeakLedger(l, next) && id in l.families && next < later && hash !in l.rows
    ensures var m := Rotate(l, id, hash, generation, expiresAt, now);
            (forall j | j in m.families :: j < later && CurrentRow(m, j)) && LedgerGrows(l, m)
  {
    hide OwnedRow;
    var m := Rotate(l, id, hash, generation, expiresAt, now);
    forall j | j in m.families ensures j < later && CurrentRow(m, j) {
      assert CurrentRow(l, j);
    }
  }

  lemma RotateIsOk(l: Ledger, next: Id, id: Id, hash: Digest<Opaque>, generation: int, expiresAt: int, now: int, later: Id)
    requires WeakLedger(l, next) && id in l.families && next <= hash.preimage.first < later
    ensures hash !in l.rows
    ensures var m := Rotate(l, id, hash, generation, expiresAt, now);
            && WeakLedger(m, later) && LedgerGrows(l, m)
            && forall h | h in l.rows && l.rows[h].familyId == id :: h in m.rows && m.rows[h].usedAt.Some?
  {
    hide Rotate, OwnedRow, CurrentRow, LedgerGrows;
    RotateRows(l, next, id, hash, generation, expiresAt, now, later);
    RotateFamilies(l, next, id, hash, generation, expiresAt, now, later);
  }

  lemma SaveFamilyIsOk(l: Ledger, next: Id, id: Id, f: Family, later: Id)
    requires WeakLedger(l, next) && next <= id < later && next <= f.currentTokenHash.preimage.first < later
    ensures WeakLedger(SaveFamily(l, id, f), later) && LedgerGrows(l, SaveFamily(l, id, f))
  {
    var m := SaveFamily(l, id, f);
    assert f.currentTokenHash !in l.rows && id !in l.families;
    forall h | h in m.rows ensures h.preimage.first < later && OwnedRow(m, h) {
      if h != f.currentTokenHash { assert OwnedRow(l, h); }
    }
    forall j | j in m.families ensures j < later && CurrentRow(m, j) {
      if j != id { assert CurrentRow(l, j); }
    }
  }

  /** Only revocation columns change. */
  ghost predicate OnlyRevokes(l: Ledger, m: Ledger) {
    && m.rows == l.rows && m.families.Keys == l.families.Keys
    && forall id | id in l.families ::
         m.families[id] == l.families[id].(revokedAt := m.families[id].revokedAt, reuseDetectedAt := m.families[id].reuseDetectedAt)
  }

  lemma RevokesIsOk(l: Ledger, m: Ledger, next: Id, later: Id)
    requires WeakLedger(l, next) && OnlyRevokes(l, m) && next <= later
    ensures WeakLedger(m, later) && LedgerGrows(l, m)
  {
    forall h | h in m.rows ensures h.preimage.first < later && OwnedRow(m, h) { assert OwnedRow(l, h); }
    forall j | j in m.families ensures j < later && CurrentRow(m, j) { assert CurrentRow(l, j); }
  }

  lemma SameLedgerIsOk(l: Ledger, next: Id, later: Id)
    requires WeakLedger(l, next) && next <= later
    ensures WeakLedger(l, later) && LedgerGrows(l, l)
  {
    hide OwnedRow, CurrentRow;
  }
}
