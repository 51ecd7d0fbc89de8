/**
 What survives every interleaving of the OAuth use cases, and exactly when a transaction undoes
 a revocation, overwrites a terminal consent or leaves a gap in the event versions.
 */
module IdentityRaceTheorems {
  import opened Basics
  import opened ScopeSets
  import opened ConsentMachine
  import opened IdentityStore
  import opened IdentityUseCases
  import opened RefreshLedger
  import opened IdentityInvariants
  import opened IdentityRuns
  import opened IdentityRaces

  // ---------------------------------------------------------------- every transaction keeps the tables bound

  lemma BulkOnlyRevokes(l: Ledger, consentId: Id, now: int)
    ensures OnlyRevokes(l, RevokeFamiliesForConsent(l, consentId, now))
  {
  }

  lemma RevocationIsOk(s: Store, next: ConsentProps, now: int)
    requires StoreOk(s) && next.id < s.nextId && next.version >= 2
    ensures CommitOk(s, RevokeEverything(s, next, now))
  {
    hide OnlyRevokes, WeakLedger, LedgerGrows, RevokeFamiliesForConsent;
    BulkOnlyRevokes(s.ledger, next.id, now);
    RevokesIsOk(s.ledger, RevokeFamiliesForConsent(s.ledger, next.id, now), s.nextId, s.nextId + 1);
  }

  lemma GrantIsOk(s: Store, next: ConsentProps, requestId: Id, now: int)
    requires StoreOk(s) && next.id < s.nextId && next.version >= 2 && requestId in s.requests
    ensures CommitOk(s, IssueCode(s, next, requestId, now))
  {
    hide OwnedRow, CurrentRow;
    SameLedgerIsOk(s.ledger, s.nextId, s.nextId + 2);
  }

  lemma ExchangeIsOk(env: Env, s: Store, next: ConsentProps, code: Id, clientUuid: string, now: int)
    requires StoreOk(s) && next.id < s.nextId && next.version >= 2 && Digest(code) in s.codes
    ensures CommitOk(s, IssueTokens(env, s, next, code, clientUuid, now))
  {
    hide OwnedRow, CurrentRow, WeakLedger, LedgerGrows, SaveFamily, IssueTokens;
    var n, k := s.nextId, s.codes[Digest(code)];
    IssueTokensTables(env, s, next, code, clientUuid, now);
    SameLedgerIsOk(s.ledger, n, n + 7);
    SaveFamilyIsOk(s.ledger, n, n + 3,
                   Family(clientUuid, k.userId, next.id, Digest(Opaque(n, n + 1)), k.scopes, now + REFRESH_TOKEN_TTL_MS, None, None,
                          1, now), n + 7);
  }

  lemma RotationIsOk(env: Env, s: Store, id: Id, generation: int, clientUuid: string, now: int)
    requires StoreOk(s) && id in s.ledger.families
    ensures CommitOk(s, RotateFrom(env, s, id, generation, clientUuid, now))
    ensures forall h | h in s.ledger.rows && s.ledger.rows[h].familyId == id ::
              h in RotateFrom(env, s, id, generation, clientUuid, now).ledger.rows
              && RotateFrom(env, s, id, generation, clientUuid, now).ledger.rows[h].usedAt.Some?
  {
    hide OwnedRow, CurrentRow, WeakLedger, Rotate;
    var n := s.nextId;
    RotateIsOk(s.ledger, n, id, Digest(Opaque(n, n + 1)), generation + 1, now + REFRESH_TOKEN_TTL_MS, now, n + 5);
  }

  lemma OneOnlyRevokes(l: Ledger, id: Id, now: int)
    requires id in l.families
    ensures OnlyRevokes(l, RevokeFamily(l, id, now)) && OnlyRevokes(l, RevokeFamily(MarkReuseDetected(l, id, now), id, now))
  {
  }

  lemma FamilyRevocationIsOk(s: Store, id: Id, now: int)
    requires StoreOk(s) && id in s.ledger.families
    ensures CommitOk(s, RevokeFamilyOnRequest(s, id, now))
  {
    hide WeakLedger, LedgerGrows, OnlyRevokes, RevokeFamily;
    OneOnlyRevokes(s.ledger, id, now);
    RevokesIsOk(s.ledger, RevokeFamily(s.ledger, id, now), s.nextId, s.nextId + 1);
  }

  lemma ReuseIsOk(s: Store, id: Id, now: int)
    requires StoreOk(s) && id in s.ledger.families
    ensures CommitOk(s, HandleReuse(s, id, now))
  {
    hide WeakLedger, LedgerGrows, OnlyRevokes, RevokeFamily;
    OneOnlyRevokes(s.ledger, id, now);
    RevokesIsOk(s.ledger, RevokeFamily(MarkReuseDetected(s.ledger, id, now), id, now), s.nextId, s.nextId + 2);
  }

  lemma AccessRevocationIsOk(s: Store, id: Id, now: int)
    requires StoreOk(s) && id in s.access
    ensures CommitOk(s, RevokeAccessOnRequest(s, id, now))
  {
    hide WeakLedger, LedgerGrows;
    SameLedgerIsOk(s.ledger, s.nextId, s.nextId + 1);
  }

  /** Creation takes new ids and touches nothing that is stored. */
  ghost predicate Adds(s: Store, t: Store) {
    && t.ledger == s.ledger && t.access == s.access && t.codes == s.codes && s.nextId !in s.consents
    && s.consents.Keys <= t.consents.Keys && Keyed(t) && s.nextId <= t.nextId
    && (forall c | c in s.consents :: t.consents[c] == s.consents[c])
    && (forall r | r in s.requests :: r in t.requests && t.requests[r] == s.requests[r])
    && (forall r | r in t.requests && r !in s.requests :: t.requests[r].consumedAt == None)
  }

  lemma SaveNewAdds(s: Store, c: ConsentProps, count: nat, eventType: EventType, now: int)
    requires Keyed(s) && c.id == s.nextId && c.version == 2 && count >= 1
    ensures Adds(s, SaveAndEmit(Take(s, count), c, eventType, now))
  {
  }

  lemma CreationAdds(env: Env, s: Store, cmd: Command, now: int)
    requires Keyed(s) && IsCreation(cmd)
    ensures Adds(s, Execute(env, s, cmd, now).store)
  {
    hide FromString, RequestCheck, SaveAndEmit, Keyed, Adds;
    UnchangedAdds(s);
    var t := Execute(env, s, cmd, now).store;
    if cmd.CreateConsent? {
      if FromString(cmd.scopeText).Some? {
        var draft := Created(s.nextId, cmd.userId, cmd.clientUuid, cmd.institutionId, FromString(cmd.scopeText).value, cmd.purpose,
                             cmd.expiresAt, now);
        SaveNewAdds(s, Submitted(draft, now).value, 1, ConsentCreatedEvent, now);
      }
    } else if RequestCheck(env, cmd).None? {
      RequestCheckPasses(env, cmd);
      var draft := Created(s.nextId, cmd.userId, env.clients[cmd.clientId].id, cmd.institutionId, FromString(cmd.scopeText).value,
                           cmd.purpose, now + DEFAULT_CONSENT_TTL_MS, now);
      SaveNewAdds(s, Submitted(draft, now).value, 2, ConsentCreatedEvent, now);
      var saved := SaveAndEmit(Take(s, 2), Submitted(draft, now).value, ConsentCreatedEvent, now);
      CountedSave(s, Submitted(draft, now).value, 2, ConsentCreatedEvent, now);
      RequestAdds(s, saved, s.nextId + 1, t.requests[s.nextId + 1]);
    }
  }

  lemma UnchangedAdds(s: Store)
    requires Keyed(s)
    ensures Adds(s, s)
  {
  }

  lemma CountedSave(s: Store, c: ConsentProps, count: nat, eventType: EventType, now: int)
    ensures SaveAndEmit(Take(s, count), c, eventType, now).nextId == s.nextId + count + 1
  {
  }

  lemma RequestAdds(s: Store, t: Store, id: Id, q: AuthRequest)
    requires Keyed(s) && Adds(s, t) && s.nextId <= id < t.nextId && q.consumedAt == None
    ensures Adds(s, SaveAuthorizationRequest(t, id, q))
  {
  }

  lemma CreationIsOk(env: Env, s: Store, cmd: Command, now: int)
    requires StoreOk(s) && IsCreation(cmd)
    ensures CommitOk(s, Execute(env, s, cmd, now).store)
  {
    hide WeakLedger, LedgerGrows, Execute;
    CreationAdds(env, s, cmd, now);
    SameLedgerIsOk(s.ledger, s.nextId, Execute(env, s, cmd, now).store.nextId);
  }

  lemma CommitIsOk(env: Env, s: Store, p: Pending, now: int)
    requires StoreOk(s) && Anchored(s, p)
    ensures CommitOk(s, Commit(env, s, p, now))
  {
    hide WeakLedger, CommitOk;
    UnchangedIsOk(s);
    match p {
      case ConsentSave(_, _, next, eventType) => SaveIsOk(s, next, eventType, now);
      case ConsentRevocation(_, _, next) => RevocationIsOk(s, next, now);
      case Grant(_, _, next, requestId, _) => GrantIsOk(s, next, requestId, now);
      case Exchange(cmd, code, _, next) => ExchangeIsOk(env, s, next, cmd.code, code.clientId, now);
      case Rotation(_, id, family, _) => RotationIsOk(env, s, id, family.generation, family.clientId, now);
      case Reuse(_, id, _) => ReuseIsOk(s, id, now);
      case FamilyRevocation(_, id, _) => FamilyRevocationIsOk(s, id, now);
      case AccessRevocation(_, id, _) => AccessRevocationIsOk(s, id, now);
      case Creation(cmd) => CreationIsOk(env, s, cmd, now);
    }
  }

  lemma UnchangedIsOk(s: Store)
    requires StoreOk(s)
    ensures CommitOk(s, s)
  {
    SameLedgerIsOk(s.ledger, s.nextId, s.nextId);
  }

  // ---------------------------------------------------------------- every step keeps the handlers bound

  lemma {:induction false} LoadedStored(consents: Consents, next: Id, candidates: seq<Id>)
    requires forall c | c in consents :: consents[c].id == c && consents[c].version >= 2
    ensures forall i | 0 <= i < |Loaded(consents, candidates)| ::
              Loaded(consents, candidates)[i].id in consents && Loaded(consents, candidates)[i].version >= 2
  {
    if candidates != [] { LoadedStored(consents, next, candidates[1..]); }
  }

  /** In every interleaving the two-stage lookup finds the owner of the row. */
  lemma WeakLookup(l: Ledger, next: Id, hash: Digest<Opaque>)
    requires WeakLedger(l, next)
    ensures FindFamilyByHash(l, hash) == OwnerOf(l, hash)
    ensures OwnerOf(l, hash).Some? ==> OwnerOf(l, hash).value in l.families
  {
    if id :| IsCurrent(l, id, hash) {
      forall j | IsCurrent(l, j, hash) ensures j == l.rows[hash].familyId { assert CurrentRow(l, j); }
    } else if hash in l.rows {
      assert OwnedRow(l, hash);
    }
  }

  lemma TokenRevocationAnchored(env: Env, s: Store, cmd: Command)
    requires StoreOk(s) && cmd.RevokeToken? && TokenRevocationOf(env, s, cmd).Some?
    ensures Anchored(s, TokenRevocationOf(env, s, cmd).value)
  {
    hide WeakLedger, Keyed;
    if cmd.presented.OpaqueToken? { WeakLookup(s.ledger, s.nextId, Digest(cmd.presented.token)); }
  }

  lemma FirstReadKeeps(env: Env, s: Sys, h: nat, cmd: Command, now: int)
    requires RaceInv(s) && h in s.procs
    ensures RaceInv(FirstRead(env, s, h, cmd, now))
  {
    hide WeakLedger, AcceptedOk, TokenRevocationOf, FindFamilyByHash;
    var store := s.store;
    if cmd.RefreshTokens? { WeakLookup(store.ledger, store.nextId, Digest(cmd.refreshToken)); }
    if cmd.RevokeToken? && TokenRevocationOf(env, store, cmd).Some? { TokenRevocationAnchored(env, store, cmd); }
    if cmd.ExpireConsents? { LoadedStored(store.consents, store.nextId, cmd.candidates); }
  }

  lemma RotationAnchored(env: Env, s: Store, cmd: Command, id: Id, family: Family, now: int)
    requires StoreOk(s) && ProcOk(s, FamilyRead(cmd, id, family)) && RotationOf(env, cmd, id, family, s.consents, now).Some?
    ensures Anchored(s, RotationOf(env, cmd, id, family, s.consents, now).value)
  {
    hide WeakLedger, Keyed, AuthenticatedClient;
  }

  lemma GrantAnchored(s: Store, cmd: Command, row: ConsentProps, requestId: Id, now: int)
    requires cmd.AuthorizeConsent? && row.id in s.consents && row.version >= 2 && IsOpenRequest(s, requestId, row.id)
    requires GrantOf(cmd, row, requestId, s.requests[requestId], now).Some?
    ensures Anchored(s, GrantOf(cmd, row, requestId, s.requests[requestId], now).value)
  {
    hide FromString;
  }

  lemma ExchangeAnchored(env: Env, s: Store, cmd: Command, code: AuthCode, now: int)
    requires Keyed(s) && ProcOk(s, CodeRead(cmd, code)) && code.consentId in s.consents
    requires ExchangeOf(env, cmd, code, s.consents[code.consentId], now).Some?
    ensures Anchored(s, ExchangeOf(env, cmd, code, s.consents[code.consentId], now).value)
  {
    hide AuthenticatedClient, VerifyPkce;
  }

  lemma SecondReadKeeps(env: Env, s: Sys, h: nat, now: int)
    requires RaceInv(s) && h in s.procs
    requires s.procs[h].ConsentRead? || s.procs[h].CodeRead? || s.procs[h].FamilyRead?
    ensures RaceInv(SecondRead(env, s, h, s.procs[h], now))
  {
    hide WeakLedger, AcceptedOk, Anchored, RotationOf, GrantOf, ExchangeOf;
    var proc := s.procs[h];
    var store := s.store;
    assert ProcOk(store, proc);
    if proc.FamilyRead? && RotationOf(env, proc.cmd, proc.familyId, proc.family, store.consents, now).Some? {
      RotationAnchored(env, store, proc.cmd, proc.familyId, proc.family, now);
    } else if proc.CodeRead? && proc.code.consentId in store.consents {
      if ExchangeOf(env, proc.cmd, proc.code, store.consents[proc.code.consentId], now).Some? {
        ExchangeAnchored(env, store, proc.cmd, proc.code, now);
      }
    } else if proc.ConsentRead? {
      var r := FindOpenRequest(store, proc.consent.id);
      if r.Some? && GrantOf(proc.cmd, proc.consent, r.value, store.requests[r.value], now).Some? {
        GrantAnchored(store, proc.cmd, proc.consent, r.value, now);
      }
    }
  }

  lemma CommittedKeeps(env: Env, s: Sys, p: Pending, at: int)
    requires RaceInv(s) && Anchored(s.store, p)
    ensures RaceInv(Committed(env, s, p, at)) && Grows(s.store, Committed(env, s, p, at).store)
  {
    hide StoreOk, ProcOk, Commit;
    var t := Commit(env, s.store, p, at);
    CommitIsOk(env, s.store, p, at);
    forall h | h in s.procs ensures ProcOk(t, s.procs[h]) { GrowsKeepsProc(s.store, t, s.procs[h]); }
    if p.Rotation? { RotationUses(env, s.store, p, at); }
  }

  /** Whatever row is current by then, the presented token's row is used after the rotation. */
  lemma RotationUses(env: Env, s: Store, p: Pending, at: int)
    requires StoreOk(s) && Anchored(s, p) && p.Rotation?
    ensures var l := Commit(env, s, p, at).ledger;
            Digest(p.cmd.refreshToken) in l.rows && l.rows[Digest(p.cmd.refreshToken)].usedAt.Some?
  {
    hide StoreOk, RotateFrom;
    RotationIsOk(env, s, p.familyId, p.family.generation, p.family.clientId, at);
  }

  lemma ExpiryAnchored(s: Store, row: ConsentProps, at: int)
    requires row.id in s.consents && row.version >= 2 && ExpiryOf(row, at).Some?
    ensures Anchored(s, ExpiryOf(row, at).value)
  {
  }

  lemma AdvanceKeeps(env: Env, s: Sys, a: Action)
    requires RaceInv(s)
    ensures RaceInv(Advance(env, s, a))
  {
    hide StoreOk, AcceptedOk, Anchored, FirstRead, SecondRead, ExpiryOf, Committed;
    if a.Move? && a.h in s.procs {
      var proc := s.procs[a.h];
      assert ProcOk(s.store, proc);
      match proc {
        case Started(cmd) => FirstReadKeeps(env, s, a.h, cmd, a.now);
        case Ready(p, at) => CommittedKeeps(env, s, p, at);
        case Expiring(rest, at) =>
          if rest != [] && ExpiryOf(rest[0], at).Some? {
            ExpiryAnchored(s.store, rest[0], at);
            CommittedKeeps(env, s, ExpiryOf(rest[0], at).value, at);
            RestStored(s.store, Committed(env, s, ExpiryOf(rest[0], at).value, at).store, rest, at);
          }
        case _ => SecondReadKeeps(env, s, a.h, a.now);
      }
    }
  }

  lemma RestStored(s: Store, t: Store, rest: seq<ConsentProps>, at: int)
    requires Grows(s, t) && rest != [] && ProcOk(s, Expiring(rest, at))
    ensures ProcOk(t, Expiring(rest[1..], at))
  {
  }

  lemma {:induction false} InterleavedInv(env: Env, schedule: seq<Action>)
    ensures RaceInv(After(env, START, schedule))
    decreases |schedule|
  {
    hide RaceInv, Advance;
    if schedule == [] {
      StartInv();
    } else {
      InterleavedInv(env, schedule[..|schedule| - 1]);
      AdvanceKeeps(env, After(env, START, schedule[..|schedule| - 1]), schedule[|schedule| - 1]);
    }
  }

  lemma NoCommitNoChange(env: Env, s: Sys, a: Action)
    requires CommitsAt(s, a).None?
    ensures Advance(env, s, a).store == s.store
  {
    hide ExpiryOf, RotationOf, ExchangeOf, GrantOf, TokenRevocationOf, ActivationOf, RevocationOf, FindFamilyByHash,
         FindOpenRequest, Loaded, Commit;
  }

  lemma CommitChanges(env: Env, s: Sys, a: Action)
    requires CommitsAt(s, a).Some?
    ensures Advance(env, s, a).store == Commit(env, s.store, CommitsAt(s, a).value.0, CommitsAt(s, a).value.1)
  {
    hide ExpiryOf, Commit;
  }

  // ---------------------------------------------------------------- revoked consents

  /** The consent is revoked together with everything issued under it. */
  ghost predicate RevokedWithAll(s: Store, c: Id) {
    && c in s.consents && s.consents[c].status == REVOKED
    && (forall id | id in s.ledger.families && s.ledger.families[id].consentId == c :: IsFamilyRevoked(s.ledger.families[id]))
    && (forall id | id in s.access && s.access[id].consentId == c :: s.access[id].revokedAt.Some?)
  }

  /** The consent a transaction saves as not revoked, or issues tokens under. */
  function WorksUnder(p: Pending): Option<Id> {
    match p
    case ConsentSave(_, _, next, _) => Some(next.id)
    case Grant(_, _, next, _, _) => Some(next.id)
    case Exchange(_, _, _, next) => Some(next.id)
    case Rotation(_, _, family, _) => Some(family.consentId)
    case _ => None
  }

  /** Of a consent the transaction does not work under, nothing is undone. */
  ghost predicate Leaves(s: Store, t: Store, c: Id) {
    && (c in s.consents && s.consents[c].status == REVOKED ==> c in t.consents && t.consents[c].status == REVOKED)
    && (forall id | id in t.ledger.families && t.ledger.families[id].consentId == c ::
          id in s.ledger.families && s.ledger.families[id].consentId == c
          && (IsFamilyRevoked(s.ledger.families[id]) ==> IsFamilyRevoked(t.ledger.families[id])))
    && (forall id | id in t.access && t.access[id].consentId == c ::
          id in s.access && s.access[id].consentId == c && (s.access[id].revokedAt.Some? ==> t.access[id].revokedAt.Some?))
  }

  lemma SaveLeaves(s: Store, next: ConsentProps, eventType: EventType, now: int, c: Id)
    requires c != next.id
    ensures Leaves(s, SaveAndEmit(s, next, eventType, now), c)
  {
  }

  lemma RevocationLeaves(s: Store, next: ConsentProps, now: int, c: Id)
    requires next.status == REVOKED
    ensures Leaves(s, RevokeEverything(s, next, now), c)
  {
  }

  lemma GrantLeaves(s: Store, next: ConsentProps, requestId: Id, now: int, c: Id)
    requires c != next.id && requestId in s.requests
    ensures Leaves(s, IssueCode(s, next, requestId, now), c)
  {
  }

  lemma ExchangeLeaves(env: Env, s: Store, next: ConsentProps, code: Id, clientUuid: string, now: int, c: Id)
    requires c != next.id && Digest(code) in s.codes
    ensures Leaves(s, IssueTokens(env, s, next, code, clientUuid, now), c)
  {
    hide IssueTokens;
    IssueTokensTables(env, s, next, code, clientUuid, now);
  }

  lemma RotationLeaves(env: Env, s: Store, id: Id, generation: int, clientUuid: string, now: int, c: Id)
    requires id in s.ledger.families && c != s.ledger.families[id].consentId
    ensures Leaves(s, RotateFrom(env, s, id, generation, clientUuid, now), c)
  {
  }

  lemma FamilyRevocationLeaves(s: Store, id: Id, now: int, c: Id)
    requires id in s.ledger.families
    ensures Leaves(s, HandleReuse(s, id, now), c) && Leaves(s, RevokeFamilyOnRequest(s, id, now), c)
  {
  }

  lemma AccessRevocationLeaves(s: Store, id: Id, now: int, c: Id)
    requires id in s.access
    ensures Leaves(s, RevokeAccessOnRequest(s, id, now), c)
  {
  }

  lemma AddsLeaves(s: Store, t: Store, c: Id)
    requires Adds(s, t)
    ensures Leaves(s, t, c)
  {
    hide Keyed;
  }

  lemma OthersLeft(env: Env, s: Store, p: Pending, now: int, c: Id)
    requires StoreOk(s) && Anchored(s, p) && WorksUnder(p) != Some(c)
    ensures Leaves(s, Commit(env, s, p, now), c)
  {
    hide Leaves, WeakLedger, Adds, Execute;
    match p {
      case ConsentSave(_, _, next, eventType) => SaveLeaves(s, next, eventType, now, c);
      case ConsentRevocation(_, _, next) => RevocationLeaves(s, next, now, c);
      case Grant(_, _, next, requestId, _) => GrantLeaves(s, next, requestId, now, c);
      case Exchange(cmd, code, _, next) => ExchangeLeaves(env, s, next, cmd.code, code.clientId, now, c);
      case Rotation(_, id, family, _) => RotationLeaves(env, s, id, family.generation, family.clientId, now, c);
      case Reuse(_, id, _) => FamilyRevocationLeaves(s, id, now, c);
      case FamilyRevocation(_, id, _) => FamilyRevocationLeaves(s, id, now, c);
      case AccessRevocation(_, id, _) => AccessRevocationLeaves(s, id, now, c);
      case Creation(cmd) => CreationAdds(env, s, cmd, now); AddsLeaves(s, Commit(env, s, p, now), c);
    }
  }

  /** After the transaction the consent it works under has another status, or a live token stands under it. */
  lemma OwnUndone(env: Env, s: Store, p: Pending, now: int)
    requires Anchored(s, p) && WorksUnder(p).Some?
    ensures !RevokedWithAll(Commit(env, s, p, now), WorksUnder(p).value)
  {
    hide IssueTokens, Rotate, StoreOk;
    var t := Commit(env, s, p, now);
    match p {
      case Exchange(cmd, code, _, next) => IssueTokensTables(env, s, next, cmd.code, code.clientId, now);
      case Rotation(_, id, family, _) =>
        assert s.nextId + 2 in t.access && t.access[s.nextId + 2].consentId == family.consentId;
        assert t.access[s.nextId + 2].revokedAt == None;
      case _ =>
    }
  }

  /**
   Over every interleaving: a transaction keeps every revoked consent revoked with everything
   under it, exactly when the consent it works under is not such a one. This can be read off
   the stored rows before the commit, and nothing in the code reads it.
   */
  lemma RevokedConsentsKeptExactly(env: Env, schedule: seq<Action>, a: Action)
    requires CommitsAt(After(env, START, schedule), a).Some?
    ensures var s := After(env, START, schedule).store; var t := Advance(env, After(env, START, schedule), a).store;
            var under := WorksUnder(CommitsAt(After(env, START, schedule), a).value.0);
            (forall c: Id | RevokedWithAll(s, c) :: RevokedWithAll(t, c)) <==> (under.Some? ==> !RevokedWithAll(s, under.value))
  {
    hide After, Commit, StoreOk, Anchored, ExpiryOf, AcceptedOk, WorksUnder, RevokedWithAll;
    InterleavedInv(env, schedule);
    var sys := After(env, START, schedule);
    var (p, at) := CommitsAt(sys, a).value;
    CommitIsAnchored(sys, a);
    var s, t := sys.store, Commit(env, sys.store, p, at);
    assert Advance(env, sys, a).store == t;
    forall c: Id | RevokedWithAll(s, c) && WorksUnder(p) != Some(c) ensures RevokedWithAll(t, c) {
      OthersLeft(env, s, p, at, c);
      LeftStaysRevoked(s, t, c);
    }
    if WorksUnder(p).Some? { OwnUndone(env, s, p, at); }
  }

  lemma LeftStaysRevoked(s: Store, t: Store, c: Id)
    requires Leaves(s, t, c) && RevokedWithAll(s, c)
    ensures RevokedWithAll(t, c)
  {
  }

  /** A transaction about to commit is bound to stored rows. */
  lemma CommitIsAnchored(s: Sys, a: Action)
    requires RaceInv(s) && CommitsAt(s, a).Some?
    ensures StoreOk(s.store) && Anchored(s.store, CommitsAt(s, a).value.0)
  {
    hide StoreOk, AcceptedOk, Anchored, ExpiryOf;
    assert ProcOk(s.store, s.procs[a.h]);
    if s.procs[a.h].Expiring? { ExpiryAnchored(s.store, s.procs[a.h].rest[0], s.procs[a.h].at); }
  }

  /** In a store that satisfies the table invariants, revoked with all is revoked: the status alone decides. */
  lemma RevokedConsentsKeptByStatus(env: Env, s: Store, p: Pending, now: int)
    requires Inv(env, s) && StoreOk(s) && Anchored(s, p)
    ensures WorksUnder(p).Some? ==> WorksUnder(p).value in s.consents
    ensures var t := Commit(env, s, p, now);
            (forall c: Id | RevokedWithAll(s, c) :: RevokedWithAll(t, c))
            <==> (WorksUnder(p).Some? ==> s.consents[WorksUnder(p).value].status != REVOKED)
  {
    hide Commit, StoreOk, RevokedWithAll, Inv;
    if WorksUnder(p).Some? { UnderIsStored(env, s, p); }
    var t := Commit(env, s, p, now);
    forall c: Id | RevokedWithAll(s, c) && WorksUnder(p) != Some(c) ensures RevokedWithAll(t, c) {
      OthersLeft(env, s, p, now, c);
      LeftStaysRevoked(s, t, c);
    }
    if WorksUnder(p).Some? {
      OwnUndone(env, s, p, now);
      RevokedIsWithAll(env, s, WorksUnder(p).value);
    }
  }

  lemma UnderIsStored(env: Env, s: Store, p: Pending)
    requires Inv(env, s) && Anchored(s, p) && WorksUnder(p).Some?
    ensures WorksUnder(p).value in s.consents
  {
    hide ConsentsInv, RequestsInv, CodesInv, FamiliesInv, AccessInv, LedgerInv, VersionsInv;
    if p.Rotation? { FamilyFacts(s.ledger.families, s.codes, s.consents, p.familyId); }
  }

  lemma RevokedIsWithAll(env: Env, s: Store, c: Id)
    requires Inv(env, s)
    ensures RevokedWithAll(s, c) <==> c in s.consents && s.consents[c].status == REVOKED
  {
    hide ConsentsInv, RequestsInv, CodesInv, FamiliesInv, AccessInv, LedgerInv, VersionsInv;
    forall id | id in s.ledger.families && s.ledger.families[id].consentId == c && c in s.consents && s.consents[c].status == REVOKED
      ensures IsFamilyRevoked(s.ledger.families[id])
    {
      FamilyFacts(s.ledger.families, s.codes, s.consents, id);
    }
    forall id | id in s.access && s.access[id].consentId == c && c in s.consents && s.consents[c].status == REVOKED
      ensures s.access[id].revokedAt.Some?
    {
      AccessFacts(s.access, s.codes, s.consents, s.nextId, id);
    }
  }

  /** Any transaction that works under a consent undoes a revocation of it that commits first. */
  lemma RevocationInBetweenIsUndone(env: Env, s: Store, revocation: Pending, p: Pending, at: int, now: int)
    requires StoreOk(s) && Anchored(s, revocation) && Anchored(s, p)
    requires revocation.ConsentRevocation? && WorksUnder(p) == Some(revocation.next.id)
    ensures var t := Commit(env, s, revocation, at);
            RevokedWithAll(t, revocation.next.id) && !RevokedWithAll(Commit(env, t, p, now), revocation.next.id)
  {
    hide StoreOk, Anchored;
    CommitIsOk(env, s, revocation, at);
    GrowsKeepsAnchor(s, Commit(env, s, revocation, at), p);
    OwnUndone(env, Commit(env, s, revocation, at), p, now);
    RevocationRevokesAll(env, s, revocation, at);
  }

  lemma RevocationRevokesAll(env: Env, s: Store, p: Pending, at: int)
    requires Anchored(s, p) && p.ConsentRevocation?
    ensures RevokedWithAll(Commit(env, s, p, at), p.next.id)
  {
  }

  lemma InvIsOk(env: Env, s: Store)
    requires Inv(env, s)
    ensures StoreOk(s)
  {
    hide RequestOk, CodeOk, AccessOk, FamiliesInv, VersionsInv, OneRowEach, AllGenerations;
    forall id | id in s.ledger.families ensures CurrentRow(s.ledger, id) { assert FamilyOk(s.ledger, id); }
    forall h | h in s.ledger.rows ensures OwnedRow(s.ledger, h) { assert RowOk(s.ledger, h); }
  }

  lemma EvolvesGrows(s: Store, t: Store)
    requires Evolves(s, t)
    ensures Grows(s, t)
  {
    hide ConsentEvolves;
  }

  /**
   In terms of two serial states: a transaction computed from `read` and applied to a later `s`
   keeps every revoked consent revoked with everything under it, exactly when the consent it
   works under is not REVOKED in `s`. It covers activation, expiry, authorization, exchange and
   refresh alike.
   */
  lemma StaleCommitKeepsRevokedExactly(env: Env, read: Store, s: Store, p: Pending, now: int)
    requires Inv(env, read) && Inv(env, s) && Evolves(read, s) && Anchored(read, p)
    ensures WorksUnder(p).Some? ==> WorksUnder(p).value in s.consents
    ensures var t := Commit(env, s, p, now);
            (forall c: Id | c in s.consents && s.consents[c].status == REVOKED :: RevokedWithAll(t, c))
            <==> (WorksUnder(p).Some? ==> s.consents[WorksUnder(p).value].status != REVOKED)
  {
    hide Commit, StoreOk, RevokedWithAll, Inv, Evolves, Anchored, Grows;
    InvIsOk(env, s);
    EvolvesGrows(read, s);
    GrowsKeepsAnchor(read, s, p);
    RevokedConsentsKeptByStatus(env, s, p, now);
    forall c: Id ensures RevokedWithAll(s, c) <==> c in s.consents && s.consents[c].status == REVOKED {
      RevokedIsWithAll(env, s, c);
    }
  }

  /**
   A rotation computed from an earlier read keeps all table invariants exactly when its family
   has not been rotated since and its consent has not been revoked since.
   */
  lemma RotationKeepsInvExactly(env: Env, s: Store, id: Id, generation: int, now: int)
    requires Inv(env, s) && id in s.ledger.families && 1 <= generation <= s.ledger.families[id].generation
    ensures s.ledger.families[id].consentId in s.consents
    ensures Inv(env, RotateFrom(env, s, id, generation, s.ledger.families[id].clientId, now))
            <==> generation == s.ledger.families[id].generation && s.consents[s.ledger.families[id].consentId].status != REVOKED
  {
    hide ConsentsInv, RequestsInv, CodesInv, FamiliesInv, AccessInv, LedgerInv, VersionsInv, Rotate;
    var family, n := s.ledger.families[id], s.nextId;
    var t := RotateFrom(env, s, id, generation, family.clientId, now);
    FamilyFacts(s.ledger.families, s.codes, s.consents, id);
    if generation == family.generation && s.consents[family.consentId].status != REVOKED {
      RotateFamilyKeeps(env, s, id, now);
    } else if generation != family.generation {
      RotationKeepsLedgerExactly(s.ledger, n, id, Digest(Opaque(n, n + 1)), generation, now + REFRESH_TOKEN_TTL_MS, now, t.nextId);
    } else if Inv(env, t) {
      assert n + 2 in t.access && t.access[n + 2].revokedAt == None && t.access[n + 2].consentId == family.consentId;
      AccessFacts(t.access, t.codes, t.consents, t.nextId, n + 2);
      assert false;
    }
  }

  // ---------------------------------------------------------------- terminal consents

  /** The consent a transaction overwrites, with what. */
  function Saves(p: Pending): Option<ConsentProps> {
    match p
    case ConsentSave(_, _, next, _) => Some(next)
    case ConsentRevocation(_, _, next) => Some(next)
    case Grant(_, _, next, _, _) => Some(next)
    case Exchange(_, _, _, next) => Some(next)
    case _ => None
  }

  lemma SavedConsents(env: Env, s: Store, p: Pending, now: int)
    requires StoreOk(s) && Anchored(s, p)
    ensures var t := Commit(env, s, p, now);
            && (Saves(p).Some? ==> t.consents == s.consents[Saves(p).value.id := Saves(p).value])
            && (Saves(p).None? ==> forall c | c in s.consents :: c in t.consents && t.consents[c] == s.consents[c])
  {
    hide IssueTokens, Rotate, WeakLedger, Execute;
    match p {
      case Exchange(cmd, code, _, next) => IssueTokensTables(env, s, next, cmd.code, code.clientId, now);
      case Creation(cmd) => CreationAdds(env, s, cmd, now);
      case _ =>
    }
  }

  ghost predicate TerminalKept(s: Store, t: Store) {
    forall c | c in s.consents && IsTerminalConsent(s.consents[c].status) :: c in t.consents && t.consents[c] == s.consents[c]
  }

  /**
   Over every interleaving: a transaction leaves terminal consents as they are, exactly when the
   consent it saves is not terminal by then, or is stored already as it is about to be saved.
   */
  lemma TerminalConsentsKeptExactly(env: Env, schedule: seq<Action>, a: Action)
    requires CommitsAt(After(env, START, schedule), a).Some?
    ensures var s := After(env, START, schedule).store; var t := Advance(env, After(env, START, schedule), a).store;
            var saved := Saves(CommitsAt(After(env, START, schedule), a).value.0);
            && (saved.Some? ==> saved.value.id in s.consents)
            && (TerminalKept(s, t) <==> (saved.Some? ==> !IsTerminalConsent(s.consents[saved.value.id].status)
                                                          || s.consents[saved.value.id] == saved.value))
  {
    hide After, Commit, StoreOk, ExpiryOf, AcceptedOk;
    InterleavedInv(env, schedule);
    var sys := After(env, START, schedule);
    var (p, at) := CommitsAt(sys, a).value;
    CommitIsAnchored(sys, a);
    SavedConsents(env, sys.store, p, at);
    assert Advance(env, sys, a).store == Commit(env, sys.store, p, at);
  }

  // ---------------------------------------------------------------- event versions of consents

  /** The outbox gets one event more, the consent the version of it: gaps appear unless the version fits. */
  lemma ConsentEventFitsExactly(outbox: seq<Event>, consents: Consents, d: ConsentProps, e: Event)
    requires VersionsInv(outbox, consents) && d.id in consents && consents[d.id].version >= 2 && d.version >= 2
    requires e.aggregate == ConsentAggregate && e.aggregateId == d.id && e.version == d.version
    ensures VersionsInv(outbox + [e], consents[d.id := d])
            <==> consents[d.id].version <= d.version <= consents[d.id].version + 1
  {
    var w := consents[d.id].version;
    VersionsAppend(outbox, e, ConsentAggregate, d.id);
    if w <= d.version <= w + 1 {
      ConsentEventKeepsVersions(outbox, consents, d, e);
    } else {
      var v := if d.version < w then w else w + 1;
      assert v in Versions(outbox + [e], ConsentAggregate, d.id) <==> v == w;
      assert !(v in Versions(outbox + [e], ConsentAggregate, d.id) <==> 2 <= v <= consents[d.id := d][d.id].version);
    }
  }

  lemma OtherEventKeepsVersionsExactly(outbox: seq<Event>, consents: Consents, e: Event)
    requires e.aggregate != ConsentAggregate
    ensures VersionsInv(outbox + [e], consents) <==> VersionsInv(outbox, consents)
  {
    forall c: Id ensures Versions(outbox + [e], ConsentAggregate, c) == Versions(outbox, ConsentAggregate, c) {
      VersionsAppend(outbox, e, ConsentAggregate, c);
    }
  }

  lemma CreationKeepsVersions(env: Env, s: Store, cmd: Command, now: int)
    requires Keyed(s) && IsCreation(cmd) && VersionsInv(s.outbox, s.consents)
    ensures var t := Execute(env, s, cmd, now).store; VersionsInv(t.outbox, t.consents)
  {
    hide FromString, RequestCheck, VersionsInv;
    var t := Execute(env, s, cmd, now).store;
    if t != s {
      var d, e := t.consents[s.nextId], t.outbox[|s.outbox|];
      ConsentEventKeepsVersions(s.outbox, s.consents, d, e);
    }
  }

  lemma TokenEventsKeepVersions(env: Env, s: Store, p: Pending, now: int)
    requires StoreOk(s) && Anchored(s, p) && VersionsInv(s.outbox, s.consents)
    requires p.Rotation? || p.Reuse? || p.FamilyRevocation? || p.AccessRevocation?
    ensures var t := Commit(env, s, p, now); VersionsInv(t.outbox, t.consents)
  {
    hide StoreOk, Rotate, VersionsInv, RevokeFamily, MarkReuseDetected;
    var t := Commit(env, s, p, now);
    var e := t.outbox[|s.outbox|];
    OtherEventKeepsVersionsExactly(s.outbox, s.consents, e);
    if p.Reuse? {
      var f := t.outbox[|s.outbox| + 1];
      OtherEventKeepsVersionsExactly(s.outbox + [e], s.consents, f);
      assert t.outbox == s.outbox + [e] + [f];
    }
  }

  /** A transaction that saves a consent emits the event of its version first; an exchange one more. */
  lemma SavedEvents(env: Env, s: Store, p: Pending, now: int) returns (e: Event, rest: seq<Event>)
    requires StoreOk(s) && Anchored(s, p) && Saves(p).Some?
    ensures e.aggregate == ConsentAggregate && e.aggregateId == Saves(p).value.id && e.version == Saves(p).value.version
    ensures rest == [] || (|rest| == 1 && rest[0].aggregate != ConsentAggregate)
    ensures Commit(env, s, p, now).outbox == s.outbox + [e] + rest
  {
    hide IssueTokens, StoreOk;
    rest := [];
    match p {
      case ConsentSave(_, _, next, eventType) => e := ConsentEvent(s, next, eventType, now);
      case ConsentRevocation(_, _, next) => e := ConsentEvent(s, next, ConsentRevokedEvent, now);
      case Grant(_, _, next, _, _) => e := ConsentEvent(Take(s, 1), next, ConsentAuthorizedEvent, now);
      case Exchange(cmd, code, _, next) =>
        IssueTokensTables(env, s, next, cmd.code, code.clientId, now);
        e := ConsentEvent(Take(s, 5), next, ConsentActivatedEvent, now);
        rest := [Event(s.nextId + 6, TokenAggregate, s.nextId + 2, TokenIssuedEvent, 1, now)];
    }
  }

  lemma SaveKeepsVersionsExactly(env: Env, s: Store, p: Pending, now: int)
    requires StoreOk(s) && Anchored(s, p) && VersionsInv(s.outbox, s.consents) && Saves(p).Some?
    ensures Saves(p).value.id in s.consents
    ensures var t := Commit(env, s, p, now); var w := s.consents[Saves(p).value.id].version;
            VersionsInv(t.outbox, t.consents) <==> w <= Saves(p).value.version <= w + 1
  {
    hide WeakLedger, Commit, VersionsInv;
    var d, t := Saves(p).value, Commit(env, s, p, now);
    var e, rest := SavedEvents(env, s, p, now);
    SavedConsents(env, s, p, now);
    ConsentEventFitsExactly(s.outbox, s.consents, d, e);
    if rest == [] {
      assert t.outbox == s.outbox + [e];
    } else {
      OtherEventKeepsVersionsExactly(s.outbox + [e], t.consents, rest[0]);
      assert t.outbox == s.outbox + [e] + [rest[0]];
    }
  }

  /**
   Over every interleaving: a transaction keeps the consent versions of the outbox without gaps,
   exactly when the stored version of the consent it saves is the saved one or the one before.
   */
  lemma VersionsKeptExactly(env: Env, schedule: seq<Action>, a: Action)
    requires CommitsAt(After(env, START, schedule), a).Some?
    requires var s := After(env, START, schedule).store; VersionsInv(s.outbox, s.consents)
    ensures var s := After(env, START, schedule).store; var t := Advance(env, After(env, START, schedule), a).store;
            var saved := Saves(CommitsAt(After(env, START, schedule), a).value.0);
            && (saved.Some? ==> saved.value.id in s.consents)
            && (VersionsInv(t.outbox, t.consents)
                <==> (saved.Some? ==> s.consents[saved.value.id].version <= saved.value.version
                                      <= s.consents[saved.value.id].version + 1))
  {
    hide After, Commit, StoreOk, ExpiryOf, AcceptedOk, VersionsInv, Anchored;
    InterleavedInv(env, schedule);
    var sys := After(env, START, schedule);
    var (p, at) := CommitsAt(sys, a).value;
    CommitIsAnchored(sys, a);
    assert Advance(env, sys, a).store == Commit(env, sys.store, p, at);
    if Saves(p).Some? {
      SaveKeepsVersionsExactly(env, sys.store, p, at);
    } else {
      OtherCommitKeepsVersions(env, sys.store, p, at);
    }
  }

  lemma OtherCommitKeepsVersions(env: Env, s: Store, p: Pending, now: int)
    requires StoreOk(s) && Anchored(s, p) && VersionsInv(s.outbox, s.consents) && Saves(p).None?
    ensures var t := Commit(env, s, p, now); VersionsInv(t.outbox, t.consents)
  {
    hide WeakLedger, VersionsInv, Execute;
    if p.Creation? {
      CreationKeepsVersions(env, s, p.cmd, now);
    } else {
      hide Commit;
      TokenEventsKeepVersions(env, s, p, now);
    }
  }
}
