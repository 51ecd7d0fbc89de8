/**
 What is meant to be used once, under arbitrary interleaving: exactly when a refresh token is
 answered twice, a code exchanged twice or a request granted twice.
 */
module IdentityRaceSingleUse {
  import opened Basics
  import opened ConsentMachine
  import opened IdentityStore
  import opened IdentityUseCases
  import opened RefreshLedger
  import opened IdentityRaces
  import opened IdentityRaceTheorems

  // ---------------------------------------------------------------- used tokens and locked families

  /**
   Over every interleaving: the token a refresh is about to answer has been used since it was
   read, exactly when the current hash of its family is no longer the one that was read; and
   its family has been locked since, exactly when its revocation columns are no longer those
   that were read. Comparing both is what the transaction lacks.
   */
  lemma DeadTokenAnsweredExactly(env: Env, schedule: seq<Action>, a: Action)
    requires CommitsAt(After(env, START, schedule), a).Some? && CommitsAt(After(env, START, schedule), a).value.0.Rotation?
    ensures CommitsAt(After(env, START, schedule), a).value.0.cmd.RefreshTokens?
    ensures var s := After(env, START, schedule); var l := s.store.ledger;
            var p := CommitsAt(s, a).value.0; var hash := Digest(p.cmd.refreshToken);
            && hash in l.rows && p.familyId in l.families
            && Advance(env, s, a).accepted == s.accepted + [p.cmd.refreshToken]
            && var stored := l.families[p.familyId];
               && (l.rows[hash].usedAt.Some? <==> stored.currentTokenHash != p.family.currentTokenHash)
               && (IsFamilyRevoked(stored) <==> (stored.revokedAt, stored.reuseDetectedAt)
                                                != (p.family.revokedAt, p.family.reuseDetectedAt))
  {
    hide After, Commit, ExpiryOf, AcceptedOk;
    InterleavedInv(env, schedule);
    var s := After(env, START, schedule);
    CommitIsAnchored(s, a);
    assert OwnedRow(s.store.ledger, Digest(CommitsAt(s, a).value.0.cmd.refreshToken));
  }

  /** While the ledger is in order, comparing generations says the same as comparing hashes. */
  lemma GenerationTellsHash(l: Ledger, next: Id, m: Ledger, later: Id, id: Id)
    requires LedgerInv(l, next) && LedgerInv(m, later) && LedgerEvolves(l, m) && id in l.families
    ensures id in m.families
    ensures m.families[id].generation == l.families[id].generation
            <==> m.families[id].currentTokenHash == l.families[id].currentTokenHash
  {
    hide AllGenerations;
    assert FamilyOk(l, id) && FamilyOk(m, id);
  }

  /** The refresh about to commit finds the current hash it read. */
  ghost predicate HashUnchanged(s: Sys, a: Action) {
    CommitsAt(s, a).Some? && CommitsAt(s, a).value.0.Rotation? ==>
      var p := CommitsAt(s, a).value.0;
      p.familyId in s.store.ledger.families
      && s.store.ledger.families[p.familyId].currentTokenHash == p.family.currentTokenHash
  }

  ghost predicate AllHashesUnchanged(env: Env, schedule: seq<Action>)
    decreases |schedule|
  {
    schedule == [] || (AllHashesUnchanged(env, schedule[..|schedule| - 1])
                       && HashUnchanged(After(env, START, schedule[..|schedule| - 1]), schedule[|schedule| - 1]))
  }

  ghost predicate AcceptedOnce(accepted: seq<Opaque>) {
    forall i, j | 0 <= i < j < |accepted| :: accepted[i] != accepted[j]
  }

  /** The token a transaction answers when it commits. */
  function Answers(p: Pending): Option<Opaque> {
    if p.Rotation? && p.cmd.RefreshTokens? then Some(p.cmd.refreshToken) else None
  }

  /** A step answers a token exactly when it commits a refresh. */
  lemma AnswersOnlyRotations(env: Env, s: Sys, a: Action)
    ensures Advance(env, s, a).accepted
            == if CommitsAt(s, a).Some? && Answers(CommitsAt(s, a).value.0).Some?
               then s.accepted + [Answers(CommitsAt(s, a).value.0).value] else s.accepted
  {
    hide Commit, ExpiryOf, RotationOf, ExchangeOf, GrantOf, TokenRevocationOf, ActivationOf, RevocationOf, FindFamilyByHash,
         FindOpenRequest, Loaded;
  }

  /** A token answered a second time was read before, and answered after, its family moved on. */
  lemma SecondAnswerIsStale(env: Env, schedule: seq<Action>, a: Action)
    requires var s := After(env, START, schedule);
             CommitsAt(s, a).Some? && CommitsAt(s, a).value.0.Rotation? && CommitsAt(s, a).value.0.cmd.RefreshTokens?
             && CommitsAt(s, a).value.0.cmd.refreshToken in s.accepted
    ensures !HashUnchanged(After(env, START, schedule), a)
  {
    hide After, ExpiryOf, StoreOk, ProcsOk, Commit;
    InterleavedInv(env, schedule);
    DeadTokenAnsweredExactly(env, schedule, a);
  }

  /** If every refresh finds the hash it read, no token is answered twice, however the handlers interleave. */
  lemma {:induction false} HashComparisonRestoresSingleUse(env: Env, schedule: seq<Action>)
    requires AllHashesUnchanged(env, schedule)
    ensures AcceptedOnce(After(env, START, schedule).accepted)
    decreases |schedule|
  {
    hide Advance, HashUnchanged, CommitsAt;
    if schedule != [] {
      var first, a := schedule[..|schedule| - 1], schedule[|schedule| - 1];
      HashComparisonRestoresSingleUse(env, first);
      var s := After(env, START, first);
      AnswersOnlyRotations(env, s, a);
      if Advance(env, s, a).accepted != s.accepted && CommitsAt(s, a).value.0.cmd.refreshToken in s.accepted {
        SecondAnswerIsStale(env, first, a);
        assert false;
      }
    }
  }

  /** Every used row is that of an answered token. */
  ghost predicate UsedAnswered(l: Ledger, accepted: seq<Opaque>) {
    forall h | h in l.rows && l.rows[h].usedAt.Some? :: h.preimage in accepted
  }

  /** No row has become used, except at most that of this token. */
  ghost predicate UsesAtMost(l: Ledger, m: Ledger, token: Option<Opaque>) {
    forall h | h in m.rows && m.rows[h].usedAt.Some? :: (h in l.rows && l.rows[h].usedAt.Some?) || token == Some(h.preimage)
  }

  /** A rotation uses the row that is current by then, which is the token's own if the hash has not changed. */
  lemma RotationUsesAtMost(env: Env, s: Store, p: Pending, now: int)
    requires StoreOk(s) && Anchored(s, p) && p.Rotation?
    requires s.ledger.families[p.familyId].currentTokenHash == p.family.currentTokenHash
    ensures UsesAtMost(s.ledger, Commit(env, s, p, now).ledger, Answers(p))
  {
    hide StoreOk;
  }

  lemma OthersUseNone(env: Env, s: Store, p: Pending, now: int)
    requires StoreOk(s) && Anchored(s, p) && !p.Rotation?
    ensures UsesAtMost(s.ledger, Commit(env, s, p, now).ledger, None)
  {
    hide WeakLedger, IssueTokens, Execute;
    match p {
      case Exchange(cmd, code, _, next) => IssueTokensTables(env, s, next, cmd.code, code.clientId, now);
      case Creation(cmd) => CreationAdds(env, s, cmd, now);
      case _ =>
    }
  }

  lemma AdvanceUsesAtMost(env: Env, s: Sys, a: Action)
    requires RaceInv(s) && HashUnchanged(s, a)
    ensures var t := Advance(env, s, a);
            UsedAnswered(s.store.ledger, s.accepted) ==> UsedAnswered(t.store.ledger, t.accepted)
  {
    hide Advance, StoreOk, Anchored, Commit, ProcsOk, AcceptedOk;
    var t := Advance(env, s, a);
    AnswersOnlyRotations(env, s, a);
    if CommitsAt(s, a).Some? {
      var (p, at) := CommitsAt(s, a).value;
      CommitIsAnchored(s, a);
      CommitChanges(env, s, a);
      if p.Rotation? { RotationUsesAtMost(env, s.store, p, at); } else { OthersUseNone(env, s.store, p, at); }
    } else {
      NoCommitNoChange(env, s, a);
    }
  }

  lemma {:induction false} UnchangedHashesUsedAnswered(env: Env, schedule: seq<Action>)
    requires AllHashesUnchanged(env, schedule)
    ensures UsedAnswered(After(env, START, schedule).store.ledger, After(env, START, schedule).accepted)
    decreases |schedule|
  {
    hide Advance, HashUnchanged, RaceInv;
    if schedule != [] {
      var first := schedule[..|schedule| - 1];
      UnchangedHashesUsedAnswered(env, first);
      InterleavedInv(env, first);
      AdvanceUsesAtMost(env, After(env, START, first), schedule[|schedule| - 1]);
    }
  }

  /** The first refresh that finds another hash answers a token that has been answered. */
  lemma FirstChangedHashAnswersAgain(env: Env, schedule: seq<Action>, a: Action)
    requires AllHashesUnchanged(env, schedule) && !HashUnchanged(After(env, START, schedule), a)
    ensures var s := After(env, START, schedule); var t := Advance(env, s, a);
            s.accepted < t.accepted && t.accepted[|s.accepted|] in s.accepted
  {
    hide After, Advance, AllHashesUnchanged, StoreOk, ProcsOk, AcceptedOk;
    InterleavedInv(env, schedule);
    UnchangedHashesUsedAnswered(env, schedule);
    DeadTokenAnsweredExactly(env, schedule, a);
  }

  /**
   Over every schedule: no refresh token is answered twice if and only if every refresh finds,
   when it commits, the current hash it read.
   */
  lemma {:induction false} SingleUseExactly(env: Env, schedule: seq<Action>)
    ensures AcceptedOnce(After(env, START, schedule).accepted) <==> AllHashesUnchanged(env, schedule)
    decreases |schedule|
  {
    hide Advance, HashUnchanged, CommitsAt;
    if AllHashesUnchanged(env, schedule) {
      HashComparisonRestoresSingleUse(env, schedule);
    } else {
      var first, a := schedule[..|schedule| - 1], schedule[|schedule| - 1];
      var s := After(env, START, first);
      SingleUseExactly(env, first);
      AnswersOnlyRotations(env, s, a);
      if AllHashesUnchanged(env, first) {
        FirstChangedHashAnswersAgain(env, first, a);
      }
      OnceOfPrefix(s.accepted, Advance(env, s, a).accepted);
    }
  }

  lemma OnceOfPrefix(first: seq<Opaque>, more: seq<Opaque>)
    requires first <= more
    ensures AcceptedOnce(more) ==> AcceptedOnce(first) && forall i | |first| <= i < |more| :: more[i] !in first
  {
  }

  // ---------------------------------------------------------------- codes and requests

  /** A row that one transaction is meant to spend: a code by an exchange, a request by a grant. */
  datatype OneTime = CodeRow(hash: Digest<Id>) | RequestRow(id: Id)

  predicate IsSpent(s: Store, x: OneTime) {
    match x
    case CodeRow(hash) => hash in s.codes && s.codes[hash].usedAt.Some?
    case RequestRow(id) => id in s.requests && s.requests[id].consumedAt.Some?
  }

  function Spends(p: Pending): Option<OneTime> {
    match p
    case Exchange(cmd, _, _, _) => if cmd.ExchangeCode? then Some(CodeRow(Digest(cmd.code))) else None
    case Grant(_, _, _, requestId, _) => Some(RequestRow(requestId))
    case _ => None
  }

  /** The row a transaction spends is stored as it was read. */
  predicate FindsWhatItRead(s: Store, p: Pending) {
    match p
    case Exchange(cmd, code, _, _) => cmd.ExchangeCode? && Digest(cmd.code) in s.codes && s.codes[Digest(cmd.code)] == code
    case Grant(_, _, _, requestId, request) => requestId in s.requests && s.requests[requestId] == request
    case _ => true
  }

  /** A transaction spends its own row and no other. */
  lemma CommitSpends(env: Env, s: Store, p: Pending, now: int, x: OneTime)
    requires StoreOk(s) && Anchored(s, p)
    ensures IsSpent(Commit(env, s, p, now), x) <==> IsSpent(s, x) || Spends(p) == Some(x)
  {
    hide WeakLedger, IssueTokens, Execute, Rotate;
    match p {
      case Exchange(cmd, code, _, next) => IssueTokensTables(env, s, next, cmd.code, code.clientId, now);
      case Creation(cmd) => CreationAdds(env, s, cmd, now);
      case _ =>
    }
  }

  lemma SpentIsChanged(s: Store, p: Pending)
    requires Anchored(s, p) && Spends(p).Some?
    ensures IsSpent(s, Spends(p).value) <==> !FindsWhatItRead(s, p)
  {
  }

  /** What comes of spending a row: for a code a new token and, offline, a new family; for a request a new code. */
  ghost predicate Issues(s: Store, t: Store, p: Pending) {
    var n := s.nextId;
    match p
    case Exchange(_, code, read, _) =>
      && n + 2 !in s.access && n + 2 in t.access && t.access[n + 2].consentId == read.id
      && t.ledger.families.Keys == s.ledger.families.Keys + (if OFFLINE_ACCESS in code.scopes then {n + 3} else {})
      && n + 3 !in s.ledger.families && (n + 3 in t.ledger.families ==> t.ledger.families[n + 3].consentId == read.id)
    case Grant(_, read, _, _, _) =>
      Digest(n) !in s.codes && Digest(n) in t.codes && t.codes[Digest(n)].consentId == read.id
    case _ => true
  }

  lemma SpendingIssues(env: Env, s: Store, p: Pending, now: int)
    requires StoreOk(s) && Anchored(s, p)
    ensures Issues(s, Commit(env, s, p, now), p)
  {
    hide IssueTokens, Execute, Rotate;
    if p.Exchange? { IssueTokensTables(env, s, p.next, p.cmd.code, p.code.clientId, now); }
  }

  /**
   Over every interleaving: an exchange about to commit redeems a code that has been used, and a
   grant a request that has been consumed, exactly when the stored row is no longer the one that
   was read. It issues all the same.
   */
  lemma SpentRowTakenExactly(env: Env, schedule: seq<Action>, a: Action)
    requires CommitsAt(After(env, START, schedule), a).Some? && Spends(CommitsAt(After(env, START, schedule), a).value.0).Some?
    ensures var s := After(env, START, schedule); var t := Advance(env, s, a);
            var p := CommitsAt(s, a).value.0; var x := Spends(p).value;
            && (IsSpent(s.store, x) <==> !FindsWhatItRead(s.store, p))
            && IsSpent(t.store, x) && Issues(s.store, t.store, p)
  {
    hide After, Commit, ExpiryOf, AcceptedOk, StoreOk, Anchored, FindsWhatItRead, IsSpent, Issues;
    InterleavedInv(env, schedule);
    var s := After(env, START, schedule);
    var (p, at) := CommitsAt(s, a).value;
    CommitIsAnchored(s, a);
    CommitChanges(env, s, a);
    SpentIsChanged(s.store, p);
    CommitSpends(env, s.store, p, at, Spends(p).value);
    SpendingIssues(env, s.store, p, at);
  }

  /** The rows spent along a schedule, in the order of the commits. */
  ghost function Spent(env: Env, schedule: seq<Action>): seq<OneTime>
    decreases |schedule|
  {
    if schedule == [] then [] else
      var first, a := schedule[..|schedule| - 1], schedule[|schedule| - 1];
      var commit := CommitsAt(After(env, START, first), a);
      Spent(env, first) + if commit.Some? && Spends(commit.value.0).Some? then [Spends(commit.value.0).value] else []
  }

  /** The step commits no transaction, or one that finds the row it spends as it read it. */
  ghost predicate RowUnchanged(s: Sys, a: Action) {
    CommitsAt(s, a).Some? ==> FindsWhatItRead(s.store, CommitsAt(s, a).value.0)
  }

  ghost predicate AllRowsUnchanged(env: Env, schedule: seq<Action>)
    decreases |schedule|
  {
    schedule == [] || (AllRowsUnchanged(env, schedule[..|schedule| - 1])
                       && RowUnchanged(After(env, START, schedule[..|schedule| - 1]), schedule[|schedule| - 1]))
  }

  /** A row is marked as spent exactly when a transaction spent it. */
  lemma {:induction false} SpentAreMarked(env: Env, schedule: seq<Action>, x: OneTime)
    ensures IsSpent(After(env, START, schedule).store, x) <==> x in Spent(env, schedule)
    decreases |schedule|
  {
    hide Advance, Commit, RaceInv, StoreOk, Anchored, CommitsAt;
    if schedule != [] {
      var first, a := schedule[..|schedule| - 1], schedule[|schedule| - 1];
      var s := After(env, START, first);
      SpentAreMarked(env, first, x);
      InterleavedInv(env, first);
      if CommitsAt(s, a).Some? {
        CommitIsAnchored(s, a);
        CommitChanges(env, s, a);
        CommitSpends(env, s.store, CommitsAt(s, a).value.0, CommitsAt(s, a).value.1, x);
      } else {
        NoCommitNoChange(env, s, a);
      }
    }
  }

  ghost predicate SpentOnce(spent: seq<OneTime>) {
    forall i, j | 0 <= i < j < |spent| :: spent[i] != spent[j]
  }

  /**
   Over every schedule: no code is exchanged twice and no request granted twice if and only if
   every exchange finds the code, and every grant the request, that it read.
   */
  lemma {:induction false} SpentOnceExactly(env: Env, schedule: seq<Action>)
    ensures SpentOnce(Spent(env, schedule)) <==> AllRowsUnchanged(env, schedule)
    decreases |schedule|
  {
    hide Advance, RaceInv, StoreOk, Anchored, CommitsAt, FindsWhatItRead, After;
    if schedule != [] {
      var first, a := schedule[..|schedule| - 1], schedule[|schedule| - 1];
      var s := After(env, START, first);
      SpentOnceExactly(env, first);
      InterleavedInv(env, first);
      if CommitsAt(s, a).Some? {
        CommitIsAnchored(s, a);
        var p := CommitsAt(s, a).value.0;
        if Spends(p).Some? {
          SpentIsChanged(s.store, p);
          SpentAreMarked(env, first, Spends(p).value);
          OnceMore(Spent(env, first), Spends(p).value);
        } else {
          SpendsNothing(s.store, p);
          assert Spent(env, schedule) == Spent(env, first);
        }
      } else {
        assert Spent(env, schedule) == Spent(env, first);
      }
    }
  }

  lemma OnceMore(spent: seq<OneTime>, x: OneTime)
    ensures SpentOnce(spent + [x]) <==> SpentOnce(spent) && x !in spent
  {
    var more := spent + [x];
    if SpentOnce(more) {
      forall i, j | 0 <= i < j < |spent| ensures spent[i] != spent[j] { assert more[i] != more[j]; }
      forall i | 0 <= i < |spent| ensures spent[i] != x { assert more[i] != more[|spent|]; }
    }
  }

  lemma SpendsNothing(s: Store, p: Pending)
    requires Anchored(s, p) && Spends(p).None?
    ensures FindsWhatItRead(s, p)
  {
  }
}
