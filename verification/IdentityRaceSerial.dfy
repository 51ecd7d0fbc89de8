/**
 Interleaved runs against serial ones. When every transaction finds the rows it was computed
 from, an interleaved run leaves the tables of a serial run of the same commands in the order
 of their commits; and a handler that runs without interruption is the use case.
 */
module IdentityRaceSerial {
  import opened Basics
  import opened ScopeSets
  import opened ConsentMachine
  import opened IdentityStore
  import opened IdentityUseCases
  import opened RefreshLedger
  import opened IdentityInvariants
  import opened IdentityRuns
  import opened IdentityTheorems
  import opened IdentityRaces
  import opened IdentityRaceTheorems

  // ---------------------------------------------------------------- a transaction follows from the rows it carries

  predicate WantsRefreshTokens(cmd: Command) {
    cmd.RevokeToken? && cmd.presented.OpaqueToken? && (cmd.hint == None || cmd.hint == Some(RefreshHint))
  }

  predicate WantsAccessTokens(cmd: Command, client: Client, jti: Id) {
    cmd.RevokeToken? && cmd.presented.Jwt? && cmd.presented.verified == Some((client.clientId, jti))
    && (cmd.hint == None || cmd.hint == Some(AccessHint))
  }

  ghost predicate Justified(env: Env, p: Pending, now: int) {
    match p
    case ConsentSave(cmd, read, _, _) =>
      if cmd.ActivateConsent? then cmd.consentId == read.id && ActivationOf(cmd, read, now) == Some(p)
      else ExpiryOf(read, now) == Some(p)
    case ConsentRevocation(cmd, read, _) =>
      cmd.RevokeConsent? && cmd.consentId == read.id && RevocationOf(cmd, read, now) == Some(p)
    case Grant(cmd, read, _, r, request) =>
      cmd.AuthorizeConsent? && cmd.consentId == read.id && GrantOf(cmd, read, r, request, now) == Some(p)
    case Exchange(cmd, code, read, _) => cmd.ExchangeCode? && ExchangeOf(env, cmd, code, read, now) == Some(p)
    case Rotation(cmd, id, family, consent) =>
      cmd.RefreshTokens? && RotationOf(env, cmd, id, family, map[family.consentId := consent], now) == Some(p)
    case Reuse(cmd, id, family) => cmd.RefreshTokens? && RotationOf(env, cmd, id, family, map[], now) == Some(p)
    case FamilyRevocation(cmd, id, family) =>
      WantsRefreshTokens(cmd) && ActiveClient(env, cmd.clientId).Some? && family.clientId == ActiveClient(env, cmd.clientId).value.id
    case AccessRevocation(cmd, id, token) =>
      cmd.RevokeToken? && ActiveClient(env, cmd.clientId).Some? && token.clientId == ActiveClient(env, cmd.clientId).value.id
      && WantsAccessTokens(cmd, ActiveClient(env, cmd.clientId).value, token.jti)
    case Creation(cmd) => IsCreation(cmd)
  }

  /** The rows it was computed from are still the stored ones. */
  ghost predicate Unchanged(s: Store, p: Pending) {
    match p
    case ConsentSave(_, read, _, _) => read.id in s.consents && s.consents[read.id] == read
    case ConsentRevocation(_, read, _) => read.id in s.consents && s.consents[read.id] == read
    case Grant(_, read, _, r, request) =>
      read.id in s.consents && s.consents[read.id] == read && IsOpenRequest(s, r, read.id) && s.requests[r] == request
    case Exchange(cmd, code, read, _) =>
      && cmd.ExchangeCode? && Digest(cmd.code) in s.codes && s.codes[Digest(cmd.code)] == code
      && read.id in s.consents && s.consents[read.id] == read
    case Rotation(_, id, family, consent) =>
      && id in s.ledger.families && s.ledger.families[id] == family
      && family.consentId in s.consents && s.consents[family.consentId] == consent
    case Reuse(_, id, family) => id in s.ledger.families && s.ledger.families[id] == family
    case _ => true
  }

  // ---------------------------------------------------------------- then committing is the serial step

  lemma ConsentSaveIsSerial(env: Env, s: Store, p: Pending, now: int)
    requires Justified(env, p, now) && Unchanged(s, p) && p.ConsentSave?
    ensures Commit(env, s, p, now) == Execute(env, s, p.cmd, now).store
  {
    if !p.cmd.ActivateConsent? {
      var candidates, done := p.cmd.candidates, ExpireOne(s, p.read.id, now);
      assert candidates == [p.read.id] && done.Some? && done.value == Commit(env, s, p, now);
      assert DoExpireConsents(done.value, candidates[1..], now).store == done.value;
      assert DoExpireConsents(s, candidates, now).store == done.value;
    }
  }

  lemma RevocationIsSerial(env: Env, s: Store, p: Pending, now: int)
    requires Justified(env, p, now) && Unchanged(s, p) && p.ConsentRevocation?
    ensures Commit(env, s, p, now) == Execute(env, s, p.cmd, now).store
  {
  }

  lemma GrantIsSerial(env: Env, s: Store, p: Pending, now: int)
    requires Inv(env, s) && Justified(env, p, now) && Unchanged(s, p) && p.Grant?
    ensures Commit(env, s, p, now) == Execute(env, s, p.cmd, now).store
  {
    hide ConsentsInv, RequestsInv, CodesInv, FamiliesInv, AccessInv, LedgerInv, VersionsInv, FromString, IssueCode;
    var found := FindOpenRequest(s, p.read.id);
    OneRequest(env, s, p.requestId, found.value);
  }

  lemma OneRequest(env: Env, s: Store, q: Id, r: Id)
    requires Inv(env, s) && q in s.requests && r in s.requests && s.requests[q].consentId == s.requests[r].consentId
    ensures q == r
  {
    hide ConsentsInv, CodesInv, FamiliesInv, AccessInv, LedgerInv, VersionsInv, RequestOk;
  }

  lemma ExchangeIsSerial(env: Env, s: Store, p: Pending, now: int)
    requires Justified(env, p, now) && Unchanged(s, p) && Anchored(s, p) && p.Exchange?
    ensures Commit(env, s, p, now) == Execute(env, s, p.cmd, now).store
  {
    hide IssueTokens, VerifyPkce, AuthenticatedClient;
    AuthenticatedIsStored(env, p.cmd.clientId, p.cmd.clientSecret);
  }

  lemma RefreshIsSerial(env: Env, s: Store, p: Pending, now: int)
    requires Inv(env, s) && Justified(env, p, now) && Unchanged(s, p) && Anchored(s, p) && (p.Rotation? || p.Reuse?)
    ensures Commit(env, s, p, now) == Execute(env, s, p.cmd, now).store
  {
    hide ConsentsInv, RequestsInv, CodesInv, FamiliesInv, AccessInv, LedgerInv, VersionsInv, FindFamilyByHash, RotateFrom,
         HandleReuse, AuthenticatedClient;
    LookupIsScan(s.ledger, s.nextId, Digest(p.cmd.refreshToken));
  }

  lemma TokenRevocationIsSerial(env: Env, s: Store, p: Pending, now: int)
    requires Inv(env, s) && Justified(env, p, now) && Anchored(s, p) && (p.FamilyRevocation? || p.AccessRevocation?)
    ensures Commit(env, s, p, now) == Execute(env, s, p.cmd, now).store
  {
    hide ConsentsInv, RequestsInv, CodesInv, FamiliesInv, LedgerInv, VersionsInv, FindFamilyByHash, AccessOk;
    if p.FamilyRevocation? {
      LookupIsScan(s.ledger, s.nextId, Digest(p.cmd.presented.token));
    } else {
      assert HasJti(s, p.tokenId, p.token.jti);
    }
  }

  lemma CommitIsSerial(env: Env, s: Store, p: Pending, now: int)
    requires Inv(env, s) && Justified(env, p, now) && Unchanged(s, p) && Anchored(s, p)
    ensures Commit(env, s, p, now) == Execute(env, s, p.cmd, now).store
  {
    hide Inv, Commit, Execute;
    match p {
      case ConsentSave(_, _, _, _) => ConsentSaveIsSerial(env, s, p, now);
      case ConsentRevocation(_, _, _) => RevocationIsSerial(env, s, p, now);
      case Grant(_, _, _, _, _) => GrantIsSerial(env, s, p, now);
      case Exchange(_, _, _, _) => ExchangeIsSerial(env, s, p, now);
      case Rotation(_, _, _, _) => RefreshIsSerial(env, s, p, now);
      case Reuse(_, _, _) => RefreshIsSerial(env, s, p, now);
      case FamilyRevocation(_, _, _) => TokenRevocationIsSerial(env, s, p, now);
      case AccessRevocation(_, _, _) => TokenRevocationIsSerial(env, s, p, now);
      case Creation(_) => CreationIsSerial(env, s, p, now);
    }
  }

  lemma CreationIsSerial(env: Env, s: Store, p: Pending, now: int)
    requires Justified(env, p, now) && p.Creation?
    ensures Commit(env, s, p, now) == Execute(env, s, p.cmd, now).store
  {
    hide Execute;
  }

  // ---------------------------------------------------------------- every transaction of a run is justified

  ghost predicate ProcJustified(env: Env, proc: Proc) {
    match proc
    case Ready(p, at) => Justified(env, p, at)
    case _ => true
  }

  ghost predicate AllJustified(env: Env, procs: map<nat, Proc>) {
    forall h | h in procs :: ProcJustified(env, procs[h])
  }

  lemma TokenRevocationJustified(env: Env, s: Store, cmd: Command, now: int)
    requires cmd.RevokeToken? && TokenRevocationOf(env, s, cmd).Some?
    ensures Justified(env, TokenRevocationOf(env, s, cmd).value, now)
  {
    hide FindFamilyByHash;
  }

  lemma FirstReadJustifies(env: Env, s: Sys, h: nat, cmd: Command, now: int)
    requires RaceInv(s) && AllJustified(env, s.procs)
    ensures AllJustified(env, FirstRead(env, s, h, cmd, now).procs)
  {
    hide WeakLedger, ProcsOk, AcceptedOk, TokenRevocationOf, FindFamilyByHash, Loaded;
    if cmd.RevokeToken? && TokenRevocationOf(env, s.store, cmd).Some? { TokenRevocationJustified(env, s.store, cmd, now); }
  }

  lemma RotationJustified(env: Env, cmd: Command, id: Id, family: Family, consents: Consents, now: int)
    requires cmd.RefreshTokens? && RotationOf(env, cmd, id, family, consents, now).Some?
    ensures Justified(env, RotationOf(env, cmd, id, family, consents, now).value, now)
  {
    hide AuthenticatedClient;
  }

  lemma SecondReadJustifies(env: Env, s: Sys, h: nat, now: int)
    requires RaceInv(s) && AllJustified(env, s.procs) && h in s.procs
    requires s.procs[h].ConsentRead? || s.procs[h].CodeRead? || s.procs[h].FamilyRead?
    ensures AllJustified(env, SecondRead(env, s, h, s.procs[h], now).procs)
  {
    hide StoreOk, AcceptedOk, RotationOf, FromString, ExchangeCheck;
    var proc := s.procs[h];
    assert ProcOk(s.store, proc);
    if proc.FamilyRead? && RotationOf(env, proc.cmd, proc.familyId, proc.family, s.store.consents, now).Some? {
      RotationJustified(env, proc.cmd, proc.familyId, proc.family, s.store.consents, now);
    }
  }

  lemma AdvanceJustifies(env: Env, s: Sys, a: Action)
    requires RaceInv(s) && AllJustified(env, s.procs)
    ensures AllJustified(env, Advance(env, s, a).procs)
  {
    hide RaceInv, FirstRead, SecondRead, Committed, ExpiryOf;
    if a.Move? && a.h in s.procs {
      match s.procs[a.h] {
        case Started(cmd) => FirstReadJustifies(env, s, a.h, cmd, a.now);
        case Ready(p, at) => CommittedProcs(env, s, p, at);
        case Expiring(rest, at) =>
          if rest != [] && ExpiryOf(rest[0], at).Some? { CommittedProcs(env, s, ExpiryOf(rest[0], at).value, at); }
        case _ => SecondReadJustifies(env, s, a.h, a.now);
      }
    }
  }

  lemma CommittedProcs(env: Env, s: Sys, p: Pending, at: int)
    ensures Committed(env, s, p, at).procs == s.procs && Committed(env, s, p, at).store == Commit(env, s.store, p, at)
  {
    hide Commit;
  }

  lemma {:induction false} RunJustified(env: Env, schedule: seq<Action>)
    ensures AllJustified(env, After(env, START, schedule).procs)
    decreases |schedule|
  {
    hide Advance, AllJustified, RaceInv;
    if schedule == [] {
      NoneJustified(env);
    } else {
      InterleavedInv(env, schedule[..|schedule| - 1]);
      RunJustified(env, schedule[..|schedule| - 1]);
      AdvanceJustifies(env, After(env, START, schedule[..|schedule| - 1]), schedule[|schedule| - 1]);
    }
  }

  lemma NoneJustified(env: Env)
    ensures AllJustified(env, START.procs)
  {
  }

  // ---------------------------------------------------------------- current runs are serial runs

  /** The step commits no transaction, or one whose rows are unchanged. */
  ghost predicate CommitsUnchanged(s: Sys, a: Action) {
    CommitsAt(s, a).Some? ==> Unchanged(s.store, CommitsAt(s, a).value.0)
  }

  ghost predicate AllUnchanged(env: Env, schedule: seq<Action>)
    decreases |schedule|
  {
    schedule == [] || (AllUnchanged(env, schedule[..|schedule| - 1])
                       && CommitsUnchanged(After(env, START, schedule[..|schedule| - 1]), schedule[|schedule| - 1]))
  }

  /** The committed commands, one at a time, in the order of their commits. */
  ghost function SerialRun(env: Env, schedule: seq<Action>): Run
    decreases |schedule|
  {
    if schedule == [] then [] else
      var first := SerialRun(env, schedule[..|schedule| - 1]);
      var commit := CommitsAt(After(env, START, schedule[..|schedule| - 1]), schedule[|schedule| - 1]);
      if commit.Some? then first + [Request(commit.value.0.cmd, commit.value.1, true)] else first
  }

  lemma {:induction false} StateOfPrefix(env: Env, run: Run, more: Run, n: nat)
    requires n <= |run|
    ensures StateAt(env, run + more, n) == StateAt(env, run, n)
  {
    hide Step;
    if n > 0 { StateOfPrefix(env, run, more, n - 1); }
  }

  lemma CommittedRequest(env: Env, s: Sys, a: Action)
    requires RaceInv(s) && AllJustified(env, s.procs) && Inv(env, s.store) && CommitsAt(s, a).Some? && CommitsUnchanged(s, a)
    ensures Advance(env, s, a).store
            == Step(env, s.store, Request(CommitsAt(s, a).value.0.cmd, CommitsAt(s, a).value.1, true)).store
  {
    hide Commit, Inv, Execute, Justified, StoreOk, Anchored, AcceptedOk, Unchanged, ProcsOk;
    var (p, at) := CommitsAt(s, a).value;
    CommitChanges(env, s, a);
    CommitIsAnchored(s, a);
    PendingJustified(env, s, a);
    CommitIsSerial(env, s.store, p, at);
  }

  lemma PendingJustified(env: Env, s: Sys, a: Action)
    requires AllJustified(env, s.procs) && CommitsAt(s, a).Some?
    ensures Justified(env, CommitsAt(s, a).value.0, CommitsAt(s, a).value.1)
  {
    assert ProcJustified(env, s.procs[a.h]);
  }

  /**
   If every transaction finds the rows it was computed from, whatever else happens in between,
   the tables are those of a serial run; so everything proved of serial runs holds of them.
   */
  lemma {:induction false} UnchangedRunIsSerial(env: Env, schedule: seq<Action>)
    requires AllUnchanged(env, schedule)
    ensures After(env, START, schedule).store == StateAt(env, SerialRun(env, schedule), |SerialRun(env, schedule)|)
    decreases |schedule|
  {
    hide Advance, Step, CommitsAt, CommitsUnchanged, AllJustified, RaceInv, Inv;
    if schedule != [] {
      var first, a := schedule[..|schedule| - 1], schedule[|schedule| - 1];
      var s, run := After(env, START, first), SerialRun(env, first);
      UnchangedRunIsSerial(env, first);
      if CommitsAt(s, a).Some? {
        ReachableInv(env, run, |run|);
        InterleavedInv(env, first);
        RunJustified(env, first);
        CommittedRequest(env, s, a);
        StateOfPrefix(env, run, [Request(CommitsAt(s, a).value.0.cmd, CommitsAt(s, a).value.1, true)], |run|);
      } else {
        NoCommitNoChange(env, s, a);
      }
    }
  }

  // ---------------------------------------------------------------- handlers that run without interruption

  lemma Extend(env: Env, s: Sys, schedule: seq<Action>, a: Action)
    ensures After(env, s, schedule + [a]) == Advance(env, After(env, s, schedule), a)
  {
    assert (schedule + [a])[..|schedule|] == schedule;
  }

  lemma {:induction false} AfterBoth(env: Env, s: Sys, first: seq<Action>, second: seq<Action>)
    ensures After(env, s, first + second) == After(env, After(env, s, first), second)
    decreases |second|
  {
    hide Advance;
    if second == [] {
      assert first + second == first;
    } else {
      var n := |second| - 1;
      assert (first + second)[..|first + second| - 1] == first + second[..n];
      AfterBoth(env, s, first, second[..n]);
    }
  }

  function Whole(h: nat, cmd: Command, now: int): seq<Action> {
    [Start(h, cmd), Move(h, now, true), Move(h, now, true), Move(h, now, true)]
  }

  lemma OneStep(env: Env, s: Sys, a: Action)
    ensures After(env, s, [a]) == Advance(env, s, a)
  {
    hide Advance;
    assert [a][..0] == [];
    assert After(env, s, [a][..0]) == s;
  }

  lemma ThreeSteps(env: Env, s: Sys, a: Action, b: Action, c: Action)
    ensures After(env, s, [a, b, c]) == Advance(env, Advance(env, Advance(env, s, a), b), c)
  {
    hide Advance, After;
    assert [a, b, c] == [a] + [b] + [c];
    OneStep(env, s, a);
    Extend(env, s, [a], b);
    Extend(env, s, [a] + [b], c);
  }

  lemma FourSteps(env: Env, s: Sys, a: Action, b: Action, c: Action, d: Action)
    ensures After(env, s, [a, b, c, d]) == Advance(env, Advance(env, Advance(env, Advance(env, s, a), b), c), d)
  {
    hide Advance, After;
    assert [a, b, c, d] == [a, b, c] + [d];
    ThreeSteps(env, s, a, b, c);
    Extend(env, s, [a, b, c], d);
  }

  /** What a handler leaves when it is done: its commit, and itself gone. */
  lemma Gone(s: Sys, h: nat, x: Proc, y: Proc)
    requires h !in s.procs
    ensures Ended(At(s, h, x), h) == s && At(At(s, h, x), h, y) == At(s, h, y) && Ended(s, h) == s
  {
    assert s.procs[h := x] - {h} == s.procs;
  }

  lemma WholeCreation(env: Env, s: Sys, h: nat, cmd: Command, now: int)
    requires h !in s.procs && IsCreation(cmd)
    ensures After(env, s, Whole(h, cmd, now)) == s.(store := Execute(env, s.store, cmd, now).store)
  {
    hide After, Execute;
    FourSteps(env, s, Start(h, cmd), Move(h, now, true), Move(h, now, true), Move(h, now, true));
    var t := s.(store := Execute(env, s.store, cmd, now).store);
    var ready := Ready(Creation(cmd), now);
    Gone(s, h, Started(cmd), ready);
    Gone(t, h, ready, ready);
  }

  lemma WholeGrant(env: Env, s: Sys, h: nat, cmd: Command, now: int)
    requires h !in s.procs && cmd.AuthorizeConsent? && DoAuthorizeConsent(s.store, cmd, now).reply.ConsentAuthorized?
    requires s.store.consents[cmd.consentId].id == cmd.consentId
    ensures After(env, s, Whole(h, cmd, now)) == s.(store := DoAuthorizeConsent(s.store, cmd, now).store)
  {
    hide After, FromString, IssueCode;
    FourSteps(env, s, Start(h, cmd), Move(h, now, true), Move(h, now, true), Move(h, now, true));
    var t := s.(store := DoAuthorizeConsent(s.store, cmd, now).store);
    var row := s.store.consents[cmd.consentId];
    var r := FindOpenRequest(s.store, cmd.consentId).value;
    var ready := Ready(GrantOf(cmd, row, r, s.store.requests[r], now).value, now);
    Gone(s, h, Started(cmd), ConsentRead(cmd, row));
    Gone(s, h, ConsentRead(cmd, row), ready);
    Gone(t, h, ready, ready);
  }

  lemma WholeExchange(env: Env, s: Sys, h: nat, cmd: Command, now: int)
    requires h !in s.procs && cmd.ExchangeCode? && DoExchangeCode(env, s.store, cmd, now).reply.TokensIssued?
    ensures After(env, s, Whole(h, cmd, now)) == s.(store := DoExchangeCode(env, s.store, cmd, now).store)
  {
    hide After, IssueTokens, VerifyPkce, AuthenticatedClient;
    AuthenticatedIsStored(env, cmd.clientId, cmd.clientSecret);
    FourSteps(env, s, Start(h, cmd), Move(h, now, true), Move(h, now, true), Move(h, now, true));
    var t := s.(store := DoExchangeCode(env, s.store, cmd, now).store);
    var code := s.store.codes[Digest(cmd.code)];
    var ready := Ready(ExchangeOf(env, cmd, code, s.store.consents[code.consentId], now).value, now);
    Gone(s, h, Started(cmd), CodeRead(cmd, code));
    Gone(s, h, CodeRead(cmd, code), ready);
    Gone(t, h, ready, ready);
  }

  lemma WholeRevocation(env: Env, s: Sys, h: nat, cmd: Command, now: int)
    requires h !in s.procs && cmd.RevokeConsent? && DoRevokeConsent(s.store, cmd, now).reply == ConsentRevoked
    ensures After(env, s, Whole(h, cmd, now)) == s.(store := DoRevokeConsent(s.store, cmd, now).store)
  {
    hide After, RevokeEverything;
    FourSteps(env, s, Start(h, cmd), Move(h, now, true), Move(h, now, true), Move(h, now, true));
    var t := s.(store := DoRevokeConsent(s.store, cmd, now).store);
    var ready := Ready(RevocationOf(cmd, s.store.consents[cmd.consentId], now).value, now);
    Gone(s, h, Started(cmd), ready);
    Gone(t, h, ready, ready);
  }

  // ---------------------------------------------------------------- nothing in between is nothing lost

  /** Where a handler stands after its reads, with nothing in between. */
  ghost function AfterReads(env: Env, s: Sys, h: nat, cmd: Command, now: int): Sys {
    var first := FirstRead(env, At(s, h, Started(cmd)), h, cmd, now);
    if h in first.procs && (first.procs[h].ConsentRead? || first.procs[h].CodeRead? || first.procs[h].FamilyRead?)
    then SecondRead(env, first, h, first.procs[h], now) else first
  }

  /** It is refused and gone, or commits over the rows it read. */
  lemma WholeRuns(env: Env, s: Sys, h: nat, cmd: Command, now: int, p: Option<Pending>)
    requires h !in s.procs && AfterReads(env, s, h, cmd, now) == if p.Some? then At(s, h, Ready(p.value, now)) else s
    ensures After(env, s, Whole(h, cmd, now)) == if p.Some? then Committed(env, s, p.value, now) else s
  {
    hide After, FirstRead, SecondRead, Commit;
    FourSteps(env, s, Start(h, cmd), Move(h, now, true), Move(h, now, true), Move(h, now, true));
    if p.Some? {
      var ready := Ready(p.value, now);
      Gone(Committed(env, s, p.value, now), h, ready, ready);
    }
  }

  /** What the reads of one command lead to, and that committing it is the use case. */
  ghost predicate Leads(env: Env, s: Sys, h: nat, cmd: Command, now: int, p: Option<Pending>) {
    var done := Execute(env, s.store, cmd, now);
    && AfterReads(env, s, h, cmd, now) == (if p.Some? then At(s, h, Ready(p.value, now)) else s)
    && done.store == (if p.Some? then Commit(env, s.store, p.value, now) else s.store)
    && (done.reply.TokensRefreshed? <==> p.Some? && p.value.Rotation?)
    && (p.Some? ==> p.value.cmd == cmd)
  }

  lemma AuthorizeLeads(env: Env, s: Sys, h: nat, cmd: Command, now: int) returns (p: Option<Pending>)
    requires h !in s.procs && cmd.AuthorizeConsent? && Keyed(s.store)
    ensures Leads(env, s, h, cmd, now, p)
  {
    hide FromString, IssueCode;
    var store := s.store;
    p := None;
    Gone(s, h, Started(cmd), Started(cmd));
    if cmd.consentId in store.consents {
      var row, r := store.consents[cmd.consentId], FindOpenRequest(store, cmd.consentId);
      if r.Some? { p := IdentityRaces.GrantOf(cmd, row, r.value, store.requests[r.value], now); }
      Gone(s, h, Started(cmd), ConsentRead(cmd, row));
      if p.Some? { Gone(s, h, ConsentRead(cmd, row), Ready(p.value, now)); } else { Gone(s, h, ConsentRead(cmd, row), Started(cmd)); }
    }
  }

  lemma StatusLeads(env: Env, s: Sys, h: nat, cmd: Command, now: int) returns (p: Option<Pending>)
    requires h !in s.procs && (cmd.ActivateConsent? || cmd.RevokeConsent?) && Keyed(s.store)
    ensures Leads(env, s, h, cmd, now, p)
  {
    hide RevokeEverything, SaveAndEmit;
    var store := s.store;
    p := if cmd.consentId !in store.consents then None
         else if cmd.ActivateConsent? then ActivationOf(cmd, store.consents[cmd.consentId], now)
         else RevocationOf(cmd, store.consents[cmd.consentId], now);
    Gone(s, h, Started(cmd), if p.Some? then Ready(p.value, now) else Started(cmd));
  }

  lemma CreationLeads(env: Env, s: Sys, h: nat, cmd: Command, now: int) returns (p: Option<Pending>)
    requires h !in s.procs && IsCreation(cmd)
    ensures Leads(env, s, h, cmd, now, p)
  {
    hide FromString, RequestCheck;
    p := Some(Creation(cmd));
    Gone(s, h, Started(cmd), Ready(Creation(cmd), now));
  }

  lemma ExchangeLeads(env: Env, s: Sys, h: nat, cmd: Command, now: int) returns (p: Option<Pending>)
    requires h !in s.procs && cmd.ExchangeCode?
    ensures Leads(env, s, h, cmd, now, p)
  {
    hide IssueTokens, VerifyPkce, AuthenticatedClient;
    AuthenticatedIsStored(env, cmd.clientId, cmd.clientSecret);
    var store := s.store;
    p := None;
    Gone(s, h, Started(cmd), Started(cmd));
    if Digest(cmd.code) in store.codes {
      var code := store.codes[Digest(cmd.code)];
      if code.consentId in store.consents { p := ExchangeOf(env, cmd, code, store.consents[code.consentId], now); }
      Gone(s, h, Started(cmd), CodeRead(cmd, code));
      if p.Some? { Gone(s, h, CodeRead(cmd, code), Ready(p.value, now)); } else { Gone(s, h, CodeRead(cmd, code), Started(cmd)); }
    }
  }

  lemma RefreshComputes(env: Env, s: Store, cmd: Command, now: int, id: Id)
    requires cmd.RefreshTokens? && FindFamilyByHash(s.ledger, Digest(cmd.refreshToken)) == Some(id) && id in s.ledger.families
    ensures var done, p := DoRefreshTokens(env, s, cmd, now), RotationOf(env, cmd, id, s.ledger.families[id], s.consents, now);
            && done.store == (if p.Some? then Commit(env, s, p.value, now) else s)
            && (done.reply.TokensRefreshed? <==> p.Some? && p.value.Rotation?) && (p.Some? ==> p.value.cmd == cmd)
  {
    hide AuthenticatedClient, FindFamilyByHash, RotateFrom, HandleReuse;
  }

  lemma RefreshReads(env: Env, s: Sys, h: nat, cmd: Command, now: int, id: Id)
    requires h !in s.procs && cmd.RefreshTokens? && FindFamilyByHash(s.store.ledger, Digest(cmd.refreshToken)) == Some(id)
    requires id in s.store.ledger.families
    ensures var p := RotationOf(env, cmd, id, s.store.ledger.families[id], s.store.consents, now);
            AfterReads(env, s, h, cmd, now) == if p.Some? then At(s, h, Ready(p.value, now)) else s
  {
    hide RotationOf, FindFamilyByHash;
    var family := s.store.ledger.families[id];
    var p := RotationOf(env, cmd, id, family, s.store.consents, now);
    Gone(s, h, Started(cmd), FamilyRead(cmd, id, family));
    Gone(s, h, FamilyRead(cmd, id, family), if p.Some? then Ready(p.value, now) else Started(cmd));
  }

  lemma RefreshLeads(env: Env, s: Sys, h: nat, cmd: Command, now: int) returns (p: Option<Pending>)
    requires h !in s.procs && cmd.RefreshTokens? && Inv(env, s.store)
    ensures Leads(env, s, h, cmd, now, p)
  {
    hide Inv, AuthenticatedClient, FindFamilyByHash, RotateFamily, HandleReuse, RotationOf, Commit;
    FoundIsStored(env, s.store, cmd);
    var found := FindFamilyByHash(s.store.ledger, Digest(cmd.refreshToken));
    Gone(s, h, Started(cmd), Started(cmd));
    if found.Some? {
      p := RotationOf(env, cmd, found.value, s.store.ledger.families[found.value], s.store.consents, now);
      RefreshComputes(env, s.store, cmd, now, found.value);
      RefreshReads(env, s, h, cmd, now, found.value);
      hide AfterReads, DoRefreshTokens;
    } else {
      p := None;
    }
  }

  lemma FoundIsStored(env: Env, s: Store, cmd: Command)
    requires cmd.RefreshTokens? && Inv(env, s)
    ensures var found := FindFamilyByHash(s.ledger, Digest(cmd.refreshToken)); found.Some? ==> found.value in s.ledger.families
  {
    hide ConsentsInv, RequestsInv, CodesInv, FamiliesInv, AccessInv, LedgerInv, VersionsInv, FindFamilyByHash;
    LookupIsScan(s.ledger, s.nextId, Digest(cmd.refreshToken));
  }

  lemma TokenRevocationLeads(env: Env, s: Sys, h: nat, cmd: Command, now: int) returns (p: Option<Pending>)
    requires h !in s.procs && cmd.RevokeToken? && Inv(env, s.store)
    ensures Leads(env, s, h, cmd, now, p)
  {
    hide ConsentsInv, RequestsInv, CodesInv, FamiliesInv, AccessInv, LedgerInv, VersionsInv, FindFamilyByHash, RevokeFamily;
    if cmd.presented.OpaqueToken? { LookupIsScan(s.store.ledger, s.store.nextId, Digest(cmd.presented.token)); }
    p := TokenRevocationOf(env, s.store, cmd);
    Gone(s, h, Started(cmd), if p.Some? then Ready(p.value, now) else Started(cmd));
  }

  /**
   A handler that runs without interruption is the use case: the same tables whether it goes ahead
   or is refused, and an answer exactly when the use case refreshes.
   */
  lemma UninterruptedIsSerial(env: Env, s: Sys, h: nat, cmd: Command, now: int)
    requires Inv(env, s.store) && h !in s.procs && !cmd.ExpireConsents?
    ensures var done := Execute(env, s.store, cmd, now);
            After(env, s, Whole(h, cmd, now))
            == s.(store := done.store, accepted := if done.reply.TokensRefreshed? then s.accepted + [cmd.refreshToken] else s.accepted)
  {
    hide Execute, Commit, Inv, AfterReads, Keyed, After;
    StoredIsKeyed(env, s.store);
    RefreshedIsRefresh(env, s.store, cmd, now);
    var p;
    match cmd {
      case AuthorizeConsent(_, _, _, _) => p := AuthorizeLeads(env, s, h, cmd, now);
      case ExchangeCode(_, _, _, _, _) => p := ExchangeLeads(env, s, h, cmd, now);
      case RefreshTokens(_, _, _) => p := RefreshLeads(env, s, h, cmd, now);
      case RevokeToken(_, _, _) => p := TokenRevocationLeads(env, s, h, cmd, now);
      case ActivateConsent(_, _) => p := StatusLeads(env, s, h, cmd, now);
      case RevokeConsent(_, _) => p := StatusLeads(env, s, h, cmd, now);
      case _ => p := CreationLeads(env, s, h, cmd, now);
    }
    WholeRuns(env, s, h, cmd, now, p);
  }

  lemma StoredIsKeyed(env: Env, s: Store)
    requires Inv(env, s)
    ensures Keyed(s)
  {
    hide WeakLedger;
    InvIsOk(env, s);
  }

  lemma RefreshedIsRefresh(env: Env, s: Store, cmd: Command, now: int)
    ensures Execute(env, s, cmd, now).reply.TokensRefreshed? ==> cmd.RefreshTokens?
  {
    OtherRepliesIssueNothing(env, s, cmd, now);
  }

  /** A transaction that throws ends its handler, the whole batch for an expiry, and leaves nothing. */
  lemma FailedTransactionEnds(env: Env, s: Sys, h: nat, now: int)
    requires h in s.procs && PendingOf(s.procs[h]).Some?
    ensures Advance(env, s, Move(h, now, false)) == s.(procs := s.procs - {h})
  {
    hide ExpiryOf, Commit;
  }

  function Moves(h: nat, now: int, n: nat): seq<Action> {
    if n == 0 then [] else [Move(h, now, true)] + Moves(h, now, n - 1)
  }

  lemma MoveThen(env: Env, s: Sys, h: nat, now: int, n: nat)
    ensures After(env, s, Moves(h, now, n + 1)) == After(env, Advance(env, s, Move(h, now, true)), Moves(h, now, n))
  {
    hide Advance;
    AfterBoth(env, s, [Move(h, now, true)], Moves(h, now, n));
    OneStep(env, s, Move(h, now, true));
  }

  lemma {:induction false} IdleMoves(env: Env, s: Sys, h: nat, now: int, n: nat)
    requires h !in s.procs
    ensures After(env, s, Moves(h, now, n)) == s
  {
    if n > 0 {
      MoveThen(env, s, h, now, n - 1);
      IdleMoves(env, s, h, now, n - 1);
    }
  }

  ghost predicate DistinctIds(ids: seq<Id>) {
    forall i, j | 0 <= i < j < |ids| :: ids[i] != ids[j]
  }

  lemma {:induction false} LoadedElsewhere(consents: Consents, c: Id, row: ConsentProps, candidates: seq<Id>)
    requires c !in candidates
    ensures Loaded(consents[c := row], candidates) == Loaded(consents, candidates)
  {
    if candidates != [] { LoadedElsewhere(consents, c, row, candidates[1..]); }
  }

  /** One turn over a stored row is one turn of the use case. */
  lemma TurnIsSerial(env: Env, s: Sys, h: nat, row: ConsentProps, rest: seq<ConsentProps>, at: int, now: int)
    requires h !in s.procs && row.id in s.store.consents && s.store.consents[row.id] == row
    ensures var one := ExpireOne(s.store, row.id, at);
            Advance(env, At(s, h, Expiring([row] + rest, at)), Move(h, now, true))
            == At(s.(store := if one.Some? then one.value else s.store), h, Expiring(rest, at))
    ensures var one := ExpireOne(s.store, row.id, at);
            one.Some? ==> exists next: ConsentProps :: next.id == row.id && one.value.consents == s.store.consents[row.id := next]
  {
    hide Expired;
    assert ([row] + rest)[1..] == rest;
    Gone(s, h, Expiring([row] + rest, at), Expiring(rest, at));
    var one := ExpireOne(s.store, row.id, at);
    if one.Some? {
      Gone(s.(store := one.value), h, Expiring([row] + rest, at), Expiring(rest, at));
      assert Expired(row, at).value.id == row.id by { ExpiredKeepsId(row, at); }
    }
  }

  lemma ExpiredKeepsId(row: ConsentProps, at: int)
    ensures Expired(row, at).Ok? ==> Expired(row, at).value.id == row.id
  {
  }

  lemma {:induction false} ExpiringRuns(env: Env, s: Sys, h: nat, candidates: seq<Id>, now: int, n: nat)
    requires h !in s.procs && DistinctIds(candidates) && n > |Loaded(s.store.consents, candidates)|
    requires forall c | c in s.store.consents :: s.store.consents[c].id == c
    ensures After(env, At(s, h, Expiring(Loaded(s.store.consents, candidates), now)), Moves(h, now, n))
            == s.(store := DoExpireConsents(s.store, candidates, now).store)
    decreases |candidates|
  {
    hide After, ExpireOne, Advance;
    var from := At(s, h, Expiring(Loaded(s.store.consents, candidates), now));
    if candidates == [] {
      MoveThen(env, from, h, now, n - 1);
      EndOfBatch(env, s, h, now);
      IdleMoves(env, s, h, now, n - 1);
    } else {
      var id, rest := candidates[0], candidates[1..];
      assert forall i, j | 0 <= i < j < |rest| :: rest[i] == candidates[i + 1] && rest[j] == candidates[j + 1];
      assert id !in rest;
      var one := ExpireOne(s.store, id, now);
      if id in s.store.consents {
        MoveThen(env, from, h, now, n - 1);
        TurnIsSerial(env, s, h, s.store.consents[id], Loaded(s.store.consents, rest), now, now);
        if one.Some? {
          var next: ConsentProps :| next.id == id && one.value.consents == s.store.consents[id := next];
          LoadedElsewhere(s.store.consents, id, next, rest);
          ExpiringRuns(env, s.(store := one.value), h, rest, now, n - 1);
        } else {
          ExpiringRuns(env, s, h, rest, now, n - 1);
        }
      } else {
        AbsentIsSkipped(s.store, id, now);
        assert Loaded(s.store.consents, candidates) == Loaded(s.store.consents, rest);
        ExpiringRuns(env, s, h, rest, now, n);
      }
    }
  }

  lemma AbsentIsSkipped(s: Store, id: Id, now: int)
    requires id !in s.consents
    ensures ExpireOne(s, id, now) == None
  {
  }

  lemma EndOfBatch(env: Env, s: Sys, h: nat, now: int)
    requires h !in s.procs
    ensures Advance(env, At(s, h, Expiring([], now)), Move(h, now, true)) == s
  {
    Gone(s, h, Expiring([], now), Started(ExpireConsents([])));
  }

  /** The same for the expiry batch over distinct candidates: one move per candidate, after the load and before the end. */
  lemma UninterruptedExpiryIsSerial(env: Env, s: Sys, h: nat, candidates: seq<Id>, now: int)
    requires Inv(env, s.store) && h !in s.procs && DistinctIds(candidates)
    ensures After(env, s, [Start(h, ExpireConsents(candidates))] + Moves(h, now, |candidates| + 2))
            == s.(store := Execute(env, s.store, ExpireConsents(candidates), now).store)
  {
    hide After, DoExpireConsents, Inv, Loaded, WeakLedger, Moves;
    StoredIsKeyed(env, s.store);
    var cmd, rows := ExpireConsents(candidates), Loaded(s.store.consents, candidates);
    AfterBoth(env, s, [Start(h, cmd)], Moves(h, now, |candidates| + 2));
    OneStep(env, s, Start(h, cmd));
    MoveThen(env, At(s, h, Started(cmd)), h, now, |candidates| + 1);
    Gone(s, h, Started(cmd), Expiring(rows, now));
    AtMostLoaded(s.store.consents, candidates);
    ExpiringRuns(env, s, h, candidates, now, |candidates| + 1);
  }

  lemma {:induction false} AtMostLoaded(consents: Consents, candidates: seq<Id>)
    ensures |Loaded(consents, candidates)| <= |candidates|
  {
    if candidates != [] { AtMostLoaded(consents, candidates[1..]); }
  }
}
