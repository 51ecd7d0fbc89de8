/**
 Runs in which transactions do not find the rows they were computed from: a refresh token is
 answered twice, a request granted and a code exchanged twice, a revocation undone, a version
 gap left.
 */
module IdentityRaceRuns {
  import opened Basics
  import opened ScopeSets
  import opened ConsentMachine
  import opened IdentityStore
  import opened IdentityUseCases
  import opened RefreshLedger
  import opened IdentityInvariants
  import opened IdentityTheorems
  import opened IdentityRaces
  import opened IdentityRaceTheorems
  import opened IdentityRaceSingleUse
  import opened IdentityRaceSerial

  // ---------------------------------------------------------------- two refreshes of one token

  /** Up to its transaction, a refresh that the stored rows allow. */
  lemma RefreshReadied(env: Env, s: Sys, h: nat, cmd: Command, now: int) returns (p: Pending)
    requires h !in s.procs && cmd.RefreshTokens? && DoRefreshTokens(env, s.store, cmd, now).reply.TokensRefreshed?
    ensures p.Rotation? && p.cmd == cmd && p.family.consentId in s.store.consents
    ensures FindFamilyByHash(s.store.ledger, Digest(cmd.refreshToken)) == Some(p.familyId)
    ensures p.familyId in s.store.ledger.families && p.family == s.store.ledger.families[p.familyId]
    ensures After(env, s, Whole(h, cmd, now)[..3]) == At(s, h, Ready(p, now))
  {
    hide After, AuthenticatedClient, RotateFrom;
    var id := FindFamilyByHash(s.store.ledger, Digest(cmd.refreshToken)).value;
    var family := s.store.ledger.families[id];
    p := RotationOf(env, cmd, id, family, s.store.consents, now).value;
    var w := Whole(h, cmd, now);
    ThreeSteps(env, s, w[0], w[1], w[2]);
    assert w[..3] == [w[0], w[1], w[2]];
    Gone(s, h, Started(cmd), FamilyRead(cmd, id, family));
    Gone(s, h, FamilyRead(cmd, id, family), Ready(p, now));
  }

  /** Two handlers read, then both commit. */
  function TwoReaders(h: nat, k: nat, cmd: Command, now: int): seq<Action> {
    Whole(h, cmd, now)[..3] + Whole(k, cmd, now)[..3] + [Move(h, now, true)] + [Move(k, now, true)]
  }

  /** Two rotations computed from the same row of a family: both new rows have its next generation. */
  lemma SecondRotationRepeats(env: Env, s: Store, p: Pending, q: Pending, now: int)
    requires p.Rotation? && q.Rotation? && q.familyId == p.familyId && q.family == p.family && p.familyId in s.ledger.families
    ensures var rows := Commit(env, Commit(env, s, p, now), q, now).ledger.rows; var n, next := s.nextId, p.family.generation + 1;
            IsNewRow(rows, n, p.familyId, next) && IsNewRow(rows, n + 5, p.familyId, next)
  {
  }

  ghost predicate IsNewRow(rows: map<Digest<Opaque>, TokenRow>, n: Id, id: Id, generation: int) {
    var hash := Digest(Opaque(n, n + 1));
    hash in rows && rows[hash].familyId == id && rows[hash].generation == generation
  }

  /** Wherever a refresh would be accepted, two that read before either commits are both answered, with rows of one generation. */
  lemma TwoReadersBothAnswered(env: Env, s: Sys, h: nat, k: nat, cmd: Command, now: int)
    requires h !in s.procs && k !in s.procs && h != k && cmd.RefreshTokens?
    requires DoRefreshTokens(env, s.store, cmd, now).reply.TokensRefreshed?
    ensures var t := After(env, s, TwoReaders(h, k, cmd, now));
            && t.accepted == s.accepted + [cmd.refreshToken, cmd.refreshToken]
            && exists id, generation ::
                 IsNewRow(t.store.ledger.rows, s.store.nextId, id, generation)
                 && IsNewRow(t.store.ledger.rows, s.store.nextId + 5, id, generation)
  {
    hide After, Commit, DoRefreshTokens, FindFamilyByHash, IsNewRow;
    var w, v := Whole(h, cmd, now)[..3], Whole(k, cmd, now)[..3];
    var p := RefreshReadied(env, s, h, cmd, now);
    var one := At(s, h, Ready(p, now));
    var q := RefreshReadied(env, one, k, cmd, now);
    AfterBoth(env, s, w, v);
    Extend(env, s, w + v, Move(h, now, true));
    Extend(env, s, w + v + [Move(h, now, true)], Move(k, now, true));
    var two := At(one, k, Ready(q, now));
    assert After(env, s, w + v) == two;
    assert Advance(env, two, Move(h, now, true)).accepted == s.accepted + [cmd.refreshToken];
    assert Advance(env, two, Move(h, now, true)).store == Commit(env, s.store, p, now);
    SecondRotationRepeats(env, s.store, p, q, now);
  }

  /** A refresh that read before the family was locked is answered all the same. */
  lemma LockedFamilyStillAnswered(env: Env, s: Sys, h: nat, k: nat, now: int)
    requires RaceInv(s) && h in s.procs && k in s.procs && h != k
    requires s.procs[h].Ready? && s.procs[h].pending.Rotation? && s.procs[k].Ready? && s.procs[k].pending.Reuse?
    requires s.procs[h].pending.familyId == s.procs[k].pending.familyId
    ensures s.procs[h].pending.cmd.RefreshTokens?
    ensures var locked := Advance(env, s, Move(k, now, true)); var id := s.procs[h].pending.familyId;
            && id in locked.store.ledger.families && IsFamilyRevoked(locked.store.ledger.families[id])
            && Advance(env, locked, Move(h, now, true)).accepted == s.accepted + [s.procs[h].pending.cmd.refreshToken]
  {
    hide StoreOk, AcceptedOk, RotateFrom;
    assert ProcOk(s.store, s.procs[h]) && ProcOk(s.store, s.procs[k]);
  }

  // ---------------------------------------------------------------- two exchanges of one code

  /** Up to its transaction, an exchange that the stored rows allow. */
  lemma ExchangeReadied(env: Env, s: Sys, h: nat, cmd: Command, now: int) returns (p: Pending)
    requires h !in s.procs && cmd.ExchangeCode? && DoExchangeCode(env, s.store, cmd, now).reply.TokensIssued?
    ensures Digest(cmd.code) in s.store.codes && s.store.codes[Digest(cmd.code)].consentId in s.store.consents
    ensures var code := s.store.codes[Digest(cmd.code)]; var read := s.store.consents[code.consentId];
            && p.Exchange? && p.cmd == cmd && p.code == code && p.read == read && p.next.id == read.id
            && p.next.version == (if read.status == AUTHORIZED then read.version + 1 else read.version)
    ensures After(env, s, Whole(h, cmd, now)[..3]) == At(s, h, Ready(p, now))
  {
    hide After, IssueTokens, VerifyPkce, AuthenticatedClient;
    var code := s.store.codes[Digest(cmd.code)];
    p := ExchangeOf(env, cmd, code, s.store.consents[code.consentId], now).value;
    var w := Whole(h, cmd, now);
    ThreeSteps(env, s, w[0], w[1], w[2]);
    assert w[..3] == [w[0], w[1], w[2]];
    Gone(s, h, Started(cmd), CodeRead(cmd, code));
    Gone(s, h, CodeRead(cmd, code), Ready(p, now));
  }

  /** Wherever an exchange would hand out a refresh token, two that read before either commits leave two families. */
  lemma TwoExchangersBothServed(env: Env, s: Sys, h: nat, k: nat, cmd: Command, now: int)
    requires h !in s.procs && k !in s.procs && h != k && cmd.ExchangeCode? && Keyed(s.store)
    requires var reply := DoExchangeCode(env, s.store, cmd, now).reply; reply.TokensIssued? && reply.refreshToken.Some?
    ensures Digest(cmd.code) in s.store.codes
    ensures var families := After(env, s, TwoReaders(h, k, cmd, now)).store.ledger.families;
            var n, c := s.store.nextId, s.store.codes[Digest(cmd.code)].consentId;
            && n + 3 in families && n + 10 in families && families[n + 3].consentId == c && families[n + 10].consentId == c
            && !IsFamilyRevoked(families[n + 3]) && !IsFamilyRevoked(families[n + 10])
    ensures !RowUnchanged(After(env, s, TwoReaders(h, k, cmd, now)[..7]), Move(k, now, true))
  {
    hide After, DoExchangeCode, Commit, FindsWhatItRead;
    var w, v := Whole(h, cmd, now)[..3], Whole(k, cmd, now)[..3];
    var p := ExchangeReadied(env, s, h, cmd, now);
    OfflineIssued(env, s.store, cmd, now);
    var one := At(s, h, Ready(p, now));
    var q := ExchangeReadied(env, one, k, cmd, now);
    AfterBoth(env, s, w, v);
    Extend(env, s, w + v, Move(h, now, true));
    Extend(env, s, w + v + [Move(h, now, true)], Move(k, now, true));
    var two := At(one, k, Ready(q, now));
    assert After(env, s, w + v) == two;
    assert Advance(env, two, Move(h, now, true)).store == Commit(env, s.store, p, now);
    assert TwoReaders(h, k, cmd, now)[..7] == w + v + [Move(h, now, true)];
    SecondExchangeIssues(env, s.store, p, q, now);
  }

  /** Two exchanges computed from the same unused code: the second finds it used and leaves a family of its own. */
  lemma SecondExchangeIssues(env: Env, s: Store, p: Pending, q: Pending, now: int)
    requires p.Exchange? && q.Exchange? && p.cmd.ExchangeCode? && q.cmd == p.cmd && Digest(p.cmd.code) in s.codes
    requires p.code == s.codes[Digest(p.cmd.code)] && q.code == p.code && p.code.usedAt == None && OFFLINE_ACCESS in p.code.scopes
    requires p.next.id == p.code.consentId && q.next.id == p.code.consentId
    ensures var first := Commit(env, s, p, now); var families := Commit(env, first, q, now).ledger.families; var n := s.nextId;
            && !FindsWhatItRead(first, q)
            && n + 3 in families && n + 10 in families
            && families[n + 3].consentId == p.code.consentId && families[n + 10].consentId == p.code.consentId
            && !IsFamilyRevoked(families[n + 3]) && !IsFamilyRevoked(families[n + 10])
  {
    hide IssueTokens;
    IssueTokensTables(env, s, p.next, p.cmd.code, p.code.clientId, now);
    var first := IssueTokens(env, s, p.next, p.cmd.code, p.code.clientId, now);
    IssueTokensTables(env, first, q.next, q.cmd.code, q.code.clientId, now);
  }

  lemma LastRowChanged(env: Env, schedule: seq<Action>)
    requires schedule != [] && !RowUnchanged(After(env, START, schedule[..|schedule| - 1]), schedule[|schedule| - 1])
    ensures !AllRowsUnchanged(env, schedule)
  {
    hide RowUnchanged, After;
  }

  lemma OfflineIssued(env: Env, s: Store, cmd: Command, now: int)
    requires cmd.ExchangeCode?
    requires var reply := DoExchangeCode(env, s, cmd, now).reply; reply.TokensIssued? && reply.refreshToken.Some?
    ensures Digest(cmd.code) in s.codes && OFFLINE_ACCESS in s.codes[Digest(cmd.code)].scopes
    ensures s.codes[Digest(cmd.code)].usedAt == None
  {
    hide IssueTokens, VerifyPkce, AuthenticatedClient;
  }

  // ---------------------------------------------------------------- two grants of one request

  /** Up to its transaction, a grant that the stored rows allow. */
  lemma GrantReadied(env: Env, s: Sys, h: nat, cmd: Command, now: int) returns (p: Pending)
    requires h !in s.procs && cmd.AuthorizeConsent? && DoAuthorizeConsent(s.store, cmd, now).reply.ConsentAuthorized?
    requires s.store.consents[cmd.consentId].id == cmd.consentId
    ensures FindOpenRequest(s.store, cmd.consentId).Some?
    ensures p.Grant? && p.requestId == FindOpenRequest(s.store, cmd.consentId).value && p.request == s.store.requests[p.requestId]
    ensures p.next.id == cmd.consentId
    ensures After(env, s, Whole(h, cmd, now)[..3]) == At(s, h, Ready(p, now))
  {
    hide After, FromString, IssueCode;
    var row := s.store.consents[cmd.consentId];
    var r := FindOpenRequest(s.store, cmd.consentId).value;
    p := GrantOf(cmd, row, r, s.store.requests[r], now).value;
    var w := Whole(h, cmd, now);
    ThreeSteps(env, s, w[0], w[1], w[2]);
    assert w[..3] == [w[0], w[1], w[2]];
    Gone(s, h, Started(cmd), ConsentRead(cmd, row));
    Gone(s, h, ConsentRead(cmd, row), Ready(p, now));
  }

  /** Wherever a grant would be accepted, two that read before either commits leave two codes. */
  lemma TwoGrantersBothServed(env: Env, s: Sys, h: nat, k: nat, cmd: Command, now: int)
    requires h !in s.procs && k !in s.procs && h != k && cmd.AuthorizeConsent?
    requires DoAuthorizeConsent(s.store, cmd, now).reply.ConsentAuthorized? && s.store.consents[cmd.consentId].id == cmd.consentId
    ensures var codes := After(env, s, TwoReaders(h, k, cmd, now)).store.codes; var n := s.store.nextId;
            && Digest(n) in codes && Digest(n + 2) in codes
            && codes[Digest(n)].consentId == cmd.consentId && codes[Digest(n + 2)].consentId == cmd.consentId
    ensures !RowUnchanged(After(env, s, TwoReaders(h, k, cmd, now)[..7]), Move(k, now, true))
  {
    hide After, DoAuthorizeConsent, Commit, FindsWhatItRead, FindOpenRequest;
    var w, v := Whole(h, cmd, now)[..3], Whole(k, cmd, now)[..3];
    var p := GrantReadied(env, s, h, cmd, now);
    var one := At(s, h, Ready(p, now));
    var q := GrantReadied(env, one, k, cmd, now);
    AfterBoth(env, s, w, v);
    Extend(env, s, w + v, Move(h, now, true));
    Extend(env, s, w + v + [Move(h, now, true)], Move(k, now, true));
    var two := At(one, k, Ready(q, now));
    assert After(env, s, w + v) == two;
    assert Advance(env, two, Move(h, now, true)).store == Commit(env, s.store, p, now);
    assert TwoReaders(h, k, cmd, now)[..7] == w + v + [Move(h, now, true)];
    SecondGrantIssues(env, s.store, p, q, now);
  }

  /** Two grants computed from the same open request: the second finds it consumed and issues a code of its own. */
  lemma SecondGrantIssues(env: Env, s: Store, p: Pending, q: Pending, now: int)
    requires p.Grant? && q.Grant? && q.requestId == p.requestId && p.next.id == q.next.id && p.requestId in s.requests
    requires q.request == s.requests[p.requestId] && q.request.consumedAt == None
    ensures var first := Commit(env, s, p, now); var codes := Commit(env, first, q, now).codes; var n := s.nextId;
            && !FindsWhatItRead(first, q) && Digest(n) in codes && Digest(n + 2) in codes
            && codes[Digest(n)].consentId == p.next.id && codes[Digest(n + 2)].consentId == p.next.id
  {
  }

  // ---------------------------------------------------------------- from empty tables

  const ONE_SCOPE: set<Scope> := {OFFLINE_ACCESS}
  const CLIENT := Client("C", "app", None, {"authorization_code"}, {"https://app/cb"}, ONE_SCOPE, false, false, true)
  const WORLD := Env(map["app" := CLIENT], map["bank" := true], (text: string) => text, 60)

  ghost function Asking(): Command {
    CreateAuthorizationRequest("app", "user", "bank", AsString(ONE_SCOPE), "purpose", "https://app/cb", Some("x"), Some("plain"))
  }

  ghost function Granting(): Command {
    AuthorizeConsent(0, "user", {}, AsString(ONE_SCOPE))
  }

  function Swapping(): Command {
    ExchangeCode("app", None, 3, "https://app/cb", Some("x"))
  }

  lemma ScopeTextReads()
    ensures FromString(AsString(ONE_SCOPE)) == Some(ONE_SCOPE)
  {
    assert ValidScope(OFFLINE_ACCESS);
    ParsePrinted(ONE_SCOPE);
  }

  lemma WorldOk()
    ensures EnvOk(WORLD)
  {
  }

  lemma Asked()
    ensures var s := Execute(WORLD, EMPTY, Asking(), 0).store;
            && s.nextId == 3 && s.codes == map[] && s.requests.Keys == {1} && s.consents.Keys == {0}
            && s.consents[0].id == 0 && s.consents[0].userId == "user" && s.consents[0].clientId == "C"
            && s.consents[0].status == AWAITING_AUTHORIZATION && s.consents[0].requestedScopes == ONE_SCOPE
            && s.consents[0].version == 2
            && s.requests[1].consentId == 0 && s.requests[1].consumedAt == None && s.requests[1].expiresAt == AUTH_REQUEST_TTL_MS
            && s.requests[1].redirectUri == "https://app/cb" && s.requests[1].challenge == "x"
            && s.requests[1].challengeMethod == "plain"
  {
    hide FromString;
    ScopeTextReads();
  }

  lemma Granted()
    ensures var s := Execute(WORLD, EMPTY, Asking(), 0).store; var done := DoAuthorizeConsent(s, Granting(), 0); var t := done.store;
            && done.reply.ConsentAuthorized? && 0 in s.consents && s.consents[0].id == 0
            && t.consents.Keys == {0} && t.consents[0].status == AUTHORIZED && t.consents[0].id == 0 && t.consents[0].userId == "user"
            && t.consents[0].version == 3
            && Digest(3) in t.codes && t.codes[Digest(3)].usedAt == None && t.codes[Digest(3)].expiresAt == AUTH_CODE_TTL_MS
            && t.codes[Digest(3)].clientId == "C" && t.codes[Digest(3)].consentId == 0 && t.codes[Digest(3)].scopes == ONE_SCOPE
            && t.codes[Digest(3)].redirectUri == "https://app/cb" && t.codes[Digest(3)].challenge == "x"
            && t.codes[Digest(3)].challengeMethod == "plain"
  {
    hide FromString, Execute;
    ScopeTextReads();
    Asked();
    var s := Execute(WORLD, EMPTY, Asking(), 0).store;
    assert IsOpenRequest(s, 1, 0);
    assert FindOpenRequest(s, 0) == Some(1);
  }

  lemma Swapped()
    ensures var s := Execute(WORLD, EMPTY, Asking(), 0).store; var t := DoAuthorizeConsent(s, Granting(), 0).store;
            var done := DoExchangeCode(WORLD, t, Swapping(), 0);
            done.reply.TokensIssued? && done.reply.refreshToken.Some?
  {
    hide FromString, Execute, DoAuthorizeConsent, IssueTokens;
    Granted();
  }

  /** From empty tables, a schedule that grants one request twice and ends with two codes of one consent. */
  lemma SecondCodeIsReachable() returns (schedule: seq<Action>, i: Id, j: Id)
    ensures var codes := After(WORLD, START, schedule).store.codes;
            && Digest(i) in codes && Digest(j) in codes && i != j && codes[Digest(i)].consentId == codes[Digest(j)].consentId
    ensures !AllRowsUnchanged(WORLD, schedule)
  {
    hide After, Execute, DoAuthorizeConsent, FromString, AllRowsUnchanged;
    Granted();
    var s := Execute(WORLD, EMPTY, Asking(), 0).store;
    WholeCreation(WORLD, START, 0, Asking(), 0);
    var first, both := Whole(0, Asking(), 0), TwoReaders(1, 2, Granting(), 0);
    AfterBoth(WORLD, START, first, both);
    AfterBoth(WORLD, START, first, both[..7]);
    TwoGrantersBothServed(WORLD, Sys(s, map[], []), 1, 2, Granting(), 0);
    schedule, i, j := first + both, s.nextId, s.nextId + 2;
    assert schedule[..|schedule| - 1] == first + both[..7];
    LastRowChanged(WORLD, schedule);
  }

  /** From empty tables, a schedule that exchanges one code twice and ends with two live families under one consent. */
  lemma SecondFamilyIsReachable() returns (schedule: seq<Action>, i: Id, j: Id)
    ensures var families := After(WORLD, START, schedule).store.ledger.families;
            && i in families && j in families && i != j && families[i].consentId == families[j].consentId
            && !IsFamilyRevoked(families[i]) && !IsFamilyRevoked(families[j])
    ensures !AllRowsUnchanged(WORLD, schedule)
  {
    hide After, Execute, DoAuthorizeConsent, DoExchangeCode, FromString, AllRowsUnchanged;
    Granted();
    Swapped();
    var s := Execute(WORLD, EMPTY, Asking(), 0).store;
    var t := DoAuthorizeConsent(s, Granting(), 0).store;
    WholeCreation(WORLD, START, 0, Asking(), 0);
    WholeGrant(WORLD, Sys(s, map[], []), 0, Granting(), 0);
    AfterBoth(WORLD, START, Whole(0, Asking(), 0), Whole(0, Granting(), 0));
    var first, both := Whole(0, Asking(), 0) + Whole(0, Granting(), 0), TwoReaders(1, 2, Swapping(), 0);
    InterleavedInv(WORLD, first);
    AfterBoth(WORLD, START, first, both);
    AfterBoth(WORLD, START, first, both[..7]);
    TwoExchangersBothServed(WORLD, Sys(t, map[], []), 1, 2, Swapping(), 0);
    schedule, i, j := first + both, t.nextId + 3, t.nextId + 10;
    assert schedule[..|schedule| - 1] == first + both[..7];
    LastRowChanged(WORLD, schedule);
  }

  /** From empty tables, a schedule in which one refresh token is answered twice. */
  lemma DoubleAnswerIsReachable() returns (schedule: seq<Action>)
    ensures EnvOk(WORLD)
    ensures var accepted := After(WORLD, START, schedule).accepted; |accepted| == 2 && accepted[0] == accepted[1]
    ensures !AllHashesUnchanged(WORLD, schedule)
  {
    hide After, Execute, DoAuthorizeConsent, DoExchangeCode, DoRefreshTokens, FromString, Inv, AllHashesUnchanged, LiveToken;
    WorldOk();
    Granted();
    Swapped();
    var s := Execute(WORLD, EMPTY, Asking(), 0).store;
    var t := DoAuthorizeConsent(s, Granting(), 0).store;
    var done := DoExchangeCode(WORLD, t, Swapping(), 0);
    var refresh := RefreshTokens("app", None, done.reply.refreshToken.value);
    RefreshIsAccepted(refresh);
    WholeCreation(WORLD, START, 0, Asking(), 0);
    WholeGrant(WORLD, Sys(s, map[], []), 0, Granting(), 0);
    WholeExchange(WORLD, Sys(t, map[], []), 0, Swapping(), 0);
    AfterBoth(WORLD, START, Whole(0, Asking(), 0), Whole(0, Granting(), 0));
    AfterBoth(WORLD, START, Whole(0, Asking(), 0) + Whole(0, Granting(), 0), Whole(0, Swapping(), 0));
    var first := Whole(0, Asking(), 0) + Whole(0, Granting(), 0) + Whole(0, Swapping(), 0);
    AfterBoth(WORLD, START, first, TwoReaders(1, 2, refresh, 0));
    TwoReadersBothAnswered(WORLD, Sys(done.store, map[], []), 1, 2, refresh, 0);
    schedule := first + TwoReaders(1, 2, refresh, 0);
    if AllHashesUnchanged(WORLD, schedule) { HashComparisonRestoresSingleUse(WORLD, schedule); }
  }

  lemma RefreshIsAccepted(refresh: Command)
    requires var s := Execute(WORLD, EMPTY, Asking(), 0).store; var t := DoAuthorizeConsent(s, Granting(), 0).store;
             var done := DoExchangeCode(WORLD, t, Swapping(), 0);
             done.reply.TokensIssued? && done.reply.refreshToken.Some?
             && refresh == RefreshTokens("app", None, done.reply.refreshToken.value)
    ensures var s := Execute(WORLD, EMPTY, Asking(), 0).store; var t := DoAuthorizeConsent(s, Granting(), 0).store;
            DoRefreshTokens(WORLD, DoExchangeCode(WORLD, t, Swapping(), 0).store, refresh, 0).reply.TokensRefreshed?
  {
    hide Execute, DoAuthorizeConsent, DoExchangeCode, DoRefreshTokens, Inv, LiveToken;
    var s := Execute(WORLD, EMPTY, Asking(), 0).store;
    var t := DoAuthorizeConsent(s, Granting(), 0).store;
    EmptyInv(WORLD);
    ExecuteKeepsInv(WORLD, EMPTY, Asking(), 0);
    AuthorizeKeeps(WORLD, s, Granting(), 0);
    ExchangeKeeps(WORLD, t, Swapping(), 0);
    ExchangeHandsOver(WORLD, t, Swapping(), 0, 0);
    RefreshAcceptedExactly(WORLD, DoExchangeCode(WORLD, t, Swapping(), 0).store, refresh, 0);
  }

  /** The consent after the exchange: active and its user's. */
  lemma SwappedConsent()
    ensures var s := Execute(WORLD, EMPTY, Asking(), 0).store; var t := DoAuthorizeConsent(s, Granting(), 0).store;
            var u := DoExchangeCode(WORLD, t, Swapping(), 0).store;
            u.consents.Keys == {0} && u.consents[0].id == 0 && u.consents[0].userId == "user" && u.consents[0].status == ACTIVE
            && u.consents[0].version == 4
  {
    hide FromString, Execute, IssueTokens, IssueCode;
    Asked();
    Granted();
    Swapped();
    var t := DoAuthorizeConsent(Execute(WORLD, EMPTY, Asking(), 0).store, Granting(), 0).store;
    IssueTokensTables(WORLD, t, Activated(t.consents[0], 0).value, 3, "C", 0);
  }

  /** From empty tables, a schedule whose last step puts a live token under a consent revoked before it. */
  lemma UndoneRevocationIsReachable() returns (schedule: seq<Action>, a: Action)
    ensures RevokedWithAll(After(WORLD, START, schedule).store, 0)
    ensures !RevokedWithAll(After(WORLD, START, schedule + [a]).store, 0)
  {
    hide After, Execute, DoAuthorizeConsent, DoExchangeCode, DoRefreshTokens, FromString, RevokedWithAll;
    Granted();
    Swapped();
    SwappedConsent();
    var s := Execute(WORLD, EMPTY, Asking(), 0).store;
    var t := DoAuthorizeConsent(s, Granting(), 0).store;
    var done := DoExchangeCode(WORLD, t, Swapping(), 0);
    var refresh, revoke := RefreshTokens("app", None, done.reply.refreshToken.value), RevokeConsent(0, "user");
    RefreshIsAccepted(refresh);
    WholeCreation(WORLD, START, 0, Asking(), 0);
    WholeGrant(WORLD, Sys(s, map[], []), 0, Granting(), 0);
    WholeExchange(WORLD, Sys(t, map[], []), 0, Swapping(), 0);
    var p := RefreshReadied(WORLD, Sys(done.store, map[], []), 1, refresh, 0);
    var one := At(Sys(done.store, map[], []), 1, Ready(p, 0));
    WholeRevocation(WORLD, one, 2, revoke, 0);
    var first := Whole(0, Asking(), 0) + Whole(0, Granting(), 0) + Whole(0, Swapping(), 0);
    AfterBoth(WORLD, START, Whole(0, Asking(), 0), Whole(0, Granting(), 0));
    AfterBoth(WORLD, START, Whole(0, Asking(), 0) + Whole(0, Granting(), 0), Whole(0, Swapping(), 0));
    AfterBoth(WORLD, START, first, Whole(1, refresh, 0)[..3]);
    AfterBoth(WORLD, START, first + Whole(1, refresh, 0)[..3], Whole(2, revoke, 0));
    schedule, a := first + Whole(1, refresh, 0)[..3] + Whole(2, revoke, 0), Move(1, 0, true);
    Extend(WORLD, START, schedule, a);
    UndoneByRefresh(schedule, a, p, done.store.consents[0], 0);
  }

  /**
   From empty tables: an exchange that read before another exchange and a revocation commits
   after both, and takes the consent back below a version the outbox already holds.
   */
  lemma VersionGapIsReachable() returns (schedule: seq<Action>, a: Action)
    ensures var s := After(WORLD, START, schedule).store; VersionsInv(s.outbox, s.consents)
    ensures var s := After(WORLD, START, schedule + [a]).store; !VersionsInv(s.outbox, s.consents)
  {
    hide After, Execute, DoAuthorizeConsent, DoExchangeCode, FromString, VersionsInv, Inv;
    Granted();
    Swapped();
    SwappedConsent();
    var s := Execute(WORLD, EMPTY, Asking(), 0).store;
    var t := DoAuthorizeConsent(s, Granting(), 0).store;
    var u := DoExchangeCode(WORLD, t, Swapping(), 0).store;
    var revoke := RevokeConsent(0, "user");
    WholeCreation(WORLD, START, 0, Asking(), 0);
    WholeGrant(WORLD, Sys(s, map[], []), 0, Granting(), 0);
    var p := ExchangeReadied(WORLD, Sys(t, map[], []), 1, Swapping(), 0);
    var one := At(Sys(t, map[], []), 1, Ready(p, 0));
    WholeExchange(WORLD, one, 2, Swapping(), 0);
    WholeRevocation(WORLD, one.(store := u), 3, revoke, 0);
    var first := Whole(0, Asking(), 0) + Whole(0, Granting(), 0);
    var read := first + Whole(1, Swapping(), 0)[..3];
    AfterBoth(WORLD, START, Whole(0, Asking(), 0), Whole(0, Granting(), 0));
    AfterBoth(WORLD, START, first, Whole(1, Swapping(), 0)[..3]);
    AfterBoth(WORLD, START, read, Whole(2, Swapping(), 0));
    AfterBoth(WORLD, START, read + Whole(2, Swapping(), 0), Whole(3, revoke, 0));
    schedule, a := read + Whole(2, Swapping(), 0) + Whole(3, revoke, 0), Move(1, 0, true);
    Extend(WORLD, START, schedule, a);
    RevokedStoreInv();
    InvVersions(WORLD, After(WORLD, START, schedule).store);
    VersionsKeptExactly(WORLD, schedule, a);
  }

  lemma RevokedStoreInv()
    ensures var s := Execute(WORLD, EMPTY, Asking(), 0).store; var t := DoAuthorizeConsent(s, Granting(), 0).store;
            Inv(WORLD, DoRevokeConsent(DoExchangeCode(WORLD, t, Swapping(), 0).store, RevokeConsent(0, "user"), 0).store)
  {
    hide Execute, DoAuthorizeConsent, DoExchangeCode, DoRevokeConsent, Inv;
    var s := Execute(WORLD, EMPTY, Asking(), 0).store;
    var t := DoAuthorizeConsent(s, Granting(), 0).store;
    EmptyInv(WORLD);
    ExecuteKeepsInv(WORLD, EMPTY, Asking(), 0);
    AuthorizeKeeps(WORLD, s, Granting(), 0);
    ExchangeKeeps(WORLD, t, Swapping(), 0);
    RevokeConsentKeeps(WORLD, DoExchangeCode(WORLD, t, Swapping(), 0).store, RevokeConsent(0, "user"), 0);
  }

  lemma InvVersions(env: Env, s: Store)
    requires Inv(env, s)
    ensures VersionsInv(s.outbox, s.consents)
  {
    hide ConsentsInv, RequestsInv, CodesInv, FamiliesInv, AccessInv, LedgerInv, VersionsInv;
  }

  lemma UndoneByRefresh(schedule: seq<Action>, a: Action, p: Pending, row: ConsentProps, at: int)
    requires var s := After(WORLD, START, schedule);
             && a == Move(1, 0, true) && 1 in s.procs && s.procs[1] == Ready(p, at) && p.Rotation? && p.family.consentId == 0
             && row.id == 0 && Revoked(row, 0).Ok?
    requires exists before: Store :: After(WORLD, START, schedule).store == RevokeEverything(before, Revoked(row, 0).value, 0)
    ensures RevokedWithAll(After(WORLD, START, schedule).store, 0)
    ensures !RevokedWithAll(Advance(WORLD, After(WORLD, START, schedule), a).store, 0)
  {
    hide After, Commit;
    InterleavedInv(WORLD, schedule);
    var s := After(WORLD, START, schedule);
    CommitIsAnchored(s, a);
    OwnUndone(WORLD, s.store, p, at);
  }
}
