/** What holds of the outbox over every schedule of workers, ticks, failures and crashes. */
module OutboxTheorems {
  import opened Basics
  import opened OutboxPublisher

  /** No row is held by two claims at once, and a held row is locked. */
  lemma NoRowHeldTwice(schedule: seq<Action>, t: nat, u: nat, i: nat, j: nat)
    requires var s := After(EMPTY, schedule);
             t in s.ticks && u in s.ticks && i < |s.ticks[t].queue| && j < |s.ticks[u].queue|
    ensures var s := After(EMPTY, schedule); var r := s.ticks[t].queue[i];
            && (r == s.ticks[u].queue[j] ==> t == u && i == j)
            && r in s.rows && s.rows[r].status == PUBLISHING && s.rows[r].lockedBy.Some?
  {
    hide After;
    ReachableInv(schedule);
    var s := After(EMPTY, schedule);
    assert TickOk(s, s.ticks[t]) && RowOk(s.rows[s.ticks[t].queue[i]], s.claimedAt[s.ticks[t].queue[i]], s.now);
    if s.ticks[t].queue[i] == s.ticks[u].queue[j] { assert s.ticks[t].queue[i] in s.ticks[u].queue; }
  }

  /** The attempt counter is the number of claims, and bounds what each status allows. */
  lemma StatusFitsAttempts(schedule: seq<Action>, r: RowId)
    requires r in After(EMPTY, schedule).rows
    ensures var s := After(EMPTY, schedule); var row := s.rows[r];
            && r in s.claimedAt && row.attempts == |s.claimedAt[r]|
            && (row.status == PENDING ==> row.attempts <= 9)
            && (row.status == PUBLISHING || row.status == PUBLISHED ==> 1 <= row.attempts <= 10)
            && (row.status == DEAD_LETTER ==> row.attempts == 10) && row.status != FAILED
            && (row.lockedBy.Some? <==> row.status == PUBLISHING) && (row.publishedAt.Some? <==> row.status == PUBLISHED)
            && (row.status == PUBLISHED ==> r in s.returned)
  {
    hide After, Spaced, TickOk, TicksOk;
    ReachableInv(schedule);
  }

  // ---------------------------------------------------------------- rows nobody can reach any more

  /** The row waits for no claim and no tick holds it. */
  ghost predicate OutOfReach(s: Sys, r: RowId) {
    r in s.rows && s.rows[r].status != PENDING && forall t | t in s.ticks :: r !in s.ticks[t].queue
  }

  lemma FinalIsOutOfReach(s: Sys, r: RowId)
    requires SysInv(s) && r in s.rows && (s.rows[r].status == PUBLISHED || s.rows[r].status == DEAD_LETTER)
    ensures OutOfReach(s, r)
  {
    hide RowOk;
    forall t | t in s.ticks ensures r !in s.ticks[t].queue { assert TickOk(s, s.ticks[t]); }
  }

  lemma StaysOutOfReach(s: Sys, a: Action, r: RowId)
    requires OutOfReach(s, r)
    ensures OutOfReach(Step(s, a), r) && Step(s, a).rows[r] == s.rows[r]
  {
    if (a.Publish? || a.Mark? || a.ReadAttempts? || a.WriteFailure?) && Working(s, a.t) {
      var queue := s.ticks[a.t].queue;
      assert r !in queue && queue[0] != r;
      assert r !in queue[1..];
    }
  }

  lemma {:induction false} AfterTwo(s: Sys, first: seq<Action>, second: seq<Action>)
    ensures After(s, first + second) == After(After(s, first), second)
    decreases |second|
  {
    if second == [] {
      assert first + second == first;
    } else {
      var n := |second| - 1;
      assert (first + second)[..|first + second| - 1] == first + second[..n];
      AfterTwo(s, first, second[..n]);
    }
  }

  lemma {:induction false} OutOfReachForever(s: Sys, schedule: seq<Action>, r: RowId)
    requires OutOfReach(s, r)
    ensures OutOfReach(After(s, schedule), r) && After(s, schedule).rows[r] == s.rows[r]
    decreases |schedule|
  {
    hide Step;
    if schedule != [] {
      hide OutOfReach;
      OutOfReachForever(s, schedule[..|schedule| - 1], r);
      StaysOutOfReach(After(s, schedule[..|schedule| - 1]), schedule[|schedule| - 1], r);
    }
  }

  /** PUBLISHED and DEAD_LETTER are final, whatever runs afterwards. */
  lemma FinalStatuses(first: seq<Action>, second: seq<Action>, r: RowId)
    requires r in After(EMPTY, first).rows
    requires After(EMPTY, first).rows[r].status in {PUBLISHED, DEAD_LETTER}
    ensures r in After(EMPTY, first + second).rows && After(EMPTY, first + second).rows[r] == After(EMPTY, first).rows[r]
  {
    hide After, SysInv;
    ReachableInv(first);
    AfterTwo(EMPTY, first, second);
    FinalIsOutOfReach(After(EMPTY, first), r);
    OutOfReachForever(After(EMPTY, first), second, r);
  }

  /**
   There is no recovery: every row a tick holds when it dies, by a crash or because recording a
   failure failed, stays PUBLISHING and is never claimed or changed again.
   */
  lemma RowsOfADeadTickAreLost(first: seq<Action>, death: Action, second: seq<Action>, r: RowId)
    requires death.Crash? || (death.ReadAttempts? && !death.ok) || (death.WriteFailure? && !death.ok)
    requires var s := After(EMPTY, first);
             death.t in s.ticks && r in s.ticks[death.t].queue && death.t !in Step(s, death).ticks
    ensures var lost := After(EMPTY, first + [death] + second);
            && r in After(EMPTY, first).rows && After(EMPTY, first).rows[r].status == PUBLISHING
            && r in lost.rows && lost.rows[r] == After(EMPTY, first).rows[r]
            && forall t | t in lost.ticks :: r !in lost.ticks[t].queue
  {
    hide After, RowOk;
    ReachableInv(first);
    var s := After(EMPTY, first);
    assert TickOk(s, s.ticks[death.t]);
    AfterTwo(EMPTY, first, [death]);
    AfterTwo(EMPTY, first + [death], second);
    assert After(s, [death]) == Step(s, death) by { OneStep(s, death); }
    assert OutOfReach(Step(s, death), r);
    OutOfReachForever(Step(s, death), second, r);
  }

  lemma OneStep(s: Sys, a: Action)
    ensures After(s, [a]) == Step(s, a)
  {
    assert After(s, [a][..0]) == s;
  }

  // ---------------------------------------------------------------- bounds on claims

  /** The number of times rows of `ids` were claimed. */
  ghost function TotalClaims(claimedAt: map<RowId, seq<int>>, ids: set<RowId>): nat
    requires ids <= claimedAt.Keys
  {
    if ids == {} then 0 else
      var r :| r in ids;
      |claimedAt[r]| + TotalClaims(claimedAt, ids - {r})
  }

  lemma {:induction false} AtMostTenEach(claimedAt: map<RowId, seq<int>>, ids: set<RowId>)
    requires ids <= claimedAt.Keys && forall r | r in ids :: |claimedAt[r]| <= 10
    ensures TotalClaims(claimedAt, ids) <= 10 * |ids|
  {
    if ids != {} {
      var r :| r in ids && TotalClaims(claimedAt, ids) == |claimedAt[r]| + TotalClaims(claimedAt, ids - {r});
      AtMostTenEach(claimedAt, ids - {r});
    }
  }

  /** Any n rows are claimed at most 10 n times in all, however many workers there are. */
  lemma ClaimsBounded(schedule: seq<Action>, ids: set<RowId>)
    requires ids <= After(EMPTY, schedule).rows.Keys
    ensures ids <= After(EMPTY, schedule).claimedAt.Keys
    ensures TotalClaims(After(EMPTY, schedule).claimedAt, ids) <= 10 * |ids|
  {
    hide After, Spaced, TicksOk;
    ReachableInv(schedule);
    AtMostTenEach(After(EMPTY, schedule).claimedAt, ids);
  }

  lemma {:induction false} SpacedFromFirst(times: seq<int>, k: nat)
    requires Spaced(times) && 1 <= k <= |times|
    ensures times[k - 1] >= times[0] + 15_000 * k * (k - 1)
  {
    if k > 1 {
      SpacedFromFirst(times, k - 1);
      assert 15_000 * k * (k - 1) == 15_000 * (k - 1) * (k - 2) + (k - 1) * BACKOFF_MS;
    }
  }

  /**
   Backoff: the k-th claim of a row comes at least 15 k (k - 1) seconds after its first, so a row
   is dead-lettered no sooner than 1350 seconds after its first claim.
   */
  lemma BackoffBound(schedule: seq<Action>, r: RowId, k: nat)
    requires r in After(EMPTY, schedule).rows
    requires var s := After(EMPTY, schedule); r in s.claimedAt && 1 <= k <= |s.claimedAt[r]|
    ensures var s := After(EMPTY, schedule);
            && s.claimedAt[r][k - 1] >= s.claimedAt[r][0] + 15_000 * k * (k - 1)
            && s.claimedAt[r][k - 1] <= s.now
            && (s.rows[r].status == DEAD_LETTER ==> |s.claimedAt[r]| == 10 && s.now >= s.claimedAt[r][0] + 1_350_000)
  {
    hide After, TicksOk, Spaced, RowOk;
    ReachableInv(schedule);
    var s := After(EMPTY, schedule);
    var times := s.claimedAt[r];
    ClaimFacts(s.rows[r], times, s.now);
    SpacedFromFirst(times, k);
    SpacedFromFirst(times, |times|);
    Ascending(times, k - 1);
    if |times| == 10 { assert 15_000 * 10 * (10 - 1) == 1_350_000; }
  }

  /**
   And not much later: a row put back after its k-th claim waits 30 k seconds from when its failure
   was handled, so it is due no later than 30 k seconds from now.
   */
  lemma RetryIsDueBy(schedule: seq<Action>, r: RowId)
    requires r in After(EMPTY, schedule).rows
    requires After(EMPTY, schedule).rows[r].status == PENDING && After(EMPTY, schedule).rows[r].attempts >= 1
    ensures var s := After(EMPTY, schedule); var row := s.rows[r]; var k := row.attempts;
            && k <= 9 && r in s.claimedAt && |s.claimedAt[r]| == k
            && s.claimedAt[r][k - 1] + 30_000 * k <= row.nextAttemptAt <= s.now + 30_000 * k
  {
    hide After, TicksOk, Spaced;
    ReachableInv(schedule);
  }

  // ---------------------------------------------------------------- what one step does to a row

  /** A new event's row waits from its timestamp on; an id that is taken changes nothing. */
  lemma EnqueueExactly(s: Sys, id: RowId, timestamp: int)
    ensures Step(s, Enqueue(id, timestamp)).rows
            == if id in s.rows then s.rows else s.rows[id := Row(PENDING, 0, timestamp, timestamp, None, None, None, None)]
  {
  }

  /** A batch can be claimed exactly when it has 1 to 50 different rows that are PENDING and due; then it is locked and counted. */
  lemma ClaimExactly(s: Sys, t: nat, worker: string, batch: seq<RowId>)
    requires t !in s.ticks
    ensures var e := Step(s, Claim(t, worker, batch));
            if && 1 <= |batch| <= 50 && (forall i, j | 0 <= i < j < |batch| :: batch[i] != batch[j])
               && (forall i | 0 <= i < |batch| ::
                     batch[i] in s.rows && s.rows[batch[i]].status == PENDING && s.rows[batch[i]].nextAttemptAt <= s.now)
            then && t in e.ticks && e.ticks[t] == Tick(batch, Publishing) && e.rows.Keys == s.rows.Keys && e.now == s.now
                 && forall r | r in s.rows :: e.rows[r]
                      == if r in batch then s.rows[r].(status := PUBLISHING, attempts := s.rows[r].attempts + 1,
                                                       lockedAt := Some(s.now), lockedBy := Some(worker))
                         else s.rows[r]
            else e == s
  {
  }

  /** The row of a tick whose publish and update both return is PUBLISHED and unlocked. */
  lemma DeliveryExactly(s: Sys, t: nat)
    requires Working(s, t) && s.ticks[t].phase.Marking?
    ensures var e, r := Step(s, Mark(t, None)), s.ticks[t].queue[0];
            e.rows == s.rows[r := s.rows[r].(status := PUBLISHED, publishedAt := Some(s.now), lockedAt := None, lockedBy := None,
                                             lastError := None)]
  {
  }

  /**
   Over every schedule: the row whose failure is recorded is dead-lettered at its tenth attempt and
   put back before, unlocked, with the message and a delay of 30 seconds per attempt.
   */
  lemma FailureExactly(schedule: seq<Action>, t: nat)
    requires Working(After(EMPTY, schedule), t) && After(EMPTY, schedule).ticks[t].phase.ReadingAttempts?
    ensures var s, e := After(EMPTY, schedule), After(EMPTY, schedule + [ReadAttempts(t, true), WriteFailure(t, true)]);
            var r := s.ticks[t].queue[0]; var row := s.rows[r];
            e.rows == s.rows[r := row.(status := if row.attempts == 10 then DEAD_LETTER else PENDING, lockedAt := None, lockedBy := None,
                                       lastError := Some(s.ticks[t].phase.message), nextAttemptAt := s.now + 30_000 * row.attempts)]
  {
    hide After, SysInv;
    ReachableInv(schedule);
    var s := After(EMPTY, schedule);
    AtMostTen(s, t);
    AfterTwo(EMPTY, schedule, [ReadAttempts(t, true), WriteFailure(t, true)]);
    AfterTwo(s, [ReadAttempts(t, true)], [WriteFailure(t, true)]);
    assert [ReadAttempts(t, true)] + [WriteFailure(t, true)] == [ReadAttempts(t, true), WriteFailure(t, true)];
    OneStep(s, ReadAttempts(t, true));
    OneStep(Step(s, ReadAttempts(t, true)), WriteFailure(t, true));
  }

  lemma AtMostTen(s: Sys, t: nat)
    requires SysInv(s) && Working(s, t)
    ensures s.rows[s.ticks[t].queue[0]].attempts <= 10
  {
    hide Spaced, TickOk;
    WorkingOk(s, t);
  }

  lemma ClaimFacts(row: Row, times: seq<int>, now: int)
    requires RowOk(row, times, now)
    ensures Spaced(times) && (times != [] ==> times[|times| - 1] <= now) && (row.status == DEAD_LETTER ==> |times| == 10)
  {
    hide Spaced;
  }

  lemma {:induction false} Ascending(times: seq<int>, i: nat)
    requires Spaced(times) && i < |times|
    ensures times[i] <= times[|times| - 1]
    decreases |times| - i
  {
    if i + 1 < |times| {
      Ascending(times, i + 1);
      assert times[i + 1] >= times[i] + (i + 1) * BACKOFF_MS;
    }
  }
}
