/**
 The publisher as the program runs it: a table updated in place and the loop over a claimed
 batch. One undisturbed tick is proved to be a schedule of the state machine, so everything
 proved of schedules holds of it.
 */
module OutboxPlatform {
  import opened Basics
  import opened OutboxPublisher
  import opened OutboxTheorems

  /** What happens to one row: the time it takes, and which of the calls throw. */
  datatype Outcome = Outcome(elapsed: nat, publishError: Option<string>, markError: Option<string>, readOk: bool, writeOk: bool) {
    predicate Fails() {
      publishError.Some? || markError.Some?
    }

    /** Recording the failure itself fails, which ends the tick. */
    predicate Throws() {
      Fails() && !(readOk && writeOk)
    }

    function Message(): string {
      if publishError.Some? then publishError.value else if markError.Some? then markError.value else ""
    }

    /** The steps of the state machine that record a failure, and all steps for the row. */
    function FailureActions(t: nat): seq<Action> {
      if !readOk then [ReadAttempts(t, false)] else [ReadAttempts(t, true), WriteFailure(t, writeOk)]
    }

    function FirstActions(t: nat): seq<Action> {
      [Advance(elapsed), Publish(t, publishError)] + (if publishError.None? then [Mark(t, markError)] else [])
    }

    function Actions(t: nat): seq<Action> {
      FirstActions(t) + if Fails() then FailureActions(t) else []
    }
  }

  function Settled(row: Row, o: Outcome, now: int): Row {
    if o.Fails() then Failed(row, row.attempts, now + Delay(row.attempts), o.Message()) else Delivered(row, now)
  }

  /** Time passes, and the publish call may return. */
  function Later(s: Sys, r: RowId, o: Outcome): Sys {
    s.(now := s.now + o.elapsed, returned := if o.publishError.None? then s.returned + {r} else s.returned)
  }

  lemma Unfold(s: Sys, first: seq<Action>, a: Action)
    ensures After(s, first + [a]) == Step(After(s, first), a)
  {
    AfterTwo(s, first, [a]);
    OneStep(After(s, first), a);
  }

  /** Ending a tick or moving it to its next row forgets the phase it was in. */
  lemma PhaseForgotten(s: Sys, t: nat, tick: Tick, other: Tick, queue: seq<RowId>)
    requires queue != []
    ensures Ended(At(s, t, tick), t) == Ended(s, t) && At(At(s, t, tick), t, other) == At(s, t, other)
    ensures NextRow(At(s, t, tick), t, queue) == NextRow(s, t, queue)
  {
    assert s.ticks[t := tick] - {t} == s.ticks - {t};
  }

  /** Each step of a tick, from any phase it may have been put in. */
  lemma PublishStep(s: Sys, t: nat, queue: seq<RowId>, error: Option<string>)
    requires queue != [] && queue[0] in s.rows
    ensures Step(At(s, t, Tick(queue, Publishing)), Publish(t, error))
            == match error
               case None => At(s.(returned := s.returned + {queue[0]}), t, Tick(queue, Marking))
               case Some(message) => At(s, t, Tick(queue, ReadingAttempts(message)))
  {
    assert s.ticks[t := Tick(queue, Publishing)][t := Tick(queue, Marking)] == s.ticks[t := Tick(queue, Marking)];
  }

  lemma MarkStep(s: Sys, t: nat, queue: seq<RowId>, error: Option<string>)
    requires queue != [] && queue[0] in s.rows
    ensures Step(At(s, t, Tick(queue, Marking)), Mark(t, error))
            == match error
               case None => NextRow(s.(rows := s.rows[queue[0] := Delivered(s.rows[queue[0]], s.now)]), t, queue)
               case Some(message) => At(s, t, Tick(queue, ReadingAttempts(message)))
  {
    hide Delivered;
    var done := s.(rows := s.rows[queue[0] := Delivered(s.rows[queue[0]], s.now)]);
    PhaseForgotten(done, t, Tick(queue, Marking), Tick(queue, Marking), queue);
  }

  lemma ReadAttemptsStep(s: Sys, t: nat, queue: seq<RowId>, message: string, ok: bool)
    requires queue != [] && queue[0] in s.rows
    ensures var attempts := s.rows[queue[0]].attempts;
            Step(At(s, t, Tick(queue, ReadingAttempts(message))), ReadAttempts(t, ok))
            == if ok then At(s, t, Tick(queue, WritingFailure(message, attempts, s.now + Delay(attempts)))) else Ended(s, t)
  {
    hide Delay;
    var tick := Tick(queue, ReadingAttempts(message));
    PhaseForgotten(s, t, tick, tick, queue);
  }

  lemma WriteFailureStep(s: Sys, t: nat, queue: seq<RowId>, message: string, attempts: nat, at: int, ok: bool)
    requires queue != [] && queue[0] in s.rows
    ensures Step(At(s, t, Tick(queue, WritingFailure(message, attempts, at))), WriteFailure(t, ok))
            == if ok then NextRow(s.(rows := s.rows[queue[0] := Failed(s.rows[queue[0]], attempts, at, message)]), t, queue)
               else Ended(s, t)
  {
    hide Failed;
    var tick := Tick(queue, WritingFailure(message, attempts, at));
    PhaseForgotten(s, t, tick, tick, queue);
    PhaseForgotten(s.(rows := s.rows[queue[0] := Failed(s.rows[queue[0]], attempts, at, message)]), t, tick, tick, queue);
  }

  lemma FailureSteps(s: Sys, t: nat, queue: seq<RowId>, o: Outcome)
    requires queue != [] && queue[0] in s.rows
    ensures var r := queue[0]; var row := s.rows[r];
            After(At(s, t, Tick(queue, ReadingAttempts(o.Message()))), o.FailureActions(t))
            == if !(o.readOk && o.writeOk) then Ended(s, t)
               else NextRow(s.(rows := s.rows[r := Failed(row, row.attempts, s.now + Delay(row.attempts), o.Message())]), t, queue)
  {
    hide After, Delay, Failed, Step, NextRow, At, Ended, Outcome.Message;
    var from := At(s, t, Tick(queue, ReadingAttempts(o.Message())));
    OneStep(from, ReadAttempts(t, o.readOk));
    ReadAttemptsStep(s, t, queue, o.Message(), o.readOk);
    if o.readOk {
      Unfold(from, [ReadAttempts(t, true)], WriteFailure(t, o.writeOk));
      assert [ReadAttempts(t, true)] + [WriteFailure(t, o.writeOk)] == o.FailureActions(t);
      var attempts := s.rows[queue[0]].attempts;
      WriteFailureStep(s, t, queue, o.Message(), attempts, s.now + Delay(attempts), o.writeOk);
    }
  }

  /** Up to the point where the row is delivered, or its failure has to be recorded. */
  lemma FirstSteps(s: Sys, t: nat, queue: seq<RowId>, o: Outcome)
    requires queue != [] && queue[0] in s.rows
    ensures var later := Later(s, queue[0], o);
            After(At(s, t, Tick(queue, Publishing)), o.FirstActions(t))
            == if o.Fails() then At(later, t, Tick(queue, ReadingAttempts(o.Message())))
               else NextRow(later.(rows := s.rows[queue[0] := Delivered(s.rows[queue[0]], later.now)]), t, queue)
  {
    hide After, Delivered, NextRow;
    var from := At(s, t, Tick(queue, Publishing));
    var on := s.(now := s.now + o.elapsed);
    OneStep(from, Advance(o.elapsed));
    assert Step(from, Advance(o.elapsed)) == At(on, t, Tick(queue, Publishing));
    hide Step, At;
    Unfold(from, [Advance(o.elapsed)], Publish(t, o.publishError));
    assert [Advance(o.elapsed)] + [Publish(t, o.publishError)] == o.FirstActions(t)[..2];
    PublishStep(on, t, queue, o.publishError);
    if o.publishError.None? {
      Unfold(from, o.FirstActions(t)[..2], Mark(t, o.markError));
      assert o.FirstActions(t)[..2] + [Mark(t, o.markError)] == o.FirstActions(t);
      MarkStep(on.(returned := on.returned + {queue[0]}), t, queue, o.markError);
    } else {
      assert o.FirstActions(t)[..2] == o.FirstActions(t);
    }
  }

  /** The steps of one row, put together. */
  lemma RowSteps(s: Sys, t: nat, o: Outcome)
    requires Working(s, t) && s.ticks[t].phase == Publishing
    ensures var queue := s.ticks[t].queue; var later := Later(s, queue[0], o);
            After(s, o.Actions(t))
            == if o.Throws() then Ended(later, t)
               else NextRow(later.(rows := s.rows[queue[0] := Settled(s.rows[queue[0]], o, later.now)]), t, queue)
  {
    hide After, Delay, Failed, Delivered, NextRow, Ended, Outcome.FailureActions, Outcome.FirstActions, Outcome.Message;
    var queue := s.ticks[t].queue;
    assert At(s, t, Tick(queue, Publishing)) == s by { assert s.ticks[t := s.ticks[t]] == s.ticks; }
    hide At;
    FirstSteps(s, t, queue, o);
    if o.Fails() {
      AfterTwo(s, o.FirstActions(t), o.FailureActions(t));
      FailureSteps(Later(s, queue[0], o), t, queue, o);
    } else {
      assert o.Actions(t) == o.FirstActions(t);
    }
  }

  lemma {:induction false} ActionsKeep(s: Sys, actions: seq<Action>)
    requires SysInv(s)
    ensures SysInv(After(s, actions))
    decreases |actions|
  {
    hide SysInv, Step;
    if actions != [] {
      ActionsKeep(s, actions[..|actions| - 1]);
      StepKeeps(After(s, actions[..|actions| - 1]), actions[|actions| - 1]);
    }
  }

  /** What the actions of the i-th row leave behind. */
  lemma RowDone(s: Sys, t: nat, o: Outcome, batch: seq<RowId>, i: nat)
    requires SysInv(s) && i < |batch| && t in s.ticks && s.ticks[t] == Tick(batch[i..], Publishing)
    ensures batch[i] in s.rows
    ensures var e := After(s, o.Actions(t));
            && SysInv(e) && e.now == s.now + o.elapsed
            && e.rows == (if o.Throws() then s.rows else s.rows[batch[i] := Settled(s.rows[batch[i]], o, e.now)])
            && if o.Throws() || i + 1 == |batch| then t !in e.ticks
               else t in e.ticks && e.ticks[t] == Tick(batch[i + 1..], Publishing)
  {
    hide After, Settled, RowOk;
    assert TickOk(s, s.ticks[t]);
    ActionsKeep(s, o.Actions(t));
    RowSteps(s, t, o);
  }

  lemma ClaimDone(s: Sys, t: nat, worker: string, batch: seq<RowId>)
    requires SysInv(s) && t !in s.ticks && batch != [] && IsBatch(s.rows, batch, s.now)
    ensures var e := After(s, [Claim(t, worker, batch)]);
            && SysInv(e) && e.rows == ClaimedRows(s.rows, batch, worker, s.now) && e.now == s.now
            && t in e.ticks && e.ticks[t] == Tick(batch[0..], Publishing)
  {
    hide SysInv, IsBatch, After;
    OneStep(s, Claim(t, worker, batch));
    StepKeeps(s, Claim(t, worker, batch));
  }

  /** How many rows a list of outcomes delivers. */
  function Deliveries(outcomes: seq<Outcome>): nat {
    if outcomes == [] then 0
    else Deliveries(outcomes[..|outcomes| - 1]) + if outcomes[|outcomes| - 1].Fails() then 0 else 1
  }

  function StatusAfter(claimed: Row, o: Outcome): OutboxStatus {
    if !o.Fails() then PUBLISHED else if claimed.attempts >= MAX_ATTEMPTS then DEAD_LETTER else PENDING
  }

  /** The first `i` rows of the batch are settled without a throw, everything else is as after the claim. */
  ghost predicate Progress(rows: map<RowId, Row>, claimed: map<RowId, Row>, batch: seq<RowId>, outcomes: seq<Outcome>, i: nat,
                           published: nat)
  {
    && i <= |batch| == |outcomes| && Distinct(batch)
    && published == Deliveries(outcomes[..i]) && (forall k | 0 <= k < i :: !outcomes[k].Throws())
    && rows.Keys == claimed.Keys && (forall k | 0 <= k < |batch| :: batch[k] in claimed)
    && (forall k | 0 <= k < i :: rows[batch[k]].status == StatusAfter(claimed[batch[k]], outcomes[k]))
    && (forall r | r in rows && r !in batch[..i] :: rows[r] == claimed[r])
  }

  lemma ProgressStep(rows: map<RowId, Row>, claimed: map<RowId, Row>, batch: seq<RowId>, outcomes: seq<Outcome>, i: nat,
                     published: nat, now: int)
    requires Progress(rows, claimed, batch, outcomes, i, published) && i < |batch| && !outcomes[i].Throws()
    ensures batch[i] in rows
    ensures Progress(rows[batch[i] := Settled(rows[batch[i]], outcomes[i], now)], claimed, batch, outcomes, i + 1,
                     if outcomes[i].Fails() then published else published + 1)
  {
    hide Settled, Outcome.Throws;
    assert batch[..i + 1] == batch[..i] + [batch[i]];
    assert forall k | 0 <= k < i :: batch[k] != batch[i];
    assert batch[i] !in batch[..i];
    assert outcomes[..i + 1][..i] == outcomes[..i];
    SettledStatus(rows[batch[i]], outcomes[i], now);
  }

  lemma SettledStatus(row: Row, o: Outcome, now: int)
    ensures Settled(row, o, now).status == StatusAfter(row, o)
  {
  }

  /**
   What one undisturbed tick does: if nothing throws out of the loop it settles every row it
   claimed, delivering exactly those whose publish and update both succeed and counting them;
   rows outside the batch are untouched either way.
   */
  ghost predicate TickDid(before: map<RowId, Row>, rows: map<RowId, Row>, batch: seq<RowId>, outcomes: seq<Outcome>,
                          published: nat, threw: bool)
    requires |outcomes| == |batch|
  {
    && (threw <==> exists i | 0 <= i < |outcomes| :: outcomes[i].Throws())
    && (!threw ==> published == Deliveries(outcomes))
    && (!threw ==> forall i | 0 <= i < |batch| ::
          batch[i] in rows && batch[i] in before
          && rows[batch[i]].status == if !outcomes[i].Fails() then PUBLISHED
                                      else if before[batch[i]].attempts >= 9 then DEAD_LETTER else PENDING)
    && (forall r | r in before && r !in batch :: r in rows && rows[r] == before[r])
  }

  /** At the end of the loop, or at the row that throws. */
  lemma ProgressMade(rows: map<RowId, Row>, before: map<RowId, Row>, worker: string, now: int, batch: seq<RowId>,
                     outcomes: seq<Outcome>, i: nat, published: nat)
    requires Progress(rows, ClaimedRows(before, batch, worker, now), batch, outcomes, i, published)
    requires i < |batch| ==> outcomes[i].Throws()
    ensures TickDid(before, rows, batch, outcomes, published, i < |batch|)
  {
    assert outcomes[..|outcomes|] == outcomes;
    if i == |batch| {
      forall k | 0 <= k < i
        ensures batch[k] in rows && batch[k] in before
                && rows[batch[k]].status == if !outcomes[k].Fails() then PUBLISHED
                                            else if before[batch[k]].attempts >= 9 then DEAD_LETTER else PENDING
      {
        assert batch[k] in batch;
      }
    }
  }

  /** The loop has settled `i` rows: where the table and the state machine stand. */
  ghost predicate Running(s: Sys, schedule: seq<Action>, t: nat, time: int, rows: map<RowId, Row>, claimed: map<RowId, Row>,
                          batch: seq<RowId>, outcomes: seq<Outcome>, i: nat, published: nat)
  {
    var cur := After(s, schedule);
    && Progress(rows, claimed, batch, outcomes, i, published)
    && SysInv(cur) && cur.rows == rows && cur.now == time
    && if i < |batch| then t in cur.ticks && cur.ticks[t] == Tick(batch[i..], Publishing) else t !in cur.ticks
  }

  lemma LoopStep(s: Sys, schedule: seq<Action>, t: nat, time: int, rows: map<RowId, Row>, claimed: map<RowId, Row>,
                 batch: seq<RowId>, outcomes: seq<Outcome>, i: nat, published: nat)
    requires i < |batch| == |outcomes| && Running(s, schedule, t, time, rows, claimed, batch, outcomes, i, published)
    ensures batch[i] in rows
    ensures var o := outcomes[i]; var more := schedule + o.Actions(t); var later := time + o.elapsed;
            if o.Throws() then SysInv(After(s, more)) && After(s, more).rows == rows && t !in After(s, more).ticks
            else Running(s, more, t, later, rows[batch[i] := Settled(rows[batch[i]], o, later)], claimed, batch, outcomes, i + 1,
                         if o.Fails() then published else published + 1)
  {
    hide After, SysInv, Progress, Settled;
    RowDone(After(s, schedule), t, outcomes[i], batch, i);
    AfterTwo(s, schedule, outcomes[i].Actions(t));
    if !outcomes[i].Throws() { ProgressStep(rows, claimed, batch, outcomes, i, published, time + outcomes[i].elapsed); }
  }

  lemma WhileRunning(s: Sys, schedule: seq<Action>, t: nat, time: int, rows: map<RowId, Row>, claimed: map<RowId, Row>,
                     batch: seq<RowId>, outcomes: seq<Outcome>, i: nat, published: nat)
    requires Running(s, schedule, t, time, rows, claimed, batch, outcomes, i, published)
    ensures Progress(rows, claimed, batch, outcomes, i, published)
    ensures SysInv(After(s, schedule)) && After(s, schedule).rows == rows
    ensures i == |batch| ==> t !in After(s, schedule).ticks
  {
  }

  lemma NothingClaimed(s: Sys, rows: map<RowId, Row>, outcomes: seq<Outcome>)
    requires outcomes == []
    ensures TickDid(rows, rows, [], outcomes, 0, false) && After(s, []) == s
  {
  }

  lemma LoopStarts(s: Sys, t: nat, worker: string, batch: seq<RowId>, outcomes: seq<Outcome>)
    requires SysInv(s) && t !in s.ticks && batch != [] && IsBatch(s.rows, batch, s.now) && |batch| == |outcomes|
    ensures var claimed := ClaimedRows(s.rows, batch, worker, s.now);
            Running(s, [Claim(t, worker, batch)], t, s.now, claimed, claimed, batch, outcomes, 0, 0)
  {
    hide SysInv, After;
    ClaimDone(s, t, worker, batch);
  }

  class OutboxDatabase {
    var rows: map<RowId, Row>

    constructor ()
      ensures rows == EMPTY.rows
    {
      rows := map[];
    }

    /** One update statement over the rows the inner query selected. */
    method ClaimPendingEvents(batch: seq<RowId>, worker: string, now: int)
      requires IsBatch(rows, batch, now)
      modifies this
      ensures rows == ClaimedRows(old(rows), batch, worker, now)
    {
      for i := 0 to |batch|
        invariant rows.Keys == old(rows).Keys
        invariant forall r | r in rows :: rows[r] == if r in batch[..i] then Claimed(old(rows)[r], worker, now) else old(rows)[r]
      {
        var row := rows[batch[i]];
        rows := rows[batch[i] := row.(status := PUBLISHING, lockedAt := Some(now), lockedBy := Some(worker),
                                      attempts := row.attempts + 1)];
        assert batch[..i + 1] == batch[..i] + [batch[i]];
      }
      assert batch[..|batch|] == batch;
    }

    /** False when one of its two database calls throws; then nothing is written. */
    method MarkFailed(id: RowId, o: Outcome, now: int) returns (done: bool)
      requires id in rows && o.Fails()
      modifies this
      ensures done == !o.Throws()
      ensures rows == if done then old(rows)[id := Settled(old(rows)[id], o, now)] else old(rows)
    {
      if !o.readOk { return false; }
      var attempts := rows[id].attempts;
      var status := if attempts >= MAX_ATTEMPTS then DEAD_LETTER else PENDING;
      var nextAttemptAt := now + (if attempts < 10 then attempts else 10) * BACKOFF_MS;
      if !o.writeOk { return false; }
      rows := rows[id := rows[id].(status := status, lastError := Some(o.Message()), lockedAt := None, lockedBy := None,
                                   nextAttemptAt := nextAttemptAt)];
      return true;
    }

    /** The body of the loop: publish, mark published, or record the failure. */
    method PublishRow(id: RowId, o: Outcome, now: int) returns (delivered: bool, threw: bool)
      requires id in rows
      modifies this
      ensures threw == o.Throws() && delivered == !o.Fails()
      ensures rows == if threw then old(rows) else old(rows)[id := Settled(old(rows)[id], o, now)]
    {
      if o.publishError.None? && o.markError.None? {
        rows := rows[id := rows[id].(status := PUBLISHED, publishedAt := Some(now), lockedAt := None, lockedBy := None,
                                     lastError := None)];
        return true, false;
      }
      var done := MarkFailed(id, o, now);
      return false, !done;
    }

    /**
     One tick: `batch` is what the claiming query returned and `outcomes` what happened to each
     row. The table ends as after the schedule of the state machine that the tick stands for.
     */
    method PublishPendingBatch(ghost s: Sys, ghost t: nat, batch: seq<RowId>, worker: string, now: int, outcomes: seq<Outcome>)
      returns (published: nat, threw: bool, ghost schedule: seq<Action>)
      requires SysInv(s) && s.rows == rows && s.now == now && t !in s.ticks
      requires IsBatch(rows, batch, now) && |outcomes| == |batch|
      modifies this
      ensures rows == After(s, schedule).rows && t !in After(s, schedule).ticks
      ensures SysInv(After(s, schedule))
      ensures TickDid(old(rows), rows, batch, outcomes, published, threw)
    {
      hide *;
      published, threw, schedule := 0, false, [];
      ghost var before := rows;
      if batch == [] {
        NothingClaimed(s, rows, outcomes);
        return;
      }
      LoopStarts(s, t, worker, batch, outcomes);
      ClaimPendingEvents(batch, worker, now);
      ghost var claimed := rows;
      schedule := [Claim(t, worker, batch)];
      var time := now;
      for i := 0 to |batch|
        invariant Running(s, schedule, t, time, rows, claimed, batch, outcomes, i, published)
      {
        LoopStep(s, schedule, t, time, rows, claimed, batch, outcomes, i, published);
        WhileRunning(s, schedule, t, time, rows, claimed, batch, outcomes, i, published);
        schedule := schedule + outcomes[i].Actions(t);
        time := time + outcomes[i].elapsed;
        ghost var settled := rows;
        var delivered;
        delivered, threw := PublishRow(batch[i], outcomes[i], time);
        if threw {
          ProgressMade(settled, before, worker, now, batch, outcomes, i, published);
          return;
        }
        if delivered { published := published + 1; }
      }
      WhileRunning(s, schedule, t, time, rows, claimed, batch, outcomes, |batch|, published);
      ProgressMade(rows, before, worker, now, batch, outcomes, |batch|, published);
    }
  }
}
