/**
 The outbox publisher: any number of workers, with overlapping ticks, claim pending rows,
 publish them, and on failure put them back with a growing delay or dead-letter them.
 Every database access and every publish call is one step; a tick may die at any of them.
 All times are in milliseconds of one monotone clock.
 */
module OutboxPublisher {
  import opened Basics

  type RowId = nat

  const BATCH_SIZE := 50
  const MAX_ATTEMPTS := 10
  const BACKOFF_MS := 30_000

  datatype OutboxStatus = PENDING | PUBLISHING | PUBLISHED | FAILED | DEAD_LETTER

  datatype Row = Row(
    status: OutboxStatus, attempts: nat, nextAttemptAt: int, createdAt: int, lockedAt: Option<int>,
    lockedBy: Option<string>, publishedAt: Option<int>, lastError: Option<string>)

  /** What a tick does next with the first row of its queue. */
  datatype Phase =
    | Publishing
    | Marking
    | ReadingAttempts(message: string)
    | WritingFailure(message: string, attempts: nat, nextAttemptAt: int)

  datatype Tick = Tick(queue: seq<RowId>, phase: Phase)

  /** `claimedAt` and `returned` record, for each row, when it was claimed and whether a publish call returned. */
  datatype Sys = Sys(rows: map<RowId, Row>, ticks: map<nat, Tick>, now: int,
                     claimedAt: map<RowId, seq<int>>, returned: set<RowId>)

  const EMPTY := Sys(map[], map[], 0, map[], {})

  datatype Action =
    | Enqueue(id: RowId, timestamp: int)
    | Advance(elapsed: nat)
    | Claim(t: nat, worker: string, batch: seq<RowId>)
    | Publish(t: nat, error: Option<string>)
    | Mark(t: nat, error: Option<string>)
    | ReadAttempts(t: nat, ok: bool)
    | WriteFailure(t: nat, ok: bool)
    | Crash(t: nat)

  // ---------------------------------------------------------------- rows

  function Fresh(timestamp: int): Row {
    Row(PENDING, 0, timestamp, timestamp, None, None, None, None)
  }

  predicate Due(row: Row, now: int) {
    row.status == PENDING && row.nextAttemptAt <= now
  }

  function Claimed(row: Row, worker: string, now: int): Row {
    row.(status := PUBLISHING, lockedAt := Some(now), lockedBy := Some(worker), attempts := row.attempts + 1)
  }

  function Delivered(row: Row, now: int): Row {
    row.(status := PUBLISHED, publishedAt := Some(now), lockedAt := None, lockedBy := None, lastError := None)
  }

  function Delay(attempts: nat): nat {
    (if attempts < 10 then attempts else 10) * BACKOFF_MS
  }

  function Failed(row: Row, attempts: nat, nextAttemptAt: int, message: string): Row {
    row.(status := if attempts >= MAX_ATTEMPTS then DEAD_LETTER else PENDING, lastError := Some(message),
         lockedAt := None, lockedBy := None, nextAttemptAt := nextAttemptAt)
  }

  predicate Distinct(xs: seq<RowId>) {
    forall i, j | 0 <= i < j < |xs| :: xs[i] != xs[j]
  }

  /** What the claiming query may return: due rows, at most a batch; rows locked by another transaction are skipped. */
  predicate IsBatch(rows: map<RowId, Row>, batch: seq<RowId>, now: int) {
    |batch| <= BATCH_SIZE && Distinct(batch) && forall i | 0 <= i < |batch| :: batch[i] in rows && Due(rows[batch[i]], now)
  }

  function ClaimedRows(rows: map<RowId, Row>, batch: seq<RowId>, worker: string, now: int): map<RowId, Row> {
    map r | r in rows :: if r in batch then Claimed(rows[r], worker, now) else rows[r]
  }

  // ---------------------------------------------------------------- steps

  function Ended(s: Sys, t: nat): Sys {
    s.(ticks := s.ticks - {t})
  }

  function At(s: Sys, t: nat, tick: Tick): Sys {
    s.(ticks := s.ticks[t := tick])
  }

  /** The tick is done with its first row. */
  function NextRow(s: Sys, t: nat, queue: seq<RowId>): Sys
    requires queue != []
  {
    if |queue| == 1 then Ended(s, t) else At(s, t, Tick(queue[1..], Publishing))
  }

  function DoEnqueue(s: Sys, id: RowId, timestamp: int): Sys {
    if id in s.rows then s
    else s.(rows := s.rows[id := Fresh(timestamp)], claimedAt := s.claimedAt[id := []])
  }

  function DoClaim(s: Sys, t: nat, worker: string, batch: seq<RowId>): Sys {
    if t in s.ticks || batch == [] || !IsBatch(s.rows, batch, s.now) then s
    else At(s.(rows := ClaimedRows(s.rows, batch, worker, s.now),
               claimedAt := map r | r in s.claimedAt :: if r in batch then s.claimedAt[r] + [s.now] else s.claimedAt[r]),
            t, Tick(batch, Publishing))
  }

  function DoPublish(s: Sys, t: nat, tick: Tick, error: Option<string>): Sys
    requires tick.queue != []
  {
    match error
    case None => At(s, t, tick.(phase := Marking)).(returned := s.returned + {tick.queue[0]})
    case Some(message) => At(s, t, tick.(phase := ReadingAttempts(message)))
  }

  function DoMark(s: Sys, t: nat, tick: Tick, error: Option<string>): Sys
    requires tick.queue != [] && tick.queue[0] in s.rows
  {
    var r := tick.queue[0];
    match error
    case None => NextRow(s.(rows := s.rows[r := Delivered(s.rows[r], s.now)]), t, tick.queue)
    case Some(message) => At(s, t, tick.(phase := ReadingAttempts(message)))
  }

  function DoReadAttempts(s: Sys, t: nat, tick: Tick, message: string, ok: bool): Sys
    requires tick.queue != [] && tick.queue[0] in s.rows
  {
    if !ok then Ended(s, t)
    else
      var attempts := s.rows[tick.queue[0]].attempts;
      At(s, t, tick.(phase := WritingFailure(message, attempts, s.now + Delay(attempts))))
  }

  function DoWriteFailure(s: Sys, t: nat, tick: Tick, ok: bool): Sys
    requires tick.queue != [] && tick.queue[0] in s.rows && tick.phase.WritingFailure?
  {
    if !ok then Ended(s, t)
    else
      var r := tick.queue[0];
      var failed := Failed(s.rows[r], tick.phase.attempts, tick.phase.nextAttemptAt, tick.phase.message);
      NextRow(s.(rows := s.rows[r := failed]), t, tick.queue)
  }

  /** Tick `t` is at work on a stored row. */
  predicate Working(s: Sys, t: nat) {
    t in s.ticks && s.ticks[t].queue != [] && s.ticks[t].queue[0] in s.rows
  }

  function Step(s: Sys, a: Action): Sys {
    match a
    case Enqueue(id, timestamp) => DoEnqueue(s, id, timestamp)
    case Advance(elapsed) => s.(now := s.now + elapsed)
    case Claim(t, worker, batch) => DoClaim(s, t, worker, batch)
    case Publish(t, error) => if Working(s, t) && s.ticks[t].phase.Publishing? then DoPublish(s, t, s.ticks[t], error) else s
    case Mark(t, error) => if Working(s, t) && s.ticks[t].phase.Marking? then DoMark(s, t, s.ticks[t], error) else s
    case ReadAttempts(t, ok) =>
      if Working(s, t) && s.ticks[t].phase.ReadingAttempts? then DoReadAttempts(s, t, s.ticks[t], s.ticks[t].phase.message, ok) else s
    case WriteFailure(t, ok) =>
      if Working(s, t) && s.ticks[t].phase.WritingFailure? then DoWriteFailure(s, t, s.ticks[t], ok) else s
    case Crash(t) => Ended(s, t)
  }

  function After(s: Sys, schedule: seq<Action>): Sys
    decreases |schedule|
  {
    if schedule == [] then s else Step(After(s, schedule[..|schedule| - 1]), schedule[|schedule| - 1])
  }

  // ---------------------------------------------------------------- invariant

  /** Each claim comes at least `BACKOFF_MS` times the number of earlier claims after the one before it. */
  ghost predicate Spaced(times: seq<int>) {
    forall k | 1 <= k < |times| :: times[k] >= times[k - 1] + k * BACKOFF_MS
  }

  ghost predicate RowOk(row: Row, times: seq<int>, now: int) {
    && |times| == row.attempts && Spaced(times)
    && (times != [] ==> times[|times| - 1] <= now)
    && (row.lockedBy.Some? <==> row.status == PUBLISHING) && (row.lockedAt.Some? <==> row.status == PUBLISHING)
    && (row.publishedAt.Some? <==> row.status == PUBLISHED)
    && match row.status
       case PENDING =>
         row.attempts <= 9
         && (times != [] ==>
               times[|times| - 1] + row.attempts * BACKOFF_MS <= row.nextAttemptAt <= now + row.attempts * BACKOFF_MS)
       case PUBLISHING => 1 <= row.attempts <= 10
       case PUBLISHED => 1 <= row.attempts <= 10
       case FAILED => false
       case DEAD_LETTER => row.attempts == 10
  }

  ghost predicate RowsOk(s: Sys) {
    s.claimedAt.Keys == s.rows.Keys
    && (forall r | r in s.rows :: RowOk(s.rows[r], s.claimedAt[r], s.now) && (s.rows[r].status == PUBLISHED ==> r in s.returned))
  }

  /** The rows of a tick are locked; what it remembers about the first one is still so. */
  ghost predicate TickOk(s: Sys, tick: Tick)
    requires s.claimedAt.Keys == s.rows.Keys
  {
    && tick.queue != [] && Distinct(tick.queue)
    && (forall i | 0 <= i < |tick.queue| :: tick.queue[i] in s.rows && s.rows[tick.queue[i]].status == PUBLISHING)
    && var r := tick.queue[0];
       && (tick.phase.Marking? ==> r in s.returned)
       && (tick.phase.WritingFailure? ==>
             && tick.phase.attempts == s.rows[r].attempts
             && (s.claimedAt[r] != [] ==>
                   s.claimedAt[r][|s.claimedAt[r]| - 1] + s.rows[r].attempts * BACKOFF_MS <= tick.phase.nextAttemptAt
                   <= s.now + s.rows[r].attempts * BACKOFF_MS))
  }

  ghost predicate TicksOk(s: Sys)
    requires s.claimedAt.Keys == s.rows.Keys
  {
    && (forall t | t in s.ticks :: TickOk(s, s.ticks[t]))
    && (forall t, u, r | t in s.ticks && u in s.ticks && r in s.ticks[t].queue && r in s.ticks[u].queue :: t == u)
  }

  ghost predicate SysInv(s: Sys) {
    RowsOk(s) && TicksOk(s)
  }

  // ---------------------------------------------------------------- every step keeps it

  /** A tick other than `t` holds `r`. */
  ghost predicate HeldByOther(s: Sys, t: nat, r: RowId) {
    exists u :: u in s.ticks && u != t && r in s.ticks[u].queue
  }

  /** Only tick `t` moved, and only rows no other tick holds were touched. */
  lemma OthersKeep(s: Sys, e: Sys, t: nat)
    requires s.claimedAt.Keys == s.rows.Keys && TicksOk(s) && e.claimedAt.Keys == e.rows.Keys
    requires s.returned <= e.returned && s.now <= e.now
    requires forall u | u in e.ticks && u != t :: u in s.ticks && e.ticks[u] == s.ticks[u]
    requires forall r | HeldByOther(s, t, r) :: r in e.rows && e.rows[r] == s.rows[r] && e.claimedAt[r] == s.claimedAt[r]
    requires t in e.ticks ==> TickOk(e, e.ticks[t]) && forall r | r in e.ticks[t].queue :: !HeldByOther(s, t, r)
    ensures TicksOk(e)
  {
    forall u | u in e.ticks ensures TickOk(e, e.ticks[u]) {
      if u != t {
        var tick := s.ticks[u];
        assert TickOk(s, tick);
        forall i | 0 <= i < |tick.queue|
          ensures tick.queue[i] in e.rows && e.rows[tick.queue[i]] == s.rows[tick.queue[i]]
                  && e.claimedAt[tick.queue[i]] == s.claimedAt[tick.queue[i]]
        {
          assert HeldByOther(s, t, tick.queue[i]);
        }
      }
    }
    forall u, v, r | u in e.ticks && v in e.ticks && r in e.ticks[u].queue && r in e.ticks[v].queue ensures u == v {
      if u != t { assert HeldByOther(s, t, r); }
      if v != t { assert HeldByOther(s, t, r); }
    }
  }

  /** A row no tick other than `t` holds, because it is not locked or because `t` holds it. */
  lemma NotHeldByOther(s: Sys, t: nat, r: RowId)
    requires s.claimedAt.Keys == s.rows.Keys && TicksOk(s)
    requires r !in s.rows || s.rows[r].status != PUBLISHING || (t in s.ticks && r in s.ticks[t].queue)
    ensures !HeldByOther(s, t, r)
  {
  }

  lemma HeldAreStored(s: Sys, t: nat)
    requires s.claimedAt.Keys == s.rows.Keys && TicksOk(s)
    ensures forall r | HeldByOther(s, t, r) :: r in s.rows
  {
    forall r | HeldByOther(s, t, r) ensures r in s.rows {
      var u :| u in s.ticks && u != t && r in s.ticks[u].queue;
      assert TickOk(s, s.ticks[u]);
    }
  }

  lemma EndKeeps(s: Sys, t: nat)
    requires SysInv(s)
    ensures SysInv(Ended(s, t))
  {
    hide RowOk, TickOk;
    HeldAreStored(s, t);
    OthersKeep(s, Ended(s, t), t);
  }

  lemma EnqueueKeeps(s: Sys, id: RowId, timestamp: int)
    requires SysInv(s)
    ensures SysInv(DoEnqueue(s, id, timestamp))
  {
    hide TickOk, TicksOk;
    if id !in s.rows {
      var t :| t !in s.ticks by { FreshTick(s.ticks); }
      NotHeldByOther(s, t, id);
      HeldAreStored(s, t);
      OthersKeep(s, DoEnqueue(s, id, timestamp), t);
    }
  }

  lemma {:induction false} FreshTick(ticks: map<nat, Tick>)
    ensures exists t: nat :: t !in ticks
  {
    var bound := Above(ticks.Keys);
    assert bound !in ticks;
  }

  ghost function Above(ids: set<nat>): (n: nat)
    ensures forall i | i in ids :: i < n
  {
    if ids == {} then 0 else
      var i :| i in ids;
      var n := Above(ids - {i});
      assert forall j | j in ids :: j == i || j in ids - {i};
      if i < n then n else i + 1
  }

  lemma AdvanceKeeps(s: Sys, elapsed: nat)
    requires SysInv(s)
    ensures SysInv(s.(now := s.now + elapsed))
  {
    var e := s.(now := s.now + elapsed);
    forall u | u in e.ticks ensures TickOk(e, e.ticks[u]) { assert TickOk(s, s.ticks[u]); }
  }

  lemma ClaimKeepsRow(row: Row, times: seq<int>, worker: string, now: int)
    requires RowOk(row, times, now) && Due(row, now)
    ensures RowOk(Claimed(row, worker, now), times + [now], now) && Claimed(row, worker, now).status == PUBLISHING
  {
  }

  lemma ClaimKeepsRows(s: Sys, t: nat, worker: string, batch: seq<RowId>)
    requires SysInv(s)
    ensures RowsOk(DoClaim(s, t, worker, batch))
  {
    hide TickOk, TicksOk, RowOk, Claimed;
    var e := DoClaim(s, t, worker, batch);
    if e != s {
      forall r | r in e.rows
        ensures RowOk(e.rows[r], e.claimedAt[r], e.now) && (e.rows[r].status == PUBLISHED ==> r in e.returned)
      {
        if r in batch {
          ClaimKeepsRow(s.rows[r], s.claimedAt[r], worker, s.now);
        }
      }
    }
  }

  lemma ClaimKeeps(s: Sys, t: nat, worker: string, batch: seq<RowId>)
    requires SysInv(s)
    ensures SysInv(DoClaim(s, t, worker, batch))
  {
    hide TickOk, TicksOk, RowOk;
    var e := DoClaim(s, t, worker, batch);
    ClaimKeepsRows(s, t, worker, batch);
    if e != s {
      forall r | r in batch ensures !HeldByOther(s, t, r) { NotHeldByOther(s, t, r); }
      HeldAreStored(s, t);
      NewTickOk(e, batch);
      hide HeldByOther, IsBatch;
      OthersKeep(s, e, t);
    }
  }

  lemma NewTickOk(s: Sys, batch: seq<RowId>)
    requires s.claimedAt.Keys == s.rows.Keys && batch != [] && Distinct(batch)
    requires forall i | 0 <= i < |batch| :: batch[i] in s.rows && s.rows[batch[i]].status == PUBLISHING
    ensures TickOk(s, Tick(batch, Publishing))
  {
  }

  /** A working tick moves to another phase on the same row. */
  lemma PhaseKeeps(s: Sys, e: Sys, t: nat, phase: Phase)
    requires SysInv(s) && t in s.ticks
    requires e == At(s, t, s.ticks[t].(phase := phase)).(returned := e.returned) && s.returned <= e.returned
    requires e.claimedAt.Keys == e.rows.Keys && TickOk(e, e.ticks[t])
    ensures SysInv(e)
  {
    hide RowOk, TickOk, TicksOk;
    forall r | r in e.ticks[t].queue ensures !HeldByOther(s, t, r) { NotHeldByOther(s, t, r); }
    HeldAreStored(s, t);
    OthersKeep(s, e, t);
  }

  lemma TickOfOk(s: Sys, t: nat)
    requires s.claimedAt.Keys == s.rows.Keys && TicksOk(s) && t in s.ticks
    ensures TickOk(s, s.ticks[t])
  {
  }

  /** A working tick settles its first row and goes on. */
  lemma SettleKeeps(s: Sys, t: nat, row: Row)
    requires SysInv(s) && Working(s, t)
    requires var r := s.ticks[t].queue[0];
             RowOk(row, s.claimedAt[r], s.now) && (row.status == PUBLISHED ==> r in s.returned)
    ensures SysInv(NextRow(s.(rows := s.rows[s.ticks[t].queue[0] := row]), t, s.ticks[t].queue))
  {
    hide RowOk, TicksOk;
    var queue := s.ticks[t].queue;
    var e := NextRow(s.(rows := s.rows[queue[0] := row]), t, queue);
    TickOfOk(s, t);
    NotHeldByOther(s, t, queue[0]);
    HeldAreStored(s, t);
    if |queue| > 1 {
      NewTickOk(e, queue[1..]);
      forall r | r in queue[1..] ensures !HeldByOther(s, t, r) { NotHeldByOther(s, t, r); }
    }
    hide TickOk;
    OthersKeep(s, e, t);
  }

  /** What the invariant says of a working tick and its first row. */
  lemma WorkingOk(s: Sys, t: nat)
    requires SysInv(s) && Working(s, t)
    ensures TickOk(s, s.ticks[t])
    ensures var r := s.ticks[t].queue[0];
            s.rows[r].status == PUBLISHING && RowOk(s.rows[r], s.claimedAt[r], s.now)
  {
    hide RowOk;
  }

  lemma PublishKeeps(s: Sys, t: nat, error: Option<string>)
    requires SysInv(s) && Working(s, t) && s.ticks[t].phase.Publishing?
    ensures SysInv(DoPublish(s, t, s.ticks[t], error))
  {
    hide RowOk;
    WorkingOk(s, t);
    var e := DoPublish(s, t, s.ticks[t], error);
    PhaseKeeps(s, e, t, e.ticks[t].phase);
  }

  lemma MarkKeeps(s: Sys, t: nat, error: Option<string>)
    requires SysInv(s) && Working(s, t) && s.ticks[t].phase.Marking?
    ensures SysInv(DoMark(s, t, s.ticks[t], error))
  {
    WorkingOk(s, t);
    var e := DoMark(s, t, s.ticks[t], error);
    if error == None {
      SettleKeeps(s, t, Delivered(s.rows[s.ticks[t].queue[0]], s.now));
    } else {
      hide RowOk;
      PhaseKeeps(s, e, t, e.ticks[t].phase);
    }
  }

  lemma ReadAttemptsKeeps(s: Sys, t: nat, ok: bool)
    requires SysInv(s) && Working(s, t) && s.ticks[t].phase.ReadingAttempts?
    ensures SysInv(DoReadAttempts(s, t, s.ticks[t], s.ticks[t].phase.message, ok))
  {
    WorkingOk(s, t);
    EndKeeps(s, t);
    var e := DoReadAttempts(s, t, s.ticks[t], s.ticks[t].phase.message, ok);
    if ok { PhaseKeeps(s, e, t, e.ticks[t].phase); }
  }

  lemma WriteFailureKeeps(s: Sys, t: nat, ok: bool)
    requires SysInv(s) && Working(s, t) && s.ticks[t].phase.WritingFailure?
    ensures SysInv(DoWriteFailure(s, t, s.ticks[t], ok))
  {
    WorkingOk(s, t);
    EndKeeps(s, t);
    var r, phase := s.ticks[t].queue[0], s.ticks[t].phase;
    if ok { SettleKeeps(s, t, Failed(s.rows[r], phase.attempts, phase.nextAttemptAt, phase.message)); }
  }

  lemma StepKeeps(s: Sys, a: Action)
    requires SysInv(s)
    ensures SysInv(Step(s, a))
  {
    hide SysInv;
    match a {
      case Enqueue(id, timestamp) => EnqueueKeeps(s, id, timestamp);
      case Advance(elapsed) => AdvanceKeeps(s, elapsed);
      case Claim(t, worker, batch) => ClaimKeeps(s, t, worker, batch);
      case Publish(t, error) => if Working(s, t) && s.ticks[t].phase.Publishing? { PublishKeeps(s, t, error); }
      case Mark(t, error) => if Working(s, t) && s.ticks[t].phase.Marking? { MarkKeeps(s, t, error); }
      case ReadAttempts(t, ok) => if Working(s, t) && s.ticks[t].phase.ReadingAttempts? { ReadAttemptsKeeps(s, t, ok); }
      case WriteFailure(t, ok) => if Working(s, t) && s.ticks[t].phase.WritingFailure? { WriteFailureKeeps(s, t, ok); }
      case Crash(t) => EndKeeps(s, t);
    }
  }

  lemma {:induction false} ReachableInv(schedule: seq<Action>)
    ensures SysInv(After(EMPTY, schedule))
    decreases |schedule|
  {
    hide Step;
    if schedule != [] {
      hide SysInv;
      ReachableInv(schedule[..|schedule| - 1]);
      StepKeeps(After(EMPTY, schedule[..|schedule| - 1]), schedule[|schedule| - 1]);
    }
  }
}
