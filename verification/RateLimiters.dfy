/**
 The two fixed-window rate limiters: one keeps buckets in memory, the other an expiring
 `windowStart:count` entry in Redis, written only on acceptance. They are proved to give the
 same answers, and the window to bound the accepted cost. One clock, in milliseconds.
 */
module RateLimiters {
  import opened Basics

  datatype Options = Options(windowMs: int, maxRequests: int)

  datatype Result = Result(allowed: bool, remaining: int, resetAtMs: int, retryAfterMs: Option<int>)

  datatype Bucket = Bucket(count: int, windowStartMs: int)

  /** A stored entry and the time its key expires. */
  datatype Entry = Entry(windowStart: int, count: int, expiresAt: int)

  datatype Call = Call(key: string, cost: int, now: int)

  type Buckets = map<string, Bucket>
  type Entries = map<string, Entry>

  // ---------------------------------------------------------------- in memory

  /** The bucket a call works on: the stored one, or a new window. */
  function BucketAt(o: Options, buckets: Buckets, key: string, now: int): Bucket {
    if key in buckets && now - buckets[key].windowStartMs < o.windowMs then buckets[key] else Bucket(0, now)
  }

  predicate MemoryAllows(o: Options, buckets: Buckets, c: Call) {
    BucketAt(o, buckets, c.key, c.now).count + c.cost <= o.maxRequests
  }

  function MemoryConsume(o: Options, buckets: Buckets, c: Call): (Buckets, Result) {
    var bucket := BucketAt(o, buckets, c.key, c.now);
    var next := bucket.count + c.cost;
    var resetAt := bucket.windowStartMs + o.windowMs;
    if next > o.maxRequests
    then (buckets[c.key := bucket], Result(false, 0, resetAt, Some(if resetAt > c.now then resetAt - c.now else 0)))
    else (buckets[c.key := bucket.(count := next)], Result(true, o.maxRequests - next, resetAt, None))
  }

  class MemoryRateLimiter {
    const options: Options
    var buckets: Buckets

    constructor (options: Options)
      ensures this.options == options && buckets == map[]
    {
      this.options := options;
      buckets := map[];
    }

    method Consume(key: string, cost: int, now: int) returns (r: Result)
      modifies this
      ensures (buckets, r) == MemoryConsume(options, old(buckets), Call(key, cost, now))
    {
      var bucket := if key in buckets then buckets[key] else Bucket(0, now);
      if now - bucket.windowStartMs >= options.windowMs {
        bucket := bucket.(count := 0);
        bucket := bucket.(windowStartMs := now);
      }
      var nextCount := bucket.count + cost;
      var resetAtMs := bucket.windowStartMs + options.windowMs;
      if nextCount > options.maxRequests {
        buckets := buckets[key := bucket];
        return Result(false, 0, resetAtMs, Some(if resetAtMs - now > 0 then resetAtMs - now else 0));
      }
      bucket := bucket.(count := nextCount);
      buckets := buckets[key := bucket];
      return Result(true, if options.maxRequests - bucket.count > 0 then options.maxRequests - bucket.count else 0, resetAtMs, None);
    }
  }

  // ---------------------------------------------------------------- in Redis

  /** `GET`: an entry whose key has expired is gone. */
  predicate Stored(entries: Entries, key: string, now: int) {
    key in entries && now <= entries[key].expiresAt
  }

  /** The window a call finds, or a new one. */
  function EntryAt(o: Options, entries: Entries, key: string, now: int): Bucket {
    if Stored(entries, key, now) && now - entries[key].windowStart < o.windowMs
    then Bucket(entries[key].count, entries[key].windowStart) else Bucket(0, now)
  }

  function RedisConsume(o: Options, entries: Entries, c: Call): (Entries, Result) {
    var window := EntryAt(o, entries, c.key, c.now);
    var next := window.count + c.cost;
    var resetAt := window.windowStartMs + o.windowMs;
    if next > o.maxRequests
    then (entries, Result(false, 0, resetAt, if resetAt - c.now > 0 then Some(resetAt - c.now) else None))
    else (entries[c.key := Entry(window.windowStartMs, next, c.now + o.windowMs)],
          Result(true, o.maxRequests - next, resetAt, None))
  }

  class RedisRateLimiter {
    const options: Options
    var entries: Entries

    constructor (options: Options)
      ensures this.options == options && entries == map[]
    {
      this.options := options;
      entries := map[];
    }

    /** The script, run atomically. */
    method Consume(key: string, cost: int, now: int) returns (r: Result)
      modifies this
      ensures (entries, r) == RedisConsume(options, old(entries), Call(key, cost, now))
    {
      var count, windowStart := 0, now;
      if key in entries && now <= entries[key].expiresAt {
        windowStart := entries[key].windowStart;
        count := entries[key].count;
      }
      if now - windowStart >= options.windowMs {
        count := 0;
        windowStart := now;
      }
      var nextCount := count + cost;
      var resetAt := windowStart + options.windowMs;
      if nextCount > options.maxRequests {
        return Result(false, 0, resetAt, if resetAt - now > 0 then Some(resetAt - now) else None);
      }
      entries := entries[key := Entry(windowStart, nextCount, now + options.windowMs)];
      return Result(true, options.maxRequests - nextCount, resetAt, None);
    }
  }

  // ---------------------------------------------------------------- call sequences

  ghost predicate Monotone(calls: seq<Call>) {
    forall i, j | 0 <= i < j < |calls| :: calls[i].now <= calls[j].now
  }

  ghost predicate CostsUpTo(calls: seq<Call>, bound: int) {
    forall i | 0 <= i < |calls| :: 0 <= calls[i].cost <= bound
  }

  function MemoryAfter(o: Options, calls: seq<Call>): Buckets
    decreases |calls|
  {
    if calls == [] then map[]
    else MemoryConsume(o, MemoryAfter(o, calls[..|calls| - 1]), calls[|calls| - 1]).0
  }

  function RedisAfter(o: Options, calls: seq<Call>): Entries
    decreases |calls|
  {
    if calls == [] then map[]
    else RedisConsume(o, RedisAfter(o, calls[..|calls| - 1]), calls[|calls| - 1]).0
  }

  /** The answer to the i-th call. */
  function MemoryAnswer(o: Options, calls: seq<Call>, i: nat): Result
    requires i < |calls|
  {
    MemoryConsume(o, MemoryAfter(o, calls[..i]), calls[i]).1
  }

  function RedisAnswer(o: Options, calls: seq<Call>, i: nat): Result
    requires i < |calls|
  {
    RedisConsume(o, RedisAfter(o, calls[..i]), calls[i]).1
  }

  // ---------------------------------------------------------------- the same answers

  /** From time `from` on every call would find the same window in both stores, started by then. */
  ghost predicate Agree(o: Options, buckets: Buckets, entries: Entries, from: int) {
    && (forall k, now | from <= now :: BucketAt(o, buckets, k, now) == EntryAt(o, entries, k, now))
    && (forall k | k in buckets :: buckets[k].windowStartMs <= from)
    && (forall k | k in entries :: entries[k].windowStart <= from)
  }

  /** A call that either fits an empty window, or finds windows of one millisecond. */
  lemma ConsumeAgrees(o: Options, buckets: Buckets, entries: Entries, c: Call, from: int)
    requires o.windowMs >= 1 && Agree(o, buckets, entries, from) && from <= c.now
    requires c.cost <= o.maxRequests || o.windowMs == 1
    ensures MemoryConsume(o, buckets, c).1 == RedisConsume(o, entries, c).1
    ensures Agree(o, MemoryConsume(o, buckets, c).0, RedisConsume(o, entries, c).0, c.now)
  {
    assert BucketAt(o, buckets, c.key, c.now) == EntryAt(o, entries, c.key, c.now);
    var b, e := MemoryConsume(o, buckets, c).0, RedisConsume(o, entries, c).0;
    forall k, now | c.now <= now ensures BucketAt(o, b, k, now) == EntryAt(o, e, k, now) {
      assert BucketAt(o, buckets, k, now) == EntryAt(o, entries, k, now);
    }
  }

  lemma NothingStoredAgrees(o: Options, from: int)
    ensures Agree(o, map[], map[], from)
  {
  }

  lemma {:induction false} AfterAgree(o: Options, calls: seq<Call>, bound: int, from: int)
    requires o.windowMs >= 1 && Monotone(calls) && CostsUpTo(calls, bound) && (bound <= o.maxRequests || o.windowMs == 1)
    requires forall i | 0 <= i < |calls| :: calls[i].now <= from
    ensures Agree(o, MemoryAfter(o, calls), RedisAfter(o, calls), from)
    decreases |calls|
  {
    hide Agree, MemoryConsume, RedisConsume;
    if calls == [] {
      NothingStoredAgrees(o, from);
    } else {
      var n := |calls| - 1;
      AfterAgree(o, calls[..n], bound, calls[n].now);
      ConsumeAgrees(o, MemoryAfter(o, calls[..n]), RedisAfter(o, calls[..n]), calls[n], calls[n].now);
      AgreesLater(o, MemoryAfter(o, calls), RedisAfter(o, calls), calls[n].now, from);
    }
  }

  lemma AgreesLater(o: Options, buckets: Buckets, entries: Entries, from: int, later: int)
    requires Agree(o, buckets, entries, from) && from <= later
    ensures Agree(o, buckets, entries, later)
  {
  }

  ghost predicate SameAnswers(o: Options, calls: seq<Call>) {
    forall i | 0 <= i < |calls| :: MemoryAnswer(o, calls, i) == RedisAnswer(o, calls, i)
  }

  lemma AnswersAgree(o: Options, calls: seq<Call>, bound: int)
    requires o.windowMs >= 1 && Monotone(calls) && CostsUpTo(calls, bound) && (bound <= o.maxRequests || o.windowMs == 1)
    ensures SameAnswers(o, calls)
  {
    hide Agree;
    forall i | 0 <= i < |calls| ensures MemoryAnswer(o, calls, i) == RedisAnswer(o, calls, i) {
      AfterAgree(o, calls[..i], bound, calls[i].now);
      ConsumeAgrees(o, MemoryAfter(o, calls[..i]), RedisAfter(o, calls[..i]), calls[i], calls[i].now);
    }
  }

  /** The limiters agree on every call sequence exactly when no call can cost more than a whole window allows. */
  lemma LimitersAgreeExactly(o: Options, bound: nat)
    requires o.windowMs >= 1
    ensures (forall calls | Monotone(calls) && CostsUpTo(calls, bound) :: SameAnswers(o, calls))
            <==> bound <= o.maxRequests || o.windowMs == 1
  {
    if bound <= o.maxRequests || o.windowMs == 1 {
      forall calls | Monotone(calls) && CostsUpTo(calls, bound) ensures SameAnswers(o, calls) { AnswersAgree(o, calls, bound); }
    } else {
      RefusedCallOpensWindow(o, bound);
    }
  }

  /** A call that costs too much opens a window in memory but not in Redis; the next refusal shows it. */
  lemma RefusedCallOpensWindow(o: Options, cost: nat)
    requires o.windowMs >= 2 && cost > o.maxRequests
    ensures var calls := [Call("k", cost, 0), Call("k", cost, 1)];
            Monotone(calls) && CostsUpTo(calls, cost) && !SameAnswers(o, calls)
            && MemoryAnswer(o, calls, 1).resetAtMs == o.windowMs && RedisAnswer(o, calls, 1).resetAtMs == o.windowMs + 1
  {
    var calls := [Call("k", cost, 0), Call("k", cost, 1)];
    assert calls[..1] == [calls[0]] && calls[..1][..0] == [];
    assert MemoryAfter(o, []) == map[] && RedisAfter(o, []) == map[];
    assert MemoryAfter(o, calls[..1]) == map["k" := Bucket(0, 0)];
    assert RedisAfter(o, calls[..1]) == map[];
    assert MemoryAnswer(o, calls, 1).resetAtMs != RedisAnswer(o, calls, 1).resetAtMs;
  }

  /** The calls that could be accepted at all. */
  function Fitting(o: Options, calls: seq<Call>): seq<Call>
    decreases |calls|
  {
    if calls == [] then [] else
      var n := |calls| - 1;
      Fitting(o, calls[..n]) + if calls[n].cost <= o.maxRequests then [calls[n]] else []
  }

  lemma {:induction false} FittingFits(o: Options, calls: seq<Call>)
    requires Monotone(calls) && forall i | 0 <= i < |calls| :: 0 <= calls[i].cost
    ensures Monotone(Fitting(o, calls)) && CostsUpTo(Fitting(o, calls), o.maxRequests)
    ensures forall c | c in Fitting(o, calls) :: c in calls
    decreases |calls|
  {
    if calls != [] {
      var n := |calls| - 1;
      FittingFits(o, calls[..n]);
      var fit := Fitting(o, calls[..n]);
      forall i | 0 <= i < |fit| ensures fit[i].now <= calls[n].now {
        assert fit[i] in calls[..n];
      }
    }
  }

  ghost predicate CountsUp(entries: Entries) {
    forall k | k in entries :: entries[k].count >= 0
  }

  lemma NothingCounted()
    ensures CountsUp(map[])
  {
  }

  lemma OversizedLeavesNothing(o: Options, entries: Entries, c: Call)
    requires CountsUp(entries) && c.cost >= 0
    ensures CountsUp(RedisConsume(o, entries, c).0) && (c.cost > o.maxRequests ==> RedisConsume(o, entries, c).0 == entries)
  {
  }

  /** A call that costs more than a window leaves no trace in Redis. */
  lemma {:induction false} OversizedLeaveNothing(o: Options, calls: seq<Call>)
    requires forall i | 0 <= i < |calls| :: 0 <= calls[i].cost
    ensures RedisAfter(o, calls) == RedisAfter(o, Fitting(o, calls))
    ensures CountsUp(RedisAfter(o, calls))
    decreases |calls|
  {
    hide RedisConsume, CountsUp;
    if calls == [] {
      NothingCounted();
    } else {
      var n := |calls| - 1;
      OversizedLeaveNothing(o, calls[..n]);
      var fit := Fitting(o, calls[..n]);
      assert (fit + [calls[n]])[..|fit|] == fit;
      assert fit + [] == fit;
      OversizedLeavesNothing(o, RedisAfter(o, calls[..n]), calls[n]);
    }
  }

  /**
   For any costs: the Redis limiter answers a call as the one in memory would if no call that costs
   more than a whole window had come before it.
   */
  lemma RedisIgnoresOversized(o: Options, calls: seq<Call>, i: nat)
    requires o.windowMs >= 1 && Monotone(calls) && i < |calls| && forall j | 0 <= j < |calls| :: 0 <= calls[j].cost
    ensures var fit := Fitting(o, calls[..i]);
            RedisAnswer(o, calls, i) == MemoryAnswer(o, fit + [calls[i]], |fit|)
  {
    hide Agree;
    var fit := Fitting(o, calls[..i]);
    FittingFits(o, calls[..i]);
    OversizedLeaveNothing(o, calls[..i]);
    forall j | 0 <= j < |fit| ensures fit[j].now <= calls[i].now { assert fit[j] in calls[..i]; }
    AfterAgree(o, fit, o.maxRequests, calls[i].now);
    SameAnswer(o, MemoryAfter(o, fit), RedisAfter(o, fit), calls[i], calls[i].now);
    assert (fit + [calls[i]])[..|fit|] == fit;
  }

  /** Stores that agree answer any call alike, whatever it costs. */
  lemma SameAnswer(o: Options, buckets: Buckets, entries: Entries, c: Call, from: int)
    requires o.windowMs >= 1 && Agree(o, buckets, entries, from) && from <= c.now
    ensures MemoryConsume(o, buckets, c).1 == RedisConsume(o, entries, c).1
  {
    assert BucketAt(o, buckets, c.key, c.now) == EntryAt(o, entries, c.key, c.now);
  }

  // ---------------------------------------------------------------- how much is let through

  /** The cost accepted for `key` at times in [from, to). */
  ghost function Accepted(o: Options, calls: seq<Call>, key: string, from: int, to: int): int
    decreases |calls|
  {
    if calls == [] then 0 else
      var n := |calls| - 1;
      var c := calls[n];
      Accepted(o, calls[..n], key, from, to)
      + if c.key == key && from <= c.now < to && MemoryAnswer(o, calls, n).allowed then c.cost else 0
  }

  lemma {:induction false} AcceptedSplits(o: Options, calls: seq<Call>, key: string, from: int, mid: int, to: int)
    requires from <= mid <= to
    ensures Accepted(o, calls, key, from, to) == Accepted(o, calls, key, from, mid) + Accepted(o, calls, key, mid, to)
    decreases |calls|
  {
    if calls != [] { AcceptedSplits(o, calls[..|calls| - 1], key, from, mid, to); }
  }

  /** Nothing was accepted at or after a time all calls precede; nothing is gained by looking further. */
  lemma {:induction false} AcceptedBefore(o: Options, calls: seq<Call>, key: string, from: int, to: int, further: int)
    requires (forall i | 0 <= i < |calls| :: calls[i].now < to) && to <= further
    ensures Accepted(o, calls, key, from, to) == Accepted(o, calls, key, from, further)
    decreases |calls|
  {
    if calls != [] { AcceptedBefore(o, calls[..|calls| - 1], key, from, to, further); }
  }

  lemma {:induction false} NothingAccepted(o: Options, calls: seq<Call>, key: string, from: int, to: int)
    requires forall i | 0 <= i < |calls| :: calls[i].now < from
    ensures Accepted(o, calls, key, from, to) == 0
    decreases |calls|
  {
    if calls != [] { NothingAccepted(o, calls[..|calls| - 1], key, from, to); }
  }

  lemma {:induction false} AcceptedNonNegative(o: Options, calls: seq<Call>, key: string, from: int, to: int)
    requires forall i | 0 <= i < |calls| :: 0 <= calls[i].cost
    ensures Accepted(o, calls, key, from, to) >= 0
    decreases |calls|
  {
    if calls != [] { AcceptedNonNegative(o, calls[..|calls| - 1], key, from, to); }
  }

  ghost predicate CallsFit(calls: seq<Call>, last: int) {
    Monotone(calls) && forall i | 0 <= i < |calls| :: 0 <= calls[i].cost && calls[i].now <= last
  }

  /** A part of a stretch of time accepts no more than the whole. */
  lemma AcceptedWithin(o: Options, calls: seq<Call>, key: string, from: int, a: int, b: int, to: int)
    requires (forall i | 0 <= i < |calls| :: 0 <= calls[i].cost) && from <= a <= b <= to
    ensures 0 <= Accepted(o, calls, key, a, b) <= Accepted(o, calls, key, from, to)
  {
    AcceptedSplits(o, calls, key, from, a, to);
    AcceptedSplits(o, calls, key, a, b, to);
    AcceptedNonNegative(o, calls, key, from, a);
    AcceptedNonNegative(o, calls, key, a, b);
    AcceptedNonNegative(o, calls, key, b, to);
  }

  ghost predicate NothingFrom(o: Options, calls: seq<Call>, key: string, from: int) {
    forall to | from <= to :: Accepted(o, calls, key, from, to) == 0
  }

  lemma NothingFromLater(o: Options, calls: seq<Call>, key: string, from: int, later: int)
    requires (forall i | 0 <= i < |calls| :: 0 <= calls[i].cost) && NothingFrom(o, calls, key, from) && from <= later
    ensures NothingFrom(o, calls, key, later)
  {
    forall to | later <= to ensures Accepted(o, calls, key, later, to) == 0 {
      AcceptedWithin(o, calls, key, from, later, to, to);
    }
  }

  /**
   The open window's counter is what was accepted since it opened, and nothing was accepted after
   its end; in the `windowMs` before it opened no more was accepted than one window allows.
   */
  ghost predicate WindowInv(o: Options, calls: seq<Call>, key: string, last: int) {
    var buckets := MemoryAfter(o, calls);
    if key !in buckets then forall from, to :: Accepted(o, calls, key, from, to) == 0
    else
      var b := buckets[key];
      && b.windowStartMs <= last && 0 <= b.count <= o.maxRequests
      && Accepted(o, calls, key, b.windowStartMs, last + 1) == b.count
      && NothingFrom(o, calls, key, b.windowStartMs + o.windowMs)
      && (forall from | b.windowStartMs - o.windowMs < from <= b.windowStartMs ::
            Accepted(o, calls, key, from, b.windowStartMs) <= o.maxRequests)
  }

  lemma WindowLater(o: Options, calls: seq<Call>, key: string, last: int, later: int)
    requires CallsFit(calls, last) && WindowInv(o, calls, key, last) && last <= later
    ensures WindowInv(o, calls, key, later)
  {
    var buckets := MemoryAfter(o, calls);
    if key in buckets { AcceptedBefore(o, calls, key, buckets[key].windowStartMs, last + 1, later + 1); }
  }

  /** What one more call adds. */
  lemma OneMore(o: Options, calls: seq<Call>, key: string, from: int, to: int)
    requires calls != []
    ensures var n := |calls| - 1; var c := calls[n];
            Accepted(o, calls, key, from, to)
            == Accepted(o, calls[..n], key, from, to)
               + if c.key == key && from <= c.now < to && MemoryAllows(o, MemoryAfter(o, calls[..n]), c) then c.cost else 0
  {
  }

  /** When a new window opens at `now`, nothing was accepted from `now` on, and little in the `windowMs` before. */
  lemma NewWindow(o: Options, calls: seq<Call>, key: string, now: int)
    requires o.windowMs >= 1 && o.maxRequests >= 0 && CallsFit(calls, now) && WindowInv(o, calls, key, now)
    requires key !in MemoryAfter(o, calls) || now - MemoryAfter(o, calls)[key].windowStartMs >= o.windowMs
    ensures NothingFrom(o, calls, key, now) && NothingFrom(o, calls, key, now + o.windowMs)
    ensures forall from | now - o.windowMs < from <= now :: Accepted(o, calls, key, from, now) <= o.maxRequests
  {
    if key in MemoryAfter(o, calls) {
      var start := MemoryAfter(o, calls)[key].windowStartMs;
      NothingFromLater(o, calls, key, start + o.windowMs, now);
      NothingFromLater(o, calls, key, now, now + o.windowMs);
      forall from | now - o.windowMs < from <= now ensures Accepted(o, calls, key, from, now) <= o.maxRequests {
        AcceptedWithin(o, calls, key, start, from, now, now + 1);
      }
    }
  }

  lemma {:induction false} WindowKept(o: Options, calls: seq<Call>, key: string, last: int)
    requires o.windowMs >= 1 && o.maxRequests >= 0 && CallsFit(calls, last)
    ensures WindowInv(o, calls, key, last)
    decreases |calls|
  {
    if calls != [] {
      var n := |calls| - 1;
      var c := calls[n];
      hide WindowInv;
      WindowKept(o, calls[..n], key, c.now);
      WindowStep(o, calls, key);
      WindowLater(o, calls, key, c.now, last);
    }
  }

  lemma EarlierCallsFit(calls: seq<Call>)
    requires calls != [] && CallsFit(calls, calls[|calls| - 1].now)
    ensures var n := |calls| - 1; calls[n].cost >= 0 && CallsFit(calls[..n], calls[n].now)
  {
  }

  lemma WindowStep(o: Options, calls: seq<Call>, key: string)
    requires o.windowMs >= 1 && o.maxRequests >= 0 && calls != []
    requires var n := |calls| - 1; CallsFit(calls, calls[n].now) && WindowInv(o, calls[..n], key, calls[n].now)
    ensures WindowInv(o, calls, key, calls[|calls| - 1].now)
  {
    hide Accepted, CallsFit;
    var n := |calls| - 1;
    var c, before := calls[n], MemoryAfter(o, calls[..n]);
    forall from, to
      ensures Accepted(o, calls, key, from, to)
              == Accepted(o, calls[..n], key, from, to)
                 + if c.key == key && from <= c.now < to && MemoryAllows(o, before, c) then c.cost else 0
    {
      OneMore(o, calls, key, from, to);
    }
    assert MemoryAfter(o, calls) == MemoryConsume(o, before, c).0;
    EarlierCallsFit(calls);
    if c.key == key && (key !in before || c.now - before[key].windowStartMs >= o.windowMs) {
      NewWindow(o, calls[..n], key, c.now);
    }
  }

  /** In the open window no more than `maxRequests` has been accepted, and the counter says how much. */
  lemma WindowBound(o: Options, calls: seq<Call>, key: string)
    requires o.windowMs >= 1 && o.maxRequests >= 0 && calls != [] && CallsFit(calls, calls[|calls| - 1].now)
    requires key in MemoryAfter(o, calls)
    ensures var b := MemoryAfter(o, calls)[key];
            && Accepted(o, calls, key, b.windowStartMs, b.windowStartMs + o.windowMs) == b.count
            && 0 <= b.count <= o.maxRequests
  {
    hide Accepted;
    var last := calls[|calls| - 1].now;
    WindowKept(o, calls, key, last);
    var b := MemoryAfter(o, calls)[key];
    var end := b.windowStartMs + o.windowMs;
    if last + 1 <= end {
      AcceptedBefore(o, calls, key, b.windowStartMs, last + 1, end);
    } else {
      AcceptedSplits(o, calls, key, b.windowStartMs, end, last + 1);
      assert Accepted(o, calls, key, end, last + 1) == 0;
    }
  }

  /**
   What an answer means. The call falls in the window that ends at `resetAtMs`; it is allowed
   exactly when the cost accepted in that window still has room for it, `remaining` is the room
   left after it, and a refused caller is told the time to the end of the window.
   */
  lemma AnswerSaysHowMuch(o: Options, calls: seq<Call>, i: nat)
    requires o.windowMs >= 1 && o.maxRequests >= 0 && i < |calls| && CallsFit(calls, calls[|calls| - 1].now)
    ensures var c, r := calls[i], MemoryAnswer(o, calls, i); var start := r.resetAtMs - o.windowMs;
            var room := o.maxRequests - Accepted(o, calls[..i], c.key, start, r.resetAtMs);
            && start <= c.now < r.resetAtMs && 0 <= room
            && (r.allowed <==> c.cost <= room)
            && r.remaining == (if r.allowed then room - c.cost else 0)
            && r.retryAfterMs == (if r.allowed then None else Some(r.resetAtMs - c.now))
  {
    var c, before := calls[i], calls[..i];
    WindowKept(o, before, c.key, c.now);
    hide Accepted;
    var buckets := MemoryAfter(o, before);
    if c.key in buckets && c.now - buckets[c.key].windowStartMs < o.windowMs {
      var start := buckets[c.key].windowStartMs;
      AcceptedBefore(o, before, c.key, start, c.now + 1, start + o.windowMs);
    } else {
      NewWindow(o, before, c.key, c.now);
      assert Accepted(o, before, c.key, c.now, c.now + o.windowMs) == 0;
    }
  }

  /** Over any stretch of `windowMs`, wherever it begins, at most twice `maxRequests` is accepted. */
  lemma {:induction false} RateBound(o: Options, calls: seq<Call>, key: string, from: int, last: int)
    requires o.windowMs >= 1 && o.maxRequests >= 0 && CallsFit(calls, last)
    ensures Accepted(o, calls, key, from, from + o.windowMs) <= 2 * o.maxRequests
    decreases |calls|
  {
    if calls != [] {
      var n := |calls| - 1;
      var c := calls[n];
      RateBound(o, calls[..n], key, from, last);
      if c.key == key && from <= c.now < from + o.windowMs && MemoryAnswer(o, calls, n).allowed {
        WindowKept(o, calls, key, c.now);
        var start := MemoryAfter(o, calls)[key].windowStartMs;
        AcceptedBefore(o, calls, key, from, c.now + 1, from + o.windowMs);
        if from <= start {
          AcceptedSplits(o, calls, key, from, start, c.now + 1);
        } else {
          AcceptedWithin(o, calls, key, start, from, c.now + 1, c.now + 1);
        }
      }
    }
  }

  /** No smaller bound holds: a full window's worth just before a window ends and another just after. */
  lemma RateBoundIsTight(o: Options)
    requires o.windowMs >= 2 && o.maxRequests >= 0
    ensures var calls := [Call("k", 0, 0), Call("k", o.maxRequests, o.windowMs - 1), Call("k", o.maxRequests, o.windowMs)];
            CallsFit(calls, o.windowMs)
            && Accepted(o, calls, "k", o.windowMs - 1, 2 * o.windowMs - 1) == 2 * o.maxRequests
  {
    var calls := [Call("k", 0, 0), Call("k", o.maxRequests, o.windowMs - 1), Call("k", o.maxRequests, o.windowMs)];
    var one, two := calls[..1], calls[..2];
    assert one[..0] == [] && two[..1] == one && calls[..2] == two;
    assert MemoryAfter(o, one) == map["k" := Bucket(0, 0)];
    assert MemoryAfter(o, two) == map["k" := Bucket(o.maxRequests, 0)];
    assert Accepted(o, one, "k", o.windowMs - 1, 2 * o.windowMs - 1) == 0;
    assert Accepted(o, two, "k", o.windowMs - 1, 2 * o.windowMs - 1) == o.maxRequests;
  }

  /** The cost the Redis limiter accepted. */
  ghost function RedisAccepted(o: Options, calls: seq<Call>, key: string, from: int, to: int): int
    decreases |calls|
  {
    if calls == [] then 0 else
      var n := |calls| - 1;
      var c := calls[n];
      RedisAccepted(o, calls[..n], key, from, to)
      + if c.key == key && from <= c.now < to && RedisAnswer(o, calls, n).allowed then c.cost else 0
  }

  lemma {:induction false} SameAccepted(o: Options, calls: seq<Call>, key: string, from: int, to: int)
    requires o.windowMs >= 1 && Monotone(calls) && CostsUpTo(calls, o.maxRequests)
    ensures RedisAccepted(o, calls, key, from, to) == Accepted(o, calls, key, from, to)
    decreases |calls|
  {
    if calls != [] {
      AnswersAgree(o, calls, o.maxRequests);
      SameAccepted(o, calls[..|calls| - 1], key, from, to);
    }
  }

  /** The same bound for the Redis limiter. */
  lemma RedisRateBound(o: Options, calls: seq<Call>, key: string, from: int)
    requires o.windowMs >= 1 && o.maxRequests >= 0 && Monotone(calls) && CostsUpTo(calls, o.maxRequests)
    ensures RedisAccepted(o, calls, key, from, from + o.windowMs) <= 2 * o.maxRequests
  {
    SameAccepted(o, calls, key, from, from + o.windowMs);
    RateBound(o, calls, key, from, if calls == [] then 0 else calls[|calls| - 1].now);
  }
}
