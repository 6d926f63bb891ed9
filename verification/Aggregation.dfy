/** Candle aggregation of app/analysis/multi_timeframe.py. Times are UTC microseconds. */
module Aggregation {
  import opened Prelude
  import opened MarketData

  const HOUR := 3_600_000_000

  function MinuteOf(t: int): (m: int)
    ensures 0 <= m < 60
  {
    t % HOUR / MINUTE
  }

  /** The minute of the hour floored to a multiple of the timeframe, on the full minute. The floor works
      inside the hour, so buckets never reach across it. */
  function BucketOpen(t: int, timeframe: int): int
    requires timeframe >= 1
  {
    t - t % HOUR + MinuteOf(t) / timeframe * timeframe * MINUTE
  }

  function Digits(n: nat): string {
    if n < 10 then ["0123456789"[n]] else Digits(n / 10) + ["0123456789"[n % 10]]
  }

  function Label(timeframe: nat): string {
    Digits(timeframe) + "m"
  }

  // ----- totals of a run of candles -----

  function Volume(cs: seq<Candle>): real {
    if cs == [] then 0.0 else cs[0].volume + Volume(cs[1..])
  }

  function QuoteVolume(cs: seq<Candle>): real {
    if cs == [] then 0.0 else cs[0].quoteVolume + QuoteVolume(cs[1..])
  }

  function Trades(cs: seq<Candle>): int {
    if cs == [] then 0 else cs[0].tradeCount + Trades(cs[1..])
  }

  function Highest(cs: seq<Candle>): real
    requires cs != []
  {
    if |cs| == 1 then cs[0].high else Max(cs[0].high, Highest(cs[1..]))
  }

  function Lowest(cs: seq<Candle>): real
    requires cs != []
  {
    if |cs| == 1 then cs[0].low else Min(cs[0].low, Lowest(cs[1..]))
  }

  predicate AllClosed(cs: seq<Candle>) {
    forall i :: 0 <= i < |cs| ==> cs[i].isClosed
  }

  /** The start of the bucket a time falls into. */
  type Key = int -> int

  function Floor(timeframe: int): Key
    requires timeframe >= 1
  {
    t => BucketOpen(t, timeframe)
  }

  function Merge(bucket: seq<Candle>, key: Key, name: string): Candle
    requires bucket != []
  {
    var first, last := bucket[0], bucket[|bucket| - 1];
    Candle(first.symbol, name, first.open, Highest(bucket), Lowest(bucket), last.close,
      Volume(bucket), QuoteVolume(bucket), key(first.openTime), last.closeTime, last.eventTime,
      Trades(bucket), AllClosed(bucket))
  }

  // ----- buckets -----

  /** How many candles at the front share the first one's bucket. */
  function RunLength(cs: seq<Candle>, key: Key): (n: nat)
    requires cs != []
    ensures 1 <= n <= |cs|
    ensures forall i :: 0 <= i < n ==> key(cs[i].openTime) == key(cs[0].openTime)
    ensures n < |cs| ==> key(cs[n].openTime) != key(cs[0].openTime)
  {
    if |cs| == 1 || key(cs[1].openTime) != key(cs[0].openTime) then 1
    else 1 + RunLength(cs[1..], key)
  }

  function Buckets(cs: seq<Candle>, key: Key): seq<seq<Candle>> {
    if cs == [] then []
    else
      var n := RunLength(cs, key);
      [cs[..n]] + Buckets(cs[n..], key)
  }

  function Grouped(cs: seq<Candle>, key: Key, name: string): seq<Candle> {
    if cs == [] then []
    else
      var n := RunLength(cs, key);
      [Merge(cs[..n], key, name)] + Grouped(cs[n..], key, name)
  }

  function Aggregate(cs: seq<Candle>, timeframe: int): seq<Candle> {
    if timeframe <= 1 then cs else Grouped(cs, Floor(timeframe), Label(timeframe))
  }

  // ----- the buckets partition the input into maximal runs -----

  function Flatten(groups: seq<seq<Candle>>): seq<Candle> {
    if groups == [] then [] else groups[0] + Flatten(groups[1..])
  }

  ghost predicate Uniform(bucket: seq<Candle>, key: Key) {
    bucket != [] && forall i :: 0 <= i < |bucket| ==> key(bucket[i].openTime) == key(bucket[0].openTime)
  }

  /** Non-empty buckets, each opening another bucket time than the one before. */
  ghost predicate NeighboursDiffer(groups: seq<seq<Candle>>, key: Key) {
    && (forall k :: 0 <= k < |groups| ==> groups[k] != [])
    && (forall k :: 1 <= k < |groups| ==> key(groups[k - 1][0].openTime) != key(groups[k][0].openTime))
  }

  /** Nothing is lost, duplicated or reordered. */
  lemma {:induction false} FlattenBuckets(cs: seq<Candle>, key: Key)
    ensures Flatten(Buckets(cs, key)) == cs
    decreases |cs|
  {
    if cs != [] {
      FlattenBuckets(cs[RunLength(cs, key)..], key);
    }
  }

  lemma NeighboursPrepend(bucket: seq<Candle>, groups: seq<seq<Candle>>, key: Key)
    requires bucket != [] && NeighboursDiffer(groups, key)
    requires groups != [] ==> key(bucket[0].openTime) != key(groups[0][0].openTime)
    ensures NeighboursDiffer([bucket] + groups, key)
  {
  }

  /** Every bucket is one run, and neighbouring buckets differ: the runs are maximal. */
  lemma {:induction false} BucketsAreMaximalRuns(cs: seq<Candle>, key: Key)
    ensures forall k :: 0 <= k < |Buckets(cs, key)| ==> Uniform(Buckets(cs, key)[k], key)
    ensures NeighboursDiffer(Buckets(cs, key), key)
    ensures cs != [] ==> Buckets(cs, key) != [] && Buckets(cs, key)[0][0] == cs[0]
    decreases |cs|
  {
    if cs != [] {
      var n := RunLength(cs, key);
      var rest := Buckets(cs[n..], key);
      BucketsAreMaximalRuns(cs[n..], key);
      NeighboursPrepend(cs[..n], rest, key);
      assert Uniform(cs[..n], key);
      assert Buckets(cs, key) == [cs[..n]] + rest;
    }
  }

  /** One output candle per bucket, merged from it. */
  lemma {:induction false} OneBarPerBucket(cs: seq<Candle>, key: Key, name: string)
    ensures |Grouped(cs, key, name)| == |Buckets(cs, key)|
    ensures forall k :: 0 <= k < |Buckets(cs, key)| ==>
      Buckets(cs, key)[k] != [] && Grouped(cs, key, name)[k] == Merge(Buckets(cs, key)[k], key, name)
    decreases |cs|
  {
    if cs != [] {
      OneBarPerBucket(cs[RunLength(cs, key)..], key, name);
    }
  }

  // ----- conservation -----

  /** Two runs of candles that merge to the same bar. */
  predicate SameTotals(xs: seq<Candle>, ys: seq<Candle>)
    requires xs != [] && ys != []
  {
    && xs[0].symbol == ys[0].symbol && xs[0].open == ys[0].open
    && xs[|xs| - 1].close == ys[|ys| - 1].close
    && xs[|xs| - 1].closeTime == ys[|ys| - 1].closeTime && xs[|xs| - 1].eventTime == ys[|ys| - 1].eventTime
    && Highest(xs) == Highest(ys) && Lowest(xs) == Lowest(ys)
    && Volume(xs) == Volume(ys) && QuoteVolume(xs) == QuoteVolume(ys) && Trades(xs) == Trades(ys)
    && AllClosed(xs) == AllClosed(ys)
  }

  lemma {:induction false} SumsConcat(xs: seq<Candle>, ys: seq<Candle>)
    ensures Volume(xs + ys) == Volume(xs) + Volume(ys)
    ensures QuoteVolume(xs + ys) == QuoteVolume(xs) + QuoteVolume(ys)
    ensures Trades(xs + ys) == Trades(xs) + Trades(ys)
  {
    if xs == [] {
      assert xs + ys == ys;
    } else {
      assert (xs + ys)[1..] == xs[1..] + ys;
      SumsConcat(xs[1..], ys);
    }
  }

  lemma {:induction false} ExtremesConcat(xs: seq<Candle>, ys: seq<Candle>)
    requires xs != [] && ys != []
    ensures Highest(xs + ys) == Max(Highest(xs), Highest(ys))
    ensures Lowest(xs + ys) == Min(Lowest(xs), Lowest(ys))
  {
    assert (xs + ys)[1..] == xs[1..] + ys;
    if |xs| == 1 {
      assert xs[1..] + ys == ys;
    } else {
      ExtremesConcat(xs[1..], ys);
    }
  }

  lemma TotalsConcat(xs: seq<Candle>, xs': seq<Candle>, ys: seq<Candle>, ys': seq<Candle>)
    requires xs != [] && xs' != [] && ys != [] && ys' != []
    requires SameTotals(xs, xs') && SameTotals(ys, ys')
    ensures SameTotals(xs + ys, xs' + ys')
  {
    SumsConcat(xs, ys);
    SumsConcat(xs', ys');
    ExtremesConcat(xs, ys);
    ExtremesConcat(xs', ys');
    ClosedConcat(xs, ys);
    ClosedConcat(xs', ys');
  }

  lemma ClosedConcat(xs: seq<Candle>, ys: seq<Candle>)
    ensures AllClosed(xs + ys) <==> AllClosed(xs) && AllClosed(ys)
  {
    if AllClosed(xs + ys) {
      assert forall i :: 0 <= i < |xs| ==> (xs + ys)[i] == xs[i];
      assert forall i :: 0 <= i < |ys| ==> (xs + ys)[|xs| + i] == ys[i];
    }
  }

  lemma MergeKeepsTotals(bucket: seq<Candle>, key: Key, name: string)
    requires bucket != []
    ensures SameTotals([Merge(bucket, key, name)], bucket)
  {
    var m := [Merge(bucket, key, name)];
    assert m[1..] == [];
  }

  lemma {:induction false} GroupedConserves(cs: seq<Candle>, key: Key, name: string)
    requires cs != []
    ensures Grouped(cs, key, name) != [] && SameTotals(Grouped(cs, key, name), cs)
    decreases |cs|
  {
    var n := RunLength(cs, key);
    var head, tail := cs[..n], cs[n..];
    var bar, rest := [Merge(head, key, name)], Grouped(tail, key, name);
    MergeKeepsTotals(head, key, name);
    assert Grouped(cs, key, name) == bar + rest && head + tail == cs;
    if tail != [] {
      GroupedConserves(tail, key, name);
      TotalsConcat(bar, head, rest, tail);
    } else {
      assert head == cs && bar + rest == bar;
    }
  }

  /** Aggregation conserves volume, quote volume, trade count, the global high and low, the first open, the
      last close with its times, and whether everything is closed. */
  lemma AggregateConserves(cs: seq<Candle>, timeframe: int)
    requires cs != []
    ensures Aggregate(cs, timeframe) != [] && SameTotals(Aggregate(cs, timeframe), cs)
  {
    if timeframe > 1 {
      GroupedConserves(cs, Floor(timeframe), Label(timeframe));
    }
  }

  // ----- order -----

  lemma MulMonotone(x: int, y: int, n: int)
    requires x <= y && n >= 0
    ensures x * n <= y * n
  {
  }

  lemma FloorMonotone(x: int, y: int, n: int)
    requires 0 <= x <= y && n >= 1
    ensures x / n * n <= y / n * n <= y
    ensures 0 <= x / n * n <= x < x / n * n + n
  {
    var p, q := x / n, y / n;
    DivisionParts(x, n);
    DivisionParts(y, n);
    if p > q {
      MulMonotone(q + 1, p, n);
    } else {
      MulMonotone(p, q, n);
    }
  }

  lemma DivisionParts(x: int, n: int)
    requires n >= 1
    ensures x / n * n <= x < x / n * n + n
    ensures x >= 0 ==> x / n >= 0 && x / n * n >= 0
  {
    assert x == x / n * n + x % n;
  }

  lemma BucketMonotone(s: int, t: int, timeframe: int)
    requires s <= t && timeframe >= 1
    ensures BucketOpen(s, timeframe) <= BucketOpen(t, timeframe)
  {
    FloorMonotone(0, MinuteOf(s), timeframe);
    FloorMonotone(0, MinuteOf(t), timeframe);
    if s / HOUR == t / HOUR {
      FloorMonotone(MinuteOf(s), MinuteOf(t), timeframe);
    } else {
      assert s - s % HOUR + HOUR <= t - t % HOUR;
    }
  }

  ghost predicate Ordered(cs: seq<Candle>) {
    forall i, j :: 0 <= i < j < |cs| ==> cs[i].openTime <= cs[j].openTime
  }

  ghost predicate StrictlyOrdered(cs: seq<Candle>) {
    forall i, j :: 0 <= i < j < |cs| ==> cs[i].openTime < cs[j].openTime
  }

  ghost predicate Monotone(key: Key) {
    forall s, t :: s <= t ==> key(s) <= key(t)
  }

  lemma {:induction false} OrderedGroupsIncrease(cs: seq<Candle>, key: Key, name: string)
    requires Monotone(key) && Ordered(cs)
    ensures StrictlyOrdered(Grouped(cs, key, name))
    ensures cs != [] ==> Grouped(cs, key, name) != [] && Grouped(cs, key, name)[0].openTime == key(cs[0].openTime)
    decreases |cs|
  {
    if cs != [] {
      var n := RunLength(cs, key);
      var tail := cs[n..];
      OrderedGroupsIncrease(tail, key, name);
      if n < |cs| {
        assert key(cs[0].openTime) < key(cs[n].openTime);
        assert tail[0] == cs[n];
        PrependSmaller(Merge(cs[..n], key, name), Grouped(tail, key, name));
      }
    }
  }

  lemma PrependSmaller(c: Candle, cs: seq<Candle>)
    requires StrictlyOrdered(cs) && cs != [] && c.openTime < cs[0].openTime
    ensures StrictlyOrdered([c] + cs)
  {
  }

  /** Candles in time order give bars that open in strictly increasing time, the first at the start of its bucket. */
  lemma OrderedBucketsIncrease(cs: seq<Candle>, timeframe: int)
    requires timeframe > 1 && Ordered(cs)
    ensures StrictlyOrdered(Aggregate(cs, timeframe))
    ensures cs != [] ==>
      Aggregate(cs, timeframe) != [] && Aggregate(cs, timeframe)[0].openTime == BucketOpen(cs[0].openTime, timeframe)
  {
    forall s, t | s <= t
      ensures Floor(timeframe)(s) <= Floor(timeframe)(t)
    {
      BucketMonotone(s, t, timeframe);
    }
    OrderedGroupsIncrease(cs, Floor(timeframe), Label(timeframe));
  }

  // ----- composition -----

  /** Flooring by `fine` first does not change the floor by `coarse`. */
  ghost predicate Refines(fine: Key, coarse: Key) {
    forall t :: coarse(fine(t)) == coarse(t)
  }

  /** The first run ends where the bucket first changes. */
  lemma {:induction false} RunLengthIs(cs: seq<Candle>, n: nat, key: Key)
    requires 1 <= n <= |cs|
    requires forall i :: 0 <= i < n ==> key(cs[i].openTime) == key(cs[0].openTime)
    requires n < |cs| ==> key(cs[n].openTime) != key(cs[0].openTime)
    ensures RunLength(cs, key) == n
  {
    if n > 1 {
      RunLengthIs(cs[1..], n - 1, key);
    }
  }

  lemma RunLengthConcat(xs: seq<Candle>, ys: seq<Candle>, key: Key)
    requires xs != []
    requires ys != [] ==> key(xs[|xs| - 1].openTime) != key(ys[0].openTime)
    ensures RunLength(xs + ys, key) == RunLength(xs, key)
  {
    var n := RunLength(xs, key);
    assert n == |xs| ==> key(xs[|xs| - 1].openTime) == key(xs[0].openTime);
    RunLengthIs(xs + ys, n, key);
  }

  /** A finished run followed by a candle of another bucket. */
  lemma CloseBucket(current: seq<Candle>, rest: seq<Candle>, key: Key)
    requires Uniform(current, key)
    requires rest != [] ==> key(rest[0].openTime) != key(current[0].openTime)
    ensures Buckets(current + rest, key) == [current] + Buckets(rest, key)
  {
    RunLengthConcat(current, rest, key);
    assert RunLength(current, key) == |current|;
    assert (current + rest)[..|current|] == current && (current + rest)[|current|..] == rest;
  }

  /** The first run of `xs` is a bucket whatever follows `xs`. */
  lemma FirstBucket(xs: seq<Candle>, ys: seq<Candle>, key: Key)
    requires xs != [] && (ys != [] ==> key(xs[|xs| - 1].openTime) != key(ys[0].openTime))
    ensures Buckets(xs + ys, key) == [xs[..RunLength(xs, key)]] + Buckets(xs[RunLength(xs, key)..] + ys, key)
  {
    var n, zs := RunLength(xs, key), xs + ys;
    RunLengthConcat(xs, ys, key);
    SplitConcat(xs, ys, n);
    assert Buckets(zs, key) == [zs[..n]] + Buckets(zs[n..], key);
  }

  lemma {:induction false} BucketsConcat(xs: seq<Candle>, ys: seq<Candle>, key: Key)
    requires ys != [] && (xs != [] ==> key(xs[|xs| - 1].openTime) != key(ys[0].openTime))
    ensures Buckets(xs + ys, key) == Buckets(xs, key) + Buckets(ys, key)
    decreases |xs|
  {
    if xs == [] {
      assert xs + ys == ys;
    } else {
      var n := RunLength(xs, key);
      FirstBucket(xs, ys, key);
      BucketsConcat(xs[n..], ys, key);
      assert Buckets(xs, key) == [xs[..n]] + Buckets(xs[n..], key);
      AppendAssociates([xs[..n]], Buckets(xs[n..], key), Buckets(ys, key));
    }
  }

  lemma GroupsConcat(xs: seq<Candle>, ys: seq<Candle>, key: Key, name: string)
    requires xs != [] && ys != [] && key(xs[|xs| - 1].openTime) != key(ys[0].openTime)
    ensures Grouped(xs + ys, key, name) == Grouped(xs, key, name) + Grouped(ys, key, name)
  {
    BucketsConcat(xs, ys, key);
    OneBarPerBucket(xs, key, name);
    OneBarPerBucket(ys, key, name);
    OneBarPerBucket(xs + ys, key, name);
    var all, front, back := Buckets(xs + ys, key), Buckets(xs, key), Buckets(ys, key);
    forall k | 0 <= k < |all|
      ensures Grouped(xs + ys, key, name)[k] == (Grouped(xs, key, name) + Grouped(ys, key, name))[k]
    {
      assert all[k] == if k < |front| then front[k] else back[k - |front|];
    }
  }

  /** The bars of a run within one coarse bucket lie within that bucket. */
  lemma {:induction false} BarsStayInBucket(cs: seq<Candle>, fine: Key, name: string, coarse: Key, open: int)
    requires Refines(fine, coarse)
    requires forall i :: 0 <= i < |cs| ==> coarse(cs[i].openTime) == open
    ensures forall k :: 0 <= k < |Grouped(cs, fine, name)| ==> coarse(Grouped(cs, fine, name)[k].openTime) == open
    decreases |cs|
  {
    if cs != [] {
      BarsStayInBucket(cs[RunLength(cs, fine)..], fine, name, coarse, open);
    }
  }

  lemma FirstBar(cs: seq<Candle>, key: Key, name: string)
    requires cs != []
    ensures Grouped(cs, key, name) != [] && Grouped(cs, key, name)[0].openTime == key(cs[0].openTime)
  {
  }

  lemma WholeRun(xs: seq<Candle>, key: Key, name: string)
    requires Uniform(xs, key)
    ensures Grouped(xs, key, name) == [Merge(xs, key, name)]
  {
    var n := RunLength(xs, key);
    assert n == |xs| && xs[..n] == xs && xs[n..] == [];
  }

  /** One coarse bucket: its bars merge to the same bar as its candles. */
  lemma OneCoarseBucket(head: seq<Candle>, fine: Key, fineLabel: string, coarse: Key, name: string)
    requires Refines(fine, coarse) && Uniform(head, coarse)
    ensures Grouped(Grouped(head, fine, fineLabel), coarse, name) == [Merge(head, coarse, name)]
  {
    var bars := Grouped(head, fine, fineLabel);
    BarsStayInBucket(head, fine, fineLabel, coarse, coarse(head[0].openTime));
    GroupedConserves(head, fine, fineLabel);
    FirstBar(head, fine, fineLabel);
    WholeRun(bars, coarse, name);
    assert Merge(bars, coarse, name) == Merge(head, coarse, name);
  }

  /** Aggregating in two steps equals aggregating at once whenever the coarse floor absorbs the fine one. */
  lemma {:induction false} GroupingComposes(cs: seq<Candle>, fine: Key, fineLabel: string, coarse: Key, name: string)
    requires Refines(fine, coarse)
    ensures Grouped(Grouped(cs, fine, fineLabel), coarse, name) == Grouped(cs, coarse, name)
    decreases |cs|
  {
    if cs != [] {
      var n := RunLength(cs, coarse);
      var head, tail := cs[..n], cs[n..];
      var bars := Grouped(head, fine, fineLabel);
      assert head + tail == cs;
      OneCoarseBucket(head, fine, fineLabel, coarse, name);
      if tail != [] {
        var rest := Grouped(tail, fine, fineLabel);
        GroupingComposes(tail, fine, fineLabel, coarse, name);
        GroupsConcat(head, tail, fine, fineLabel);
        FirstBar(head, fine, fineLabel);
        FirstBar(tail, fine, fineLabel);
        BarsStayInBucket(head, fine, fineLabel, coarse, coarse(cs[0].openTime));
        GroupsConcat(bars, rest, coarse, name);
      } else {
        assert head == cs;
      }
    }
  }

  // ----- exactly when flooring refines -----

  /** A multiple of `a` that `m` reaches is reached by the floor of `m` too. */
  lemma FloorReachesMultiple(m: int, a: int, j: int)
    requires 0 <= m && 1 <= a && j * a <= m
    ensures j * a <= m / a * a <= m
  {
    FloorMonotone(m, m, a);
    if m / a < j {
      MulMonotone(m / a + 1, j, a);
    } else {
      MulMonotone(j, m / a, a);
    }
  }

  lemma FloorTwice(m: int, a: int, b: int)
    requires 0 <= m && 1 <= a && 1 <= b && b % a == 0
    ensures m / a * a / b == m / b
  {
    var k, q := b / a, m / b;
    assert b == k * a;
    assert q * b == q * k * a;
    FloorMonotone(m, m, b);
    FloorReachesMultiple(m, a, q * k);
    Quotient(m / a * a, q, b);
  }

  lemma Quotient(x: int, q: int, b: int)
    requires b >= 1 && q * b <= x < q * b + b
    ensures x / b == q
  {
    var p := x / b;
    assert p * b <= x < p * b + b;
    if p < q {
      MulMonotone(p + 1, q, b);
    } else if p > q {
      MulMonotone(q + 1, p, b);
    }
  }

  lemma BucketParts(t: int, a: int)
    requires a >= 1
    ensures var s := BucketOpen(t, a);
      s - s % HOUR == t - t % HOUR && MinuteOf(s) == MinuteOf(t) / a * a
  {
    FloorMonotone(0, MinuteOf(t), a);
    var m := MinuteOf(t) / a * a;
    assert 0 <= m * MINUTE < HOUR;
    var s := BucketOpen(t, a);
    var h := t / HOUR;
    assert s == h * HOUR + m * MINUTE;
    Quotient(s, h, HOUR);
    assert s % HOUR == m * MINUTE;
  }

  predicate Compatible(a: int, b: int)
    requires a >= 1
  {
    b % a == 0 || b >= 60
  }

  lemma CompatibleFloors(t: int, a: int, b: int)
    requires 2 <= a && 2 <= b && Compatible(a, b)
    ensures BucketOpen(BucketOpen(t, a), b) == BucketOpen(t, b)
  {
    BucketParts(t, a);
    var m := MinuteOf(t);
    FloorMonotone(m, m, a);
    if b % a == 0 {
      FloorTwice(m, a, b);
    } else {
      Quotient(m, 0, b);
      Quotient(m / a * a, 0, b);
    }
  }

  lemma CompatibleRefines(a: int, b: int)
    requires 2 <= a && 2 <= b && Compatible(a, b)
    ensures Refines(Floor(a), Floor(b))
  {
    forall t
      ensures Floor(b)(Floor(a)(t)) == Floor(b)(t)
    {
      CompatibleFloors(t, a, b);
    }
  }

  ghost predicate Composes(a: int, b: int) {
    forall cs :: Aggregate(Aggregate(cs, a), b) == Aggregate(cs, b)
  }

  function SampleCandle(openTime: int): Candle {
    Candle("", "", 0.0, 0.0, 0.0, 0.0, 0.0, 0.0, openTime, 0, 0, 0, true)
  }

  lemma SingleBar(c: Candle, timeframe: int)
    requires timeframe >= 2
    ensures Aggregate([c], timeframe) == [Merge([c], Floor(timeframe), Label(timeframe))]
    ensures Aggregate([c], timeframe)[0].openTime == BucketOpen(c.openTime, timeframe)
  {
    WholeRun([c], Floor(timeframe), Label(timeframe));
  }

  /** Two-step aggregation agrees with one-step aggregation on all inputs exactly when the first step is the
      identity, or the second timeframe is a real one that the first divides or that spans the hour. */
  lemma CompositionLaw(a: int, b: int)
    ensures Composes(a, b) <==> (a <= 1 || (b >= 2 && Compatible(a, b)))
  {
    if a > 1 && b >= 2 && Compatible(a, b) {
      CompatibleRefines(a, b);
      forall cs
        ensures Aggregate(Aggregate(cs, a), b) == Aggregate(cs, b)
      {
        GroupingComposes(cs, Floor(a), Label(a), Floor(b), Label(b));
      }
    } else if a > 1 {
      IncompatibleDiffer(a, b);
    }
  }

  /** Minute `b` of the first hour, floored by `a`, falls below `b` when `a` does not divide `b`. */
  lemma MissedMultiple(a: int, b: int)
    requires 2 <= a && 2 <= b < 60 && b % a != 0
    ensures BucketOpen(BucketOpen(b * MINUTE, a), b) == 0
    ensures BucketOpen(b * MINUTE, b) == b * MINUTE
  {
    var t := b * MINUTE;
    Quotient(t, 0, HOUR);
    Quotient(t, b, MINUTE);
    assert t % HOUR == t && MinuteOf(t) == b;
    BucketParts(t, a);
    FloorMonotone(b, b, a);
    assert b == b / a * a + b % a;
    Quotient(b / a * a, 0, b);
    Quotient(b, 1, b);
    assert 0 <= b / a * a * MINUTE < HOUR;
    Quotient(b / a * a * MINUTE, 0, HOUR);
  }

  lemma FirstMinute(a: int)
    requires 2 <= a
    ensures BucketOpen(MINUTE, a) == 0
  {
    assert MINUTE % HOUR == MINUTE && MinuteOf(MINUTE) == 1;
    Quotient(1, 0, a);
  }

  /** Otherwise a single candle tells the two apart. */
  lemma IncompatibleDiffer(a: int, b: int)
    requires a > 1 && !(b >= 2 && Compatible(a, b))
    ensures !Composes(a, b)
  {
    var c := SampleCandle(if b <= 1 then MINUTE else b * MINUTE);
    SingleBar(c, a);
    var bars := Aggregate([c], a);
    if b <= 1 {
      FirstMinute(a);
      assert bars[0] != c;
    } else {
      SingleBar(bars[0], b);
      SingleBar(c, b);
      MissedMultiple(a, b);
      assert bars == [bars[0]];
    }
    assert Aggregate(Aggregate([c], a), b) != Aggregate([c], b);
  }

  // ----- the two loops -----

  /** Closed buckets, the current one, and what is left to read: together they make all the buckets. */
  ghost predicate Collected(candles: seq<Candle>, key: Key, buckets: seq<seq<Candle>>, current: seq<Candle>,
                            rest: seq<Candle>)
  {
    Buckets(candles, key) == buckets + Buckets(current + rest, key)
  }

  lemma CollectNone(candles: seq<Candle>, key: Key)
    ensures Collected(candles, key, [], [], candles)
  {
    assert [] + candles == candles;
  }

  /** A candle of another bucket closes the current one. */
  lemma SwitchBucket(candles: seq<Candle>, key: Key, buckets: seq<seq<Candle>>, current: seq<Candle>,
                     c: Candle, rest: seq<Candle>)
    requires Collected(candles, key, buckets, current, [c] + rest)
    requires current != [] ==> Uniform(current, key) && key(c.openTime) != key(current[0].openTime)
    ensures Collected(candles, key, if current == [] then buckets else buckets + [current], [c], rest)
  {
    if current == [] {
      assert current + ([c] + rest) == [c] + rest;
    } else {
      CloseBucket(current, [c] + rest, key);
    }
  }

  lemma ExtendBucket(candles: seq<Candle>, key: Key, buckets: seq<seq<Candle>>, current: seq<Candle>,
                     c: Candle, rest: seq<Candle>)
    requires Collected(candles, key, buckets, current, [c] + rest)
    ensures Collected(candles, key, buckets, current + [c], rest)
  {
    assert current + ([c] + rest) == (current + [c]) + rest;
  }

  lemma CollectAll(candles: seq<Candle>, key: Key, buckets: seq<seq<Candle>>, current: seq<Candle>)
    requires Collected(candles, key, buckets, current, [])
    requires current != [] ==> Uniform(current, key)
    ensures Buckets(candles, key) == if current == [] then buckets else buckets + [current]
  {
    if current != [] {
      CloseBucket(current, [], key);
    }
  }

  /** The loop after `i` candles. */
  ghost predicate Scanned(candles: seq<Candle>, key: Key, i: nat, buckets: seq<seq<Candle>>,
                          current: seq<Candle>, currentOpen: Option<int>)
  {
    && i <= |candles|
    && (currentOpen.None? ==> current == [])
    && (currentOpen.Some? ==> Uniform(current, key) && currentOpen.value == key(current[0].openTime))
    && Collected(candles, key, buckets, current, candles[i..])
  }

  lemma ScanStart(candles: seq<Candle>, key: Key)
    ensures Scanned(candles, key, 0, [], [], None)
  {
    CollectNone(candles, key);
    assert candles[0..] == candles;
  }

  lemma ScanSwitch(candles: seq<Candle>, key: Key, i: nat, buckets: seq<seq<Candle>>,
                   current: seq<Candle>, currentOpen: Option<int>)
    requires Scanned(candles, key, i, buckets, current, currentOpen) && i < |candles|
    requires currentOpen != Some(key(candles[i].openTime))
    ensures Scanned(candles, key, i + 1, if current == [] then buckets else buckets + [current],
      [candles[i]], Some(key(candles[i].openTime)))
  {
    assert candles[i..] == [candles[i]] + candles[i + 1..];
    SwitchBucket(candles, key, buckets, current, candles[i], candles[i + 1..]);
  }

  lemma ScanExtend(candles: seq<Candle>, key: Key, i: nat, buckets: seq<seq<Candle>>,
                   current: seq<Candle>, currentOpen: Option<int>)
    requires Scanned(candles, key, i, buckets, current, currentOpen) && i < |candles|
    requires currentOpen == Some(key(candles[i].openTime))
    ensures Scanned(candles, key, i + 1, buckets, current + [candles[i]], currentOpen)
  {
    assert candles[i..] == [candles[i]] + candles[i + 1..];
    ExtendBucket(candles, key, buckets, current, candles[i], candles[i + 1..]);
  }

  lemma ScanEnd(candles: seq<Candle>, key: Key, buckets: seq<seq<Candle>>, current: seq<Candle>,
                currentOpen: Option<int>)
    requires Scanned(candles, key, |candles|, buckets, current, currentOpen)
    ensures Buckets(candles, key) == if current == [] then buckets else buckets + [current]
  {
    assert candles[|candles|..] == [];
    CollectAll(candles, key, buckets, current);
  }

  method CollectBuckets(candles: seq<Candle>, key: Key) returns (buckets: seq<seq<Candle>>)
    ensures buckets == Buckets(candles, key)
  {
    buckets := [];
    var current: seq<Candle> := [];
    var currentOpen: Option<int> := None;
    ScanStart(candles, key);
    var i := 0;
    while i < |candles|
      invariant 0 <= i <= |candles|
      invariant Scanned(candles, key, i, buckets, current, currentOpen)
    {
      var open := key(candles[i].openTime);
      if currentOpen.None? || open != currentOpen.value {
        ScanSwitch(candles, key, i, buckets, current, currentOpen);
        if current != [] {
          buckets := buckets + [current];
        }
        current := [candles[i]];
        currentOpen := Some(open);
      } else {
        ScanExtend(candles, key, i, buckets, current, currentOpen);
        current := current + [candles[i]];
      }
      i := i + 1;
    }
    ScanEnd(candles, key, buckets, current, currentOpen);
    if current != [] {
      buckets := buckets + [current];
    }
  }

  method AggregateCandles(candles: seq<Candle>, timeframe: int) returns (aggregated: seq<Candle>)
    ensures aggregated == Aggregate(candles, timeframe)
  {
    if timeframe <= 1 {
      return candles;
    }
    var key, name := Floor(timeframe), Label(timeframe);
    var buckets := CollectBuckets(candles, key);
    OneBarPerBucket(candles, key, name);
    aggregated := [];
    var k := 0;
    while k < |buckets|
      invariant 0 <= k <= |buckets|
      invariant aggregated == Grouped(candles, key, name)[..k]
    {
      aggregated := aggregated + [Merge(buckets[k], key, name)];
      k := k + 1;
    }
  }
}
