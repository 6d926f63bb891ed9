/** Swing levels of app/analysis/support_resistance.py: a swing scan and a greedy spacing. */
module SwingLevels {
  import opened Prelude
  import opened MarketData
  import opened Sorting

  datatype Side = Support | Resistance

  function Extreme(c: Candle, side: Side): real {
    match side
    case Support => c.low
    case Resistance => c.high
  }

  /** At least as extreme: no higher for a support, no lower for a resistance. */
  predicate AtLeast(a: real, b: real, side: Side) {
    match side
    case Support => a <= b
    case Resistance => a >= b
  }

  predicate OnSide(level: real, price: real, side: Side) {
    match side
    case Support => level < price
    case Resistance => level > price
  }

  predicate Neighbour(i: int, j: int, window: nat) {
    i - window <= j <= i + window && j != i
  }

  /** The candle at `i` has a full window on both sides, is as extreme as all of it and more than some of it. */
  predicate SwingAt(cs: seq<Candle>, i: int, window: nat, side: Side) {
    && window <= i < |cs| - window
    && (forall j :: 0 <= j < |cs| && Neighbour(i, j, window) ==>
         AtLeast(Extreme(cs[i], side), Extreme(cs[j], side), side))
    && (exists j :: 0 <= j < |cs| && Neighbour(i, j, window) && Extreme(cs[i], side) != Extreme(cs[j], side))
  }

  function RawUpTo(cs: seq<Candle>, window: nat, side: Side, n: nat): seq<real>
    requires n <= |cs|
  {
    if n == 0 then []
    else
      var front := RawUpTo(cs, window, side, n - 1);
      if SwingAt(cs, n - 1, window, side) then front + [Extreme(cs[n - 1], side)] else front
  }

  function RawLevels(cs: seq<Candle>, window: nat, side: Side): seq<real> {
    RawUpTo(cs, window, side, |cs|)
  }

  function Filtered(raw: seq<real>, price: real, side: Side): seq<real> {
    if raw == [] then []
    else
      var front, last := Filtered(raw[..|raw| - 1], price, side), raw[|raw| - 1];
      if OnSide(last, price, side) then front + [last] else front
  }

  function Distance(price: real, level: real): real {
    Abs(price - level)
  }

  function Nearer(price: real): (real, real) -> bool {
    (a, b) => Distance(price, a) <= Distance(price, b)
  }

  function Ascending(): (real, real) -> bool {
    (a, b) => a <= b
  }

  predicate Crowded(kept: seq<real>, level: real, tolerance: real) {
    exists k :: 0 <= k < |kept| && Abs(level - kept[k]) <= tolerance
  }

  /** Walk the candidates in order, keep those away from everything kept, stop at the cap. */
  function Pick(rest: seq<real>, tolerance: real, cap: int, kept: seq<real>): seq<real> {
    if rest == [] then kept
    else if Crowded(kept, rest[0], tolerance) then Pick(rest[1..], tolerance, cap, kept)
    else if |kept| + 1 >= cap then kept + [rest[0]]
    else Pick(rest[1..], tolerance, cap, kept + [rest[0]])
  }

  function Tolerance(price: real): real {
    price * 0.003
  }

  function Candidates(raw: seq<real>, price: real, side: Side): seq<real> {
    Sort(Filtered(raw, price, side), Nearer(price))
  }

  function Picked(raw: seq<real>, price: real, side: Side, cap: int): seq<real> {
    Pick(Candidates(raw, price, side), Tolerance(price), cap, [])
  }

  function Levels(cs: seq<Candle>, price: real, side: Side, window: nat, cap: int): seq<real> {
    Sort(Picked(RawLevels(cs, window, side), price, side, cap), Ascending())
  }

  // ----- swing points and filter -----

  lemma OrdersAreTotal(price: real)
    ensures TotalPreorder(Nearer(price)) && TotalPreorder(Ascending())
  {
  }

  ghost predicate IsSwing(cs: seq<Candle>, window: nat, side: Side, level: real) {
    exists i :: 0 <= i < |cs| && SwingAt(cs, i, window, side) && Extreme(cs[i], side) == level
  }

  lemma {:induction false} RawUpToIsSwings(cs: seq<Candle>, window: nat, side: Side, n: nat, level: real)
    requires n <= |cs|
    ensures level in RawUpTo(cs, window, side, n) <==>
      exists i :: 0 <= i < n && SwingAt(cs, i, window, side) && Extreme(cs[i], side) == level
  {
    if n > 0 {
      RawUpToIsSwings(cs, window, side, n - 1, level);
    }
  }

  lemma {:induction false} FilteredIsOnSide(raw: seq<real>, price: real, side: Side, level: real)
    ensures level in Filtered(raw, price, side) <==> level in raw && OnSide(level, price, side)
  {
    if raw != [] {
      FilteredIsOnSide(raw[..|raw| - 1], price, side, level);
      assert raw == raw[..|raw| - 1] + [raw[|raw| - 1]];
    }
  }

  lemma CandidatesAreSwings(raw: seq<real>, price: real, side: Side)
    ensures SortedBy(Candidates(raw, price, side), Nearer(price))
    ensures forall level :: level in Candidates(raw, price, side) <==> level in raw && OnSide(level, price, side)
  {
    OrdersAreTotal(price);
    var filtered := Filtered(raw, price, side);
    SortSorts(filtered, Nearer(price));
    SortHasSame(filtered, Nearer(price));
    forall level
      ensures level in filtered <==> level in raw && OnSide(level, price, side)
    {
      FilteredIsOnSide(raw, price, side, level);
    }
  }

  // ----- the greedy packing -----

  ghost predicate Apart(levels: seq<real>, tolerance: real) {
    forall i, j :: 0 <= i < j < |levels| ==> Abs(levels[i] - levels[j]) > tolerance
  }

  /** Some kept level no farther from the price lies within the tolerance. */
  ghost predicate Covered(kept: seq<real>, level: real, price: real, tolerance: real) {
    exists k :: 0 <= k < |kept| && Abs(level - kept[k]) <= tolerance
                && Distance(price, kept[k]) <= Distance(price, level)
  }

  lemma {:induction false} PickExtends(rest: seq<real>, tolerance: real, cap: int, kept: seq<real>)
    ensures kept <= Pick(rest, tolerance, cap, kept)
    ensures |Pick(rest, tolerance, cap, kept)| <= MaxInt(cap, |kept| + 1)
    ensures forall x :: x in Pick(rest, tolerance, cap, kept) ==> x in kept || x in rest
  {
    if rest != [] {
      if Crowded(kept, rest[0], tolerance) {
        PickExtends(rest[1..], tolerance, cap, kept);
      } else if |kept| + 1 < cap {
        PickExtends(rest[1..], tolerance, cap, kept + [rest[0]]);
      }
    }
  }

  lemma {:induction false} PickKeepsApart(rest: seq<real>, tolerance: real, cap: int, kept: seq<real>)
    requires Apart(kept, tolerance)
    ensures Apart(Pick(rest, tolerance, cap, kept), tolerance)
  {
    if rest != [] {
      if Crowded(kept, rest[0], tolerance) {
        PickKeepsApart(rest[1..], tolerance, cap, kept);
      } else {
        ApartSnoc(kept, rest[0], tolerance);
        if |kept| + 1 < cap {
          PickKeepsApart(rest[1..], tolerance, cap, kept + [rest[0]]);
        }
      }
    }
  }

  lemma ApartSnoc(kept: seq<real>, level: real, tolerance: real)
    requires Apart(kept, tolerance) && !Crowded(kept, level, tolerance)
    ensures Apart(kept + [level], tolerance)
  {
  }

  lemma CoveredByMore(kept: seq<real>, all: seq<real>, level: real, price: real, tolerance: real)
    requires kept <= all && Covered(kept, level, price, tolerance)
    ensures Covered(all, level, price, tolerance)
  {
    var k :| 0 <= k < |kept| && Abs(level - kept[k]) <= tolerance
             && Distance(price, kept[k]) <= Distance(price, level);
    assert all[k] == kept[k];
  }

  /** Below the cap, every candidate was kept or is covered by one kept before it. */
  lemma {:induction false} PickCovers(rest: seq<real>, price: real, tolerance: real, cap: int, kept: seq<real>, x: real)
    requires SortedBy(kept + rest, Nearer(price))
    requires |Pick(rest, tolerance, cap, kept)| < cap && x in rest
    ensures x in Pick(rest, tolerance, cap, kept)
            || Covered(Pick(rest, tolerance, cap, kept), x, price, tolerance)
  {
    var first, tail := rest[0], rest[1..];
    assert kept + rest == kept + [first] + tail;
    if Crowded(kept, first, tolerance) {
      if x == first {
        FirstIsCovered(rest, price, tolerance, kept);
        PickExtends(tail, tolerance, cap, kept);
        CoveredByMore(kept, Pick(tail, tolerance, cap, kept), x, price, tolerance);
      } else {
        DropKeepsOrder(kept, rest, price);
        PickCovers(tail, price, tolerance, cap, kept, x);
      }
    } else {
      PickExtends(tail, tolerance, cap, kept + [first]);
      if x == first {
        assert (kept + [first])[|kept|] == x;
        assert Pick(tail, tolerance, cap, kept + [first])[|kept|] == x;
      } else {
        PickCovers(tail, price, tolerance, cap, kept + [first], x);
      }
    }
  }

  lemma DropKeepsOrder(kept: seq<real>, rest: seq<real>, price: real)
    requires rest != [] && SortedBy(kept + rest, Nearer(price))
    ensures SortedBy(kept + rest[1..], Nearer(price))
  {
    var all, fewer := kept + rest, kept + rest[1..];
    forall i, j | 0 <= i < j < |fewer|
      ensures Nearer(price)(fewer[i], fewer[j])
    {
      var i', j' := if i < |kept| then i else i + 1, if j < |kept| then j else j + 1;
      assert fewer[i] == all[i'] && fewer[j] == all[j'];
    }
  }

  lemma FirstIsCovered(rest: seq<real>, price: real, tolerance: real, kept: seq<real>)
    requires rest != [] && SortedBy(kept + rest, Nearer(price)) && Crowded(kept, rest[0], tolerance)
    ensures Covered(kept, rest[0], price, tolerance)
  {
    var k :| 0 <= k < |kept| && Abs(rest[0] - kept[k]) <= tolerance;
    assert (kept + rest)[k] == kept[k] && (kept + rest)[|kept|] == rest[0];
    assert Nearer(price)(kept[k], rest[0]);
  }

  // ----- the final ascending sort keeps the packing -----

  lemma {:induction false} InsertKeepsApart(xs: seq<real>, x: real, tolerance: real)
    requires Apart(xs, tolerance) && !Crowded(xs, x, tolerance)
    ensures Apart(Insert(xs, x, Ascending()), tolerance)
  {
    if xs == [] || Ascending()(xs[|xs| - 1], x) {
      ApartSnoc(xs, x, tolerance);
    } else {
      var front, last := xs[..|xs| - 1], xs[|xs| - 1];
      InsertKeepsApart(front, x, tolerance);
      LastStaysClear(xs, x, tolerance);
      ApartSnoc(Insert(front, x, Ascending()), last, tolerance);
    }
  }

  lemma LastStaysClear(xs: seq<real>, x: real, tolerance: real)
    requires xs != [] && Apart(xs, tolerance) && !Crowded(xs, x, tolerance)
    ensures !Crowded(Insert(xs[..|xs| - 1], x, Ascending()), xs[|xs| - 1], tolerance)
  {
    var front, last := xs[..|xs| - 1], xs[|xs| - 1];
    InsertHasAll(front, x, Ascending());
    var inserted := Insert(front, x, Ascending());
    forall k | 0 <= k < |inserted|
      ensures Abs(last - inserted[k]) > tolerance
    {
      assert inserted[k] in inserted;
    }
  }

  lemma {:induction false} SortKeepsApart(xs: seq<real>, tolerance: real)
    requires Apart(xs, tolerance)
    ensures Apart(Sort(xs, Ascending()), tolerance)
  {
    if xs != [] {
      var front, last := xs[..|xs| - 1], xs[|xs| - 1];
      SortKeepsApart(front, tolerance);
      OrdersAreTotal(0.0);
      SortHasSame(front, Ascending());
      var sorted := Sort(front, Ascending());
      forall k | 0 <= k < |sorted|
        ensures Abs(last - sorted[k]) > tolerance
      {
        assert sorted[k] in front;
      }
      InsertKeepsApart(sorted, last, tolerance);
    }
  }

  // ----- the packing law -----

  /** What `_extract_levels` returns, for any candles, price, window and cap. */
  ghost predicate GreedyPacking(levels: seq<real>, cs: seq<Candle>, price: real, side: Side, window: nat, cap: int) {
    && (forall x :: x in levels ==> IsSwing(cs, window, side, x) && OnSide(x, price, side))
    && SortedBy(levels, Ascending())
    && Apart(levels, Tolerance(price))
    && |levels| <= MaxInt(cap, 1)
    && (|levels| < cap ==>
        forall x :: IsSwing(cs, window, side, x) && OnSide(x, price, side) ==>
          x in levels || Crowded(levels, x, Tolerance(price)))
  }

  lemma PickedFacts(raw: seq<real>, price: real, side: Side, cap: int)
    ensures var picked := Picked(raw, price, side, cap);
      && (forall x :: x in picked ==> x in raw && OnSide(x, price, side))
      && Apart(picked, Tolerance(price)) && |picked| <= MaxInt(cap, 1)
  {
    CandidatesAreSwings(raw, price, side);
    PickExtends(Candidates(raw, price, side), Tolerance(price), cap, []);
    PickKeepsApart(Candidates(raw, price, side), Tolerance(price), cap, []);
  }

  lemma PickedCovers(raw: seq<real>, price: real, side: Side, cap: int, x: real)
    requires |Picked(raw, price, side, cap)| < cap && x in raw && OnSide(x, price, side)
    ensures x in Picked(raw, price, side, cap) || Covered(Picked(raw, price, side, cap), x, price, Tolerance(price))
  {
    CandidatesAreSwings(raw, price, side);
    var candidates := Candidates(raw, price, side);
    assert [] + candidates == candidates;
    PickCovers(candidates, price, Tolerance(price), cap, [], x);
  }

  lemma CrowdedElsewhere(kept: seq<real>, levels: seq<real>, x: real, price: real, tolerance: real)
    requires (forall y :: y in kept ==> y in levels) && Covered(kept, x, price, tolerance)
    ensures Crowded(levels, x, tolerance)
  {
    var k :| 0 <= k < |kept| && Abs(x - kept[k]) <= tolerance && Distance(price, kept[k]) <= Distance(price, x);
    assert kept[k] in levels;
  }

  lemma LevelsAreGreedyPacking(cs: seq<Candle>, price: real, side: Side, window: nat, cap: int)
    ensures GreedyPacking(Levels(cs, price, side, window, cap), cs, price, side, window, cap)
  {
    var raw := RawLevels(cs, window, side);
    var picked := Picked(raw, price, side, cap);
    var levels := Levels(cs, price, side, window, cap);
    PickedFacts(raw, price, side, cap);
    OrdersAreTotal(price);
    SortSorts(picked, Ascending());
    SortHasSame(picked, Ascending());
    SortKeepsApart(picked, Tolerance(price));
    forall x
      ensures x in raw <==> IsSwing(cs, window, side, x)
    {
      RawUpToIsSwings(cs, window, side, |cs|, x);
    }
    forall x | |levels| < cap && IsSwing(cs, window, side, x) && OnSide(x, price, side)
      ensures x in levels || Crowded(levels, x, Tolerance(price))
    {
      PickedCovers(raw, price, side, cap, x);
      if x !in picked {
        CrowdedElsewhere(picked, levels, x, price, Tolerance(price));
      }
    }
  }

  /** A swing low has as many candles as the window on either side, none of which goes lower and one of which stays
      higher; a swing high the other way around. */
  lemma SwingMeans(cs: seq<Candle>, i: nat, window: nat)
    requires i < |cs|
    ensures SwingAt(cs, i, window, Support) <==>
      && i >= window && |cs| - 1 - i >= window
      && (forall j :: i - window <= j <= i + window ==> cs[j].low >= cs[i].low)
      && (exists j :: i - window <= j <= i + window && cs[j].low > cs[i].low)
    ensures SwingAt(cs, i, window, Resistance) <==>
      && i >= window && |cs| - 1 - i >= window
      && (forall j :: i - window <= j <= i + window ==> cs[j].high <= cs[i].high)
      && (exists j :: i - window <= j <= i + window && cs[j].high < cs[i].high)
  {
    if window <= i < |cs| - window {
      forall j | i - window <= j <= i + window
        ensures 0 <= j < |cs| && (j != i ==> Neighbour(i, j, window))
      {
      }
    }
  }

  /** Kept levels stand more than 0.3% of the price apart, and each swing on the side that was left out stands
      within that distance of a kept one, unless the cap was reached. */
  lemma LevelsKeepDistance(cs: seq<Candle>, price: real, side: Side, window: nat, cap: int)
    ensures var levels := Levels(cs, price, side, window, cap);
      && (forall i, j :: 0 <= i < j < |levels| ==>
            levels[i] <= levels[j] && 1000.0 * (levels[j] - levels[i]) > 3.0 * price)
      && (forall x :: x in levels ==> if side.Support? then x < price else x > price)
      && (|levels| < cap ==>
            forall x :: IsSwing(cs, window, side, x) && (if side.Support? then x < price else x > price) ==>
              NearSome(levels, x, price))
  {
    LevelsAreGreedyPacking(cs, price, side, window, cap);
    var levels := Levels(cs, price, side, window, cap);
    ApartByShare(levels, price);
    forall x | |levels| < cap && IsSwing(cs, window, side, x) && OnSide(x, price, side)
      ensures NearSome(levels, x, price)
    {
      CrowdedIsNear(levels, x, price);
    }
  }

  /** The level is kept or stands within 0.3% of the price of one that is. */
  ghost predicate NearSome(levels: seq<real>, x: real, price: real) {
    x in levels || exists y :: y in levels && -3.0 * price <= 1000.0 * (x - y) <= 3.0 * price
  }

  lemma CrowdedIsNear(levels: seq<real>, x: real, price: real)
    requires x in levels || Crowded(levels, x, Tolerance(price))
    ensures NearSome(levels, x, price)
  {
    if x !in levels {
      var k :| 0 <= k < |levels| && Abs(x - levels[k]) <= Tolerance(price);
      assert levels[k] in levels;
    }
  }

  lemma ApartByShare(levels: seq<real>, price: real)
    requires SortedBy(levels, Ascending()) && Apart(levels, Tolerance(price))
    ensures forall i, j :: 0 <= i < j < |levels| ==>
      levels[i] <= levels[j] && 1000.0 * (levels[j] - levels[i]) > 3.0 * price
  {
    forall i, j | 0 <= i < j < |levels|
      ensures levels[i] <= levels[j] && 1000.0 * (levels[j] - levels[i]) > 3.0 * price
    {
      assert Ascending()(levels[i], levels[j]);
    }
  }

  // ----- the packing is as large as any -----

  /** Distinct numbers below `m`: at most `m` of them. */
  lemma {:induction false} Pigeonhole(f: seq<nat>, m: nat)
    requires forall i :: 0 <= i < |f| ==> f[i] < m
    requires forall i, j :: 0 <= i < j < |f| ==> f[i] != f[j]
    ensures |f| <= m
  {
    if f != [] {
      assert f[0] < m;
      if k :| 0 <= k < |f| && f[k] == m - 1 {
        var g := f[..k] + f[k + 1..];
        assert forall i :: 0 <= i < |g| ==> g[i] == f[if i < k then i else i + 1];
        Pigeonhole(g, m - 1);
      } else {
        Pigeonhole(f, m - 1);
      }
    }
  }

  /** The index of a kept level that covers `x`. */
  ghost function Coverer(kept: seq<real>, x: real, price: real, tolerance: real): (k: nat)
    requires Covered(kept, x, price, tolerance)
    ensures k < |kept| && Abs(x - kept[k]) <= tolerance && Distance(price, kept[k]) <= Distance(price, x)
  {
    var k :| 0 <= k < |kept| && Abs(x - kept[k]) <= tolerance && Distance(price, kept[k]) <= Distance(price, x);
    k
  }

  /** Levels farther apart than the tolerance are covered by different kept levels. */
  lemma CoversDiffer(a: real, b: real, x: real, y: real, price: real, tolerance: real, side: Side)
    requires OnSide(a, price, side) && OnSide(b, price, side) && OnSide(x, price, side) && OnSide(y, price, side)
    requires Abs(x - a) <= tolerance && Distance(price, a) <= Distance(price, x)
    requires Abs(y - b) <= tolerance && Distance(price, b) <= Distance(price, y)
    requires Abs(x - y) > tolerance
    ensures a != b
  {
  }

  lemma MemberIsCovered(kept: seq<real>, x: real, price: real, tolerance: real)
    requires x in kept && tolerance >= 0.0
    ensures Covered(kept, x, price, tolerance)
  {
  }

  /** Unless the cap cut it short, no selection of swing levels that far apart is larger. */
  lemma PackingIsMaximum(cs: seq<Candle>, price: real, side: Side, window: nat, cap: int, other: seq<real>)
    requires price >= 0.0 && Apart(other, Tolerance(price))
    requires forall i :: 0 <= i < |other| ==> IsSwing(cs, window, side, other[i]) && OnSide(other[i], price, side)
    ensures |Levels(cs, price, side, window, cap)| >= MinInt(cap, |other|)
  {
    var raw, tolerance := RawLevels(cs, window, side), Tolerance(price);
    var picked := Picked(raw, price, side, cap);
    OrdersAreTotal(price);
    SortSorts(picked, Ascending());
    if |picked| < cap {
      PickedFacts(raw, price, side, cap);
      forall i | 0 <= i < |other|
        ensures Covered(picked, other[i], price, tolerance)
      {
        RawUpToIsSwings(cs, window, side, |cs|, other[i]);
        PickedCovers(raw, price, side, cap, other[i]);
        if other[i] in picked {
          MemberIsCovered(picked, other[i], price, tolerance);
        }
      }
      var f := seq(|other|, i requires 0 <= i < |other| => Coverer(picked, other[i], price, tolerance));
      forall i, j | 0 <= i < j < |f|
        ensures f[i] != f[j]
      {
        assert picked[f[i]] in picked && picked[f[j]] in picked;
        CoversDiffer(picked[f[i]], picked[f[j]], other[i], other[j], price, tolerance, side);
      }
      Pigeonhole(f, |picked|);
    }
  }

  // ----- the nearest swing survives -----

  ghost predicate IsNearest(levels: seq<real>, price: real, side: Side, level: real) {
    && level in levels && OnSide(level, price, side)
    && forall x :: x in levels && OnSide(x, price, side) ==> Distance(price, level) <= Distance(price, x)
  }

  /** The nearest swing level is always returned, and nothing else when the cap is one or less. */
  lemma NearestIsKept(cs: seq<Candle>, price: real, side: Side, window: nat, cap: int, level: real)
    requires IsNearest(RawLevels(cs, window, side), price, side, level)
    ensures level in Levels(cs, price, side, window, cap)
    ensures cap <= 1 ==> Levels(cs, price, side, window, cap) == [level]
  {
    var raw := RawLevels(cs, window, side);
    var candidates, picked := Candidates(raw, price, side), Picked(raw, price, side, cap);
    CandidatesAreSwings(raw, price, side);
    assert level in candidates;
    FirstIsNearest(candidates, price, side, level);
    assert [] + [level] == [level];
    if cap > 1 {
      PickExtends(candidates[1..], Tolerance(price), cap, [level]);
      assert picked[0] == level;
    } else {
      assert picked == [level];
      assert [level][..0] == [];
      assert Insert(Sort([], Ascending()), level, Ascending()) == [level];
    }
    OrdersAreTotal(price);
    SortHasSame(picked, Ascending());
  }

  lemma FirstIsNearest(candidates: seq<real>, price: real, side: Side, level: real)
    requires SortedBy(candidates, Nearer(price))
    requires forall x :: x in candidates ==> OnSide(x, price, side)
    requires IsNearest(candidates, price, side, level)
    ensures candidates[0] == level
  {
    var k :| 0 <= k < |candidates| && candidates[k] == level;
    if k > 0 {
      assert Nearer(price)(candidates[0], candidates[k]);
    }
    assert candidates[0] in candidates;
  }

  ghost predicate SomeSwing(cs: seq<Candle>, price: real, side: Side, window: nat) {
    exists x :: IsSwing(cs, window, side, x) && OnSide(x, price, side)
  }

  lemma SomeLevelWhenSomeSwing(cs: seq<Candle>, price: real, side: Side, window: nat, cap: int)
    ensures Levels(cs, price, side, window, cap) != [] <==> SomeSwing(cs, price, side, window)
  {
    var raw := RawLevels(cs, window, side);
    var candidates, picked := Candidates(raw, price, side), Picked(raw, price, side, cap);
    LevelsAreGreedyPacking(cs, price, side, window, cap);
    if SomeSwing(cs, price, side, window) {
      var x :| IsSwing(cs, window, side, x) && OnSide(x, price, side);
      RawUpToIsSwings(cs, window, side, |cs|, x);
      CandidatesAreSwings(raw, price, side);
      assert x in candidates;
      PickIsNotEmpty(candidates, Tolerance(price), cap);
      OrdersAreTotal(price);
      SortSorts(picked, Ascending());
    }
    if Levels(cs, price, side, window, cap) != [] {
      assert Levels(cs, price, side, window, cap)[0] in Levels(cs, price, side, window, cap);
    }
  }

  lemma PickIsNotEmpty(candidates: seq<real>, tolerance: real, cap: int)
    requires candidates != []
    ensures Pick(candidates, tolerance, cap, []) != []
  {
    if cap > 1 {
      PickExtends(candidates[1..], tolerance, cap, [] + [candidates[0]]);
    }
  }

  /** The result respects the cap exactly when the cap is at least one, or zero without any swing on the side. */
  lemma CapIsRespected(cs: seq<Candle>, price: real, side: Side, window: nat, cap: int)
    ensures |Levels(cs, price, side, window, cap)| <= cap
            <==> cap >= 1 || (cap == 0 && !SomeSwing(cs, price, side, window))
  {
    LevelsAreGreedyPacking(cs, price, side, window, cap);
    SomeLevelWhenSomeSwing(cs, price, side, window, cap);
  }

  // ----- the loops -----

  method RawSwings(cs: seq<Candle>, window: nat, side: Side) returns (raw: seq<real>)
    requires |cs| >= window * 2 + 1
    ensures raw == RawLevels(cs, window, side)
  {
    raw := [];
    NoEarlySwings(cs, window, side, window);
    var index := window;
    while index < |cs| - window
      invariant window <= index <= |cs| - window
      invariant raw == RawUpTo(cs, window, side, index)
    {
      if SwingAt(cs, index, window, side) {
        raw := raw + [Extreme(cs[index], side)];
      }
      index := index + 1;
    }
    NoLateSwings(cs, window, side, |cs| - window, |cs|);
  }

  lemma {:induction false} NoEarlySwings(cs: seq<Candle>, window: nat, side: Side, n: nat)
    requires n <= window && n <= |cs|
    ensures RawUpTo(cs, window, side, n) == []
  {
    if n > 0 {
      NoEarlySwings(cs, window, side, n - 1);
    }
  }

  lemma {:induction false} NoLateSwings(cs: seq<Candle>, window: nat, side: Side, n: nat, m: nat)
    requires |cs| - window <= n <= m <= |cs|
    ensures RawUpTo(cs, window, side, m) == RawUpTo(cs, window, side, n)
  {
    if n < m {
      NoLateSwings(cs, window, side, n, m - 1);
    }
  }

  lemma {:induction false} NoRoomNoSwings(cs: seq<Candle>, window: nat, side: Side, n: nat)
    requires |cs| < window * 2 + 1 && n <= |cs|
    ensures RawUpTo(cs, window, side, n) == []
  {
    if n > 0 {
      NoRoomNoSwings(cs, window, side, n - 1);
    }
  }

  method ExtractLevels(cs: seq<Candle>, price: real, side: Side, window: nat, cap: int) returns (levels: seq<real>)
    ensures levels == Levels(cs, price, side, window, cap)
  {
    if |cs| < window * 2 + 1 {
      NoRoomNoSwings(cs, window, side, |cs|);
      return [];
    }
    var raw := RawSwings(cs, window, side);
    var filtered := Filtered(raw, price, side);
    if filtered == [] {
      return [];
    }
    var tolerance := Tolerance(price);
    var candidates := Sort(filtered, Nearer(price));
    var unique: seq<real> := [];
    var i := 0;
    while i < |candidates|
      invariant 0 <= i <= |candidates|
      invariant Pick(candidates[i..], tolerance, cap, unique) == Pick(candidates, tolerance, cap, [])
    {
      var level := candidates[i];
      assert candidates[i..][1..] == candidates[i + 1..];
      i := i + 1;
      if !Crowded(unique, level, tolerance) {
        unique := unique + [level];
        if |unique| >= cap {
          return Sort(unique, Ascending());
        }
      }
    }
    levels := Sort(unique, Ascending());
  }
}
