/** Element-wise images and running folds of number sequences, with laws that hold for any step. */
module Folds {
  import opened Prelude

  function Map(f: real -> real, xs: seq<real>): (ys: seq<real>)
    ensures |ys| == |xs|
  {
    if xs == [] then [] else Map(f, xs[..|xs| - 1]) + [f(xs[|xs| - 1])]
  }

  lemma {:induction false} MapAt(f: real -> real, xs: seq<real>, i: nat)
    requires i < |xs|
    ensures Map(f, xs)[i] == f(xs[i])
  {
    if i < |xs| - 1 {
      MapAt(f, xs[..|xs| - 1], i);
    }
  }

  lemma {:induction false} MapConcat(f: real -> real, xs: seq<real>, ys: seq<real>)
    ensures Map(f, xs + ys) == Map(f, xs) + Map(f, ys)
  {
    if ys == [] {
      assert xs + ys == xs;
    } else {
      assert (xs + ys)[..|xs + ys| - 1] == xs + ys[..|ys| - 1];
      MapConcat(f, xs, ys[..|ys| - 1]);
    }
  }

  lemma MapSplit(f: real -> real, xs: seq<real>, k: nat)
    requires k <= |xs|
    ensures Map(f, xs)[..k] == Map(f, xs[..k]) && Map(f, xs)[k..] == Map(f, xs[k..])
  {
    assert xs == xs[..k] + xs[k..];
    MapConcat(f, xs[..k], xs[k..]);
    SplitConcat(Map(f, xs[..k]), Map(f, xs[k..]), k);
  }

  ghost predicate Swaps(f: real -> real, g: real -> real, f': real -> real, g': real -> real, x: real) {
    f(g(x)) == g'(f'(x))
  }

  lemma {:induction false} MapsCommute(f: real -> real, g: real -> real, f': real -> real, g': real -> real,
                                       xs: seq<real>)
    requires forall x :: Swaps(f, g, f', g', x)
    ensures Map(f, Map(g, xs)) == Map(g', Map(f', xs))
  {
    if xs != [] {
      var n := |xs| - 1;
      assert Swaps(f, g, f', g', xs[n]);
      MapsCommute(f, g, f', g', xs[..n]);
      MapSplit(g, xs, n);
      MapSplit(f', xs, n);
      MapAt(g, xs, n);
      MapAt(f', xs, n);
    }
  }

  /** Runs `step` over the values from the left. */
  function Fold(step: (real, real) -> real, init: real, xs: seq<real>): real {
    if xs == [] then init else step(Fold(step, init, xs[..|xs| - 1]), xs[|xs| - 1])
  }

  ghost predicate StepSwaps(step: (real, real) -> real, g: real -> real, b: real, x: real) {
    step(g(b), g(x)) == g(step(b, x))
  }

  lemma {:induction false} FoldCommutes(step: (real, real) -> real, g: real -> real, init: real, xs: seq<real>)
    requires forall b, x :: StepSwaps(step, g, b, x)
    ensures Fold(step, g(init), Map(g, xs)) == g(Fold(step, init, xs))
  {
    if xs != [] {
      var n := |xs| - 1;
      assert StepSwaps(step, g, Fold(step, init, xs[..n]), xs[n]);
      FoldCommutes(step, g, init, xs[..n]);
      MapSplit(g, xs, n);
      MapAt(g, xs, n);
    }
  }

  lemma {:induction false} FoldBounds(step: (real, real) -> real, init: real, xs: seq<real>, lo: real, hi: real)
    requires forall b, x :: lo <= b <= hi && lo <= x <= hi ==> lo <= step(b, x) <= hi
    requires lo <= init <= hi && forall i :: 0 <= i < |xs| ==> lo <= xs[i] <= hi
    ensures lo <= Fold(step, init, xs) <= hi
  {
    if xs != [] {
      FoldBounds(step, init, xs[..|xs| - 1], lo, hi);
    }
  }

  /** Sequences of `n` numbers given by a rule. */
  function Table(f: nat -> real, n: nat): (xs: seq<real>)
    ensures |xs| == n
  {
    if n == 0 then [] else Table(f, n - 1) + [f(n - 1)]
  }

  lemma {:induction false} TableAt(f: nat -> real, n: nat, i: nat)
    requires i < n
    ensures Table(f, n)[i] == f(i)
  {
    if i < n - 1 {
      TableAt(f, n - 1, i);
    }
  }

  lemma {:induction false} TableIsImage(f: nat -> real, g: nat -> real, shrink: real -> real, n: nat)
    requires forall i: nat :: i < n ==> f(i) == shrink(g(i))
    ensures Table(f, n) == Map(shrink, Table(g, n))
  {
    if n > 0 {
      TableIsImage(f, g, shrink, n - 1);
      assert Table(g, n)[..n - 1] == Table(g, n - 1);
    }
  }

  function Mean(xs: seq<real>): real
    requires xs != []
  {
    Sum(xs) / |xs| as real
  }

  /** The mean of the first `period` values, then a fold over the rest. */
  function Smooth(step: (real, real) -> real, xs: seq<real>, period: nat): real
    requires 1 <= period <= |xs|
  {
    Fold(step, Mean(xs[..period]), xs[period..])
  }

  lemma SmoothSnoc(step: (real, real) -> real, xs: seq<real>, period: nat)
    requires 1 <= period <= |xs|
    ensures |xs| == period ==> Smooth(step, xs, period) == Mean(xs)
    ensures |xs| > period ==>
      Smooth(step, xs, period) == step(Smooth(step, xs[..|xs| - 1], period), xs[|xs| - 1])
  {
    var n := |xs| - 1;
    if |xs| == period {
      assert xs[..period] == xs && xs[period..] == [];
    } else {
      assert xs[..n][..period] == xs[..period] && xs[..n][period..] == xs[period..][..|xs[period..]| - 1];
    }
  }

  ghost predicate Adds(g: real -> real, x: real, y: real) {
    g(x + y) == g(x) + g(y)
  }

  ghost predicate Additive(g: real -> real) {
    g(0.0) == 0.0 && forall x, y :: Adds(g, x, y)
  }

  lemma {:induction false} SumCommutes(g: real -> real, xs: seq<real>)
    requires Additive(g)
    ensures Sum(Map(g, xs)) == g(Sum(xs))
  {
    if xs != [] {
      var n := |xs| - 1;
      SumCommutes(g, xs[..n]);
      AdditiveAt(g, Sum(xs[..n]), xs[n]);
      MapSplit(g, xs, n);
      MapAt(g, xs, n);
    }
  }

  ghost predicate DivSwaps(g: real -> real, x: real, n: nat)
    requires n >= 1
  {
    g(x / n as real) == g(x) / n as real
  }

  lemma SmoothCommutes(step: (real, real) -> real, g: real -> real, xs: seq<real>, period: nat)
    requires 1 <= period <= |xs| && Additive(g)
    requires forall x :: DivSwaps(g, x, period)
    requires forall b, x :: StepSwaps(step, g, b, x)
    ensures Smooth(step, Map(g, xs), period) == g(Smooth(step, xs, period))
  {
    MapSplit(g, xs, period);
    SumCommutes(g, xs[..period]);
    assert DivSwaps(g, Sum(xs[..period]), period);
    FoldCommutes(step, g, Mean(xs[..period]), xs[period..]);
  }

  lemma {:induction false} SumBounds(xs: seq<real>, lo: real, hi: real)
    requires forall i :: 0 <= i < |xs| ==> lo <= xs[i] <= hi
    ensures lo * |xs| as real <= Sum(xs) <= hi * |xs| as real
  {
    if xs != [] {
      SumBounds(xs[..|xs| - 1], lo, hi);
    }
  }

  lemma MeanBounds(xs: seq<real>, lo: real, hi: real)
    requires xs != [] && forall i :: 0 <= i < |xs| ==> lo <= xs[i] <= hi
    ensures lo <= Mean(xs) <= hi
  {
    SumBounds(xs, lo, hi);
    DivisionBounds(Sum(xs), |xs| as real, lo, hi);
  }

  /** A smoothed value stays within bounds that every step respects. */
  lemma SmoothBounds(step: (real, real) -> real, xs: seq<real>, period: nat, lo: real, hi: real)
    requires 1 <= period <= |xs| && forall i :: 0 <= i < |xs| ==> lo <= xs[i] <= hi
    requires forall b, x :: lo <= b <= hi && lo <= x <= hi ==> lo <= step(b, x) <= hi
    ensures lo <= Smooth(step, xs, period) <= hi
  {
    MeanBounds(xs[..period], lo, hi);
    FoldBounds(step, Mean(xs[..period]), xs[period..], lo, hi);
  }

  // ----- weighted sums -----

  /** The sum of `op(weight, value)`. */
  function Dot(op: (real, real) -> real, ws: seq<real>, xs: seq<real>): real
    requires |ws| == |xs|
  {
    if ws == [] then 0.0
    else
      var n := |ws| - 1;
      Dot(op, ws[..n], xs[..n]) + op(ws[n], xs[n])
  }

  lemma DotSnoc(op: (real, real) -> real, ws: seq<real>, w: real, xs: seq<real>)
    requires |xs| == |ws| + 1
    ensures Dot(op, ws + [w], xs) == Dot(op, ws, xs[..|ws|]) + op(w, xs[|ws|])
    ensures Sum(ws + [w]) == Sum(ws) + w
  {
    assert (ws + [w])[..|ws|] == ws;
  }

  ghost predicate OpScales(op: (real, real) -> real, g: real -> real, w: real, x: real) {
    op(g(w), x) == g(op(w, x))
  }

  lemma AdditiveAt(g: real -> real, x: real, y: real)
    requires Additive(g)
    ensures g(x + y) == g(x) + g(y)
  {
    assert Adds(g, x, y);
  }

  lemma DotUnfolds(op: (real, real) -> real, ws: seq<real>, xs: seq<real>)
    requires |ws| == |xs| && ws != []
    ensures Dot(op, ws, xs) == Dot(op, ws[..|ws| - 1], xs[..|ws| - 1]) + op(ws[|ws| - 1], xs[|ws| - 1])
  {
  }

  /** The last term of a scaled weighted sum. */
  lemma DotScalesStep(op: (real, real) -> real, g: real -> real, ws: seq<real>, xs: seq<real>)
    requires |ws| == |xs| && ws != [] && Additive(g)
    requires var n := |ws| - 1;
      && OpScales(op, g, ws[n], xs[n]) && Map(g, ws)[n] == g(ws[n])
      && Dot(op, Map(g, ws)[..n], xs[..n]) == g(Dot(op, ws[..n], xs[..n]))
    ensures Dot(op, Map(g, ws), xs) == g(Dot(op, ws, xs))
  {
    var n := |ws| - 1;
    DotUnfolds(op, ws, xs);
    DotUnfolds(op, Map(g, ws), xs);
    AdditiveAt(g, Dot(op, ws[..n], xs[..n]), op(ws[n], xs[n]));
  }

  lemma {:induction false} DotScales(op: (real, real) -> real, g: real -> real, ws: seq<real>, xs: seq<real>)
    requires |ws| == |xs| && Additive(g) && forall w, x :: OpScales(op, g, w, x)
    ensures Dot(op, Map(g, ws), xs) == g(Dot(op, ws, xs))
  {
    if ws != [] {
      var n := |ws| - 1;
      MapSplit(g, ws, n);
      MapAt(g, ws, n);
      DotScales(op, g, ws[..n], xs[..n]);
      assert OpScales(op, g, ws[n], xs[n]);
      DotScalesStep(op, g, ws, xs);
    }
  }

  /** Old weights scaled, and one more weight. */
  lemma DotScaledSnoc(op: (real, real) -> real, g: real -> real, ws: seq<real>, w: real, xs: seq<real>)
    requires |xs| == |ws| + 1 && Additive(g) && forall w, x :: OpScales(op, g, w, x)
    ensures Dot(op, Map(g, ws) + [w], xs) == g(Dot(op, ws, xs[..|ws|])) + op(w, xs[|ws|])
    ensures Sum(Map(g, ws) + [w]) == g(Sum(ws)) + w
  {
    DotSnoc(op, Map(g, ws), w, xs);
    DotScales(op, g, ws, xs[..|ws|]);
    SumCommutes(g, ws);
  }

  ghost predicate OpAdds(op: (real, real) -> real, w: real, x: real, y: real) {
    op(w, x + y) == op(w, x) + op(w, y)
  }

  lemma {:induction false} ConstantWeights(op: (real, real) -> real, ws: seq<real>, xs: seq<real>, w: real)
    requires |ws| == |xs| && forall i :: 0 <= i < |ws| ==> ws[i] == w
    requires op(w, 0.0) == 0.0 && forall x, y :: OpAdds(op, w, x, y)
    ensures Dot(op, ws, xs) == op(w, Sum(xs))
  {
    if ws != [] {
      var n := |ws| - 1;
      ConstantWeights(op, ws[..n], xs[..n], w);
      assert OpAdds(op, w, Sum(xs[..n]), xs[n]);
    }
  }

  /** Weights that keep the order of every pair keep the order of the sums. */
  lemma {:induction false} DotMonotone(op: (real, real) -> real, ws: seq<real>, xs: seq<real>, ys: seq<real>)
    requires |ws| == |xs| == |ys| && forall i :: 0 <= i < |ws| ==> op(ws[i], xs[i]) <= op(ws[i], ys[i])
    ensures Dot(op, ws, xs) <= Dot(op, ws, ys)
  {
    if ws != [] {
      var n := |ws| - 1;
      DotMonotone(op, ws[..n], xs[..n], ys[..n]);
    }
  }
}
