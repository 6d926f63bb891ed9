/** Python's stable `sorted`, as insertion into an already sorted prefix. */
module Sorting {

  ghost predicate TotalPreorder<T(!new)>(le: (T, T) -> bool) {
    && (forall a, b :: le(a, b) || le(b, a))
    && (forall a, b, c :: le(a, b) && le(b, c) ==> le(a, c))
  }

  ghost predicate SortedBy<T>(xs: seq<T>, le: (T, T) -> bool) {
    forall i, j :: 0 <= i < j < |xs| ==> le(xs[i], xs[j])
  }

  /** A new element goes behind everything it ties with. */
  function Insert<T>(xs: seq<T>, x: T, le: (T, T) -> bool): seq<T> {
    if xs == [] || le(xs[|xs| - 1], x) then xs + [x]
    else Insert(xs[..|xs| - 1], x, le) + [xs[|xs| - 1]]
  }

  function Sort<T>(xs: seq<T>, le: (T, T) -> bool): seq<T> {
    if xs == [] then [] else Insert(Sort(xs[..|xs| - 1], le), xs[|xs| - 1], le)
  }

  lemma {:induction false} InsertHasAll<T>(xs: seq<T>, x: T, le: (T, T) -> bool)
    ensures multiset(Insert(xs, x, le)) == multiset(xs) + multiset{x}
    ensures forall y :: y in Insert(xs, x, le) <==> y in xs || y == x
  {
    if xs != [] && !le(xs[|xs| - 1], x) {
      InsertHasAll(xs[..|xs| - 1], x, le);
      assert xs == xs[..|xs| - 1] + [xs[|xs| - 1]];
    }
  }

  lemma {:induction false} InsertKeepsOrder<T(!new)>(xs: seq<T>, x: T, le: (T, T) -> bool)
    requires TotalPreorder(le) && SortedBy(xs, le)
    ensures SortedBy(Insert(xs, x, le), le)
  {
    if xs == [] {
    } else if le(xs[|xs| - 1], x) {
      assert forall i :: 0 <= i < |xs| - 1 ==> le(xs[i], xs[|xs| - 1]);
    } else {
      var last := xs[|xs| - 1];
      var front := Insert(xs[..|xs| - 1], x, le);
      InsertKeepsOrder(xs[..|xs| - 1], x, le);
      InsertHasAll(xs[..|xs| - 1], x, le);
      forall i | 0 <= i < |front|
        ensures le(front[i], last)
      {
        assert front[i] in front;
      }
    }
  }

  lemma {:induction false} SortPermutes<T>(xs: seq<T>, le: (T, T) -> bool)
    ensures multiset(Sort(xs, le)) == multiset(xs) && |Sort(xs, le)| == |xs|
  {
    if xs != [] {
      var front, last := xs[..|xs| - 1], xs[|xs| - 1];
      SortPermutes(front, le);
      InsertHasAll(Sort(front, le), last, le);
      assert xs == front + [last];
    }
    assert |multiset(Sort(xs, le))| == |multiset(xs)|;
  }

  lemma {:induction false} SortOrders<T(!new)>(xs: seq<T>, le: (T, T) -> bool)
    requires TotalPreorder(le)
    ensures SortedBy(Sort(xs, le), le)
  {
    if xs != [] {
      SortOrders(xs[..|xs| - 1], le);
      InsertKeepsOrder(Sort(xs[..|xs| - 1], le), xs[|xs| - 1], le);
    }
  }

  /** Sorting permutes its input into order. */
  lemma SortSorts<T(!new)>(xs: seq<T>, le: (T, T) -> bool)
    requires TotalPreorder(le)
    ensures SortedBy(Sort(xs, le), le)
    ensures multiset(Sort(xs, le)) == multiset(xs) && |Sort(xs, le)| == |xs|
  {
    SortOrders(xs, le);
    SortPermutes(xs, le);
  }

  lemma SortHasSame<T(!new)>(xs: seq<T>, le: (T, T) -> bool)
    requires TotalPreorder(le)
    ensures forall x :: x in Sort(xs, le) <==> x in xs
  {
    SortSorts(xs, le);
    assert forall x :: x in xs <==> x in multiset(xs);
    assert forall x :: x in Sort(xs, le) <==> x in multiset(Sort(xs, le));
  }
}
