/** Symbol listing, ranking and search of app/exchange/symbol_service.py. */
module SymbolRanking {
  import opened Prelude
  import opened Sorting

  datatype Record = Record(symbol: string, base: string, quote: string, status: string)

  /** One row of the 24-hour ticker payload; an unreadable volume counts as zero. */
  datatype Ticker = Ticker(symbol: Option<string>, quoteVolume: Option<real>)
  {
    function Volume(): real {
      if quoteVolume.Some? then quoteVolume.value else 0.0
    }
  }

  datatype Entry = Entry(volume: real, record: Record)

  const POPULAR: seq<string> :=
    ["BTCUSDT", "ETHUSDT", "SOLUSDT", "BNBUSDT", "XRPUSDT", "DOGEUSDT", "ADAUSDT", "LINKUSDT", "AVAXUSDT", "MATICUSDT"]

  // ----- text order -----

  /** Python's order of strings. */
  predicate TextLe(a: string, b: string) {
    a == "" || (b != "" && (a[0] < b[0] || (a[0] == b[0] && TextLe(a[1..], b[1..]))))
  }

  lemma {:induction false} TextTotal(a: string, b: string)
    ensures TextLe(a, b) || TextLe(b, a)
    ensures TextLe(a, b) && TextLe(b, a) ==> a == b
  {
    if a != "" && b != "" && a[0] == b[0] {
      TextTotal(a[1..], b[1..]);
      assert a == [a[0]] + a[1..] && b == [b[0]] + b[1..];
    }
  }

  lemma {:induction false} TextTransitive(a: string, b: string, c: string)
    requires TextLe(a, b) && TextLe(b, c)
    ensures TextLe(a, c)
  {
    if a != "" && a[0] == b[0] == c[0] {
      TextTransitive(a[1..], b[1..], c[1..]);
    }
  }

  ghost predicate FirstDifference(a: string, b: string, k: nat) {
    k < |a| && k < |b| && a[..k] == b[..k] && a[k] < b[k]
  }

  /** A text stands before another if it is a beginning of it or smaller at their first difference. */
  lemma {:induction false} TextIsLexicographic(a: string, b: string)
    ensures TextLe(a, b) <==> a <= b || exists k :: FirstDifference(a, b, k)
  {
    if a == "" || b == "" {
    } else if a[0] != b[0] {
      assert FirstDifference(a, b, 0) <==> a[0] < b[0];
      forall k: nat | k > 0
        ensures !FirstDifference(a, b, k)
      {
        DifferenceAgrees(a, b, k);
      }
    } else {
      TextIsLexicographic(a[1..], b[1..]);
      forall k: nat
        ensures FirstDifference(a[1..], b[1..], k) <==> FirstDifference(a, b, k + 1)
      {
        DifferenceShifts(a, b, k);
      }
      if k: nat :| FirstDifference(a, b, k) {
        assert k > 0 && FirstDifference(a[1..], b[1..], k - 1);
      }
      assert a == [a[0]] + a[1..] && b == [b[0]] + b[1..];
    }
  }

  lemma DifferenceAgrees(a: string, b: string, k: nat)
    ensures FirstDifference(a, b, k) && k > 0 ==> a[0] == b[0]
  {
    if FirstDifference(a, b, k) && k > 0 {
      assert a[..k][0] == a[0] && b[..k][0] == b[0];
    }
  }

  lemma DifferenceShifts(a: string, b: string, k: nat)
    requires a != "" && b != "" && a[0] == b[0]
    ensures FirstDifference(a[1..], b[1..], k) <==> FirstDifference(a, b, k + 1)
  {
    if k + 1 < |a| && k + 1 < |b| {
      assert a[..k + 1] == [a[0]] + a[1..][..k] && b[..k + 1] == [b[0]] + b[1..][..k];
    }
  }

  // ----- the three sort keys -----

  predicate EntryLe(a: Entry, b: Entry) {
    a.volume > b.volume || (a.volume == b.volume && TextLe(a.record.symbol, b.record.symbol))
  }

  function PlaceIn(names: seq<string>, name: string): nat {
    if names == [] || names[0] == name then 0 else 1 + PlaceIn(names[1..], name)
  }

  predicate FallbackLe(a: Record, b: Record) {
    var i, j := PlaceIn(POPULAR, a.symbol), PlaceIn(POPULAR, b.symbol);
    i < j || (i == j && TextLe(a.symbol, b.symbol))
  }

  predicate NameLe(a: Record, b: Record) {
    TextLe(a.symbol, b.symbol)
  }

  lemma EntryOrder()
    ensures TotalPreorder(EntryLe)
  {
    forall a, b
      ensures EntryLe(a, b) || EntryLe(b, a)
    {
      TextTotal(a.record.symbol, b.record.symbol);
    }
    forall a, b, c | EntryLe(a, b) && EntryLe(b, c)
      ensures EntryLe(a, c)
    {
      if a.volume == c.volume {
        TextTransitive(a.record.symbol, b.record.symbol, c.record.symbol);
      }
    }
  }

  lemma FallbackOrder()
    ensures TotalPreorder(FallbackLe)
  {
    forall a, b
      ensures FallbackLe(a, b) || FallbackLe(b, a)
    {
      TextTotal(a.symbol, b.symbol);
    }
    forall a, b, c | FallbackLe(a, b) && FallbackLe(b, c)
      ensures FallbackLe(a, c)
    {
      if TextLe(a.symbol, b.symbol) && TextLe(b.symbol, c.symbol) {
        TextTransitive(a.symbol, b.symbol, c.symbol);
      }
    }
  }

  lemma NameOrder()
    ensures TotalPreorder(NameLe)
  {
    forall a, b
      ensures NameLe(a, b) || NameLe(b, a)
    {
      TextTotal(a.symbol, b.symbol);
    }
    forall a, b, c | NameLe(a, b) && NameLe(b, c)
      ensures NameLe(a, c)
    {
      TextTransitive(a.symbol, b.symbol, c.symbol);
    }
  }

  function RankByFallback(symbols: seq<Record>): seq<Record> {
    Sort(symbols, FallbackLe)
  }

  // ----- tickers of listed symbols -----

  ghost predicate DistinctNames(symbols: seq<Record>) {
    forall i, j :: 0 <= i < j < |symbols| ==> symbols[i].symbol != symbols[j].symbol
  }

  /** The dictionary from name to record; a later record replaces an earlier one of its name. */
  function Lookup(symbols: seq<Record>): map<string, Record> {
    if symbols == [] then map[]
    else
      var last := symbols[|symbols| - 1];
      Lookup(symbols[..|symbols| - 1])[last.symbol := last]
  }

  lemma {:induction false} LookupFinds(symbols: seq<Record>)
    requires DistinctNames(symbols)
    ensures forall i :: 0 <= i < |symbols| ==>
      symbols[i].symbol in Lookup(symbols) && Lookup(symbols)[symbols[i].symbol] == symbols[i]
    ensures forall name :: name in Lookup(symbols) ==>
      Lookup(symbols)[name] in symbols && Lookup(symbols)[name].symbol == name
  {
    if symbols != [] {
      var front := symbols[..|symbols| - 1];
      LookupFinds(front);
      assert symbols == front + [symbols[|symbols| - 1]];
    }
  }

  function Entries(known: map<string, Record>, tickers: seq<Ticker>): seq<Entry> {
    if tickers == [] then []
    else
      var front, t := Entries(known, tickers[..|tickers| - 1]), tickers[|tickers| - 1];
      if t.symbol.Some? && t.symbol.value in known then front + [Entry(t.Volume(), known[t.symbol.value])]
      else front
  }

  /** The greatest volume reported for a name, if any. */
  function Activity(tickers: seq<Ticker>, name: string): Option<real> {
    if tickers == [] then None
    else
      var before, t := Activity(tickers[..|tickers| - 1], name), tickers[|tickers| - 1];
      if t.symbol != Some(name) then before
      else if before.None? then Some(t.Volume())
      else Some(Max(before.value, t.Volume()))
  }

  /** `volume` is the greatest among the entries of `record`. */
  ghost predicate Greatest(entries: seq<Entry>, record: Record, volume: real) {
    && Entry(volume, record) in entries
    && forall e :: e in entries && e.record == record ==> e.volume <= volume
  }

  lemma GreatestUnique(entries: seq<Entry>, record: Record, a: real, b: real)
    requires Greatest(entries, record, a) && Greatest(entries, record, b)
    ensures a == b
  {
    assert Entry(a, record).volume <= b && Entry(b, record).volume <= a;
  }

  lemma {:induction false} ActivityIsGreatest(known: map<string, Record>, tickers: seq<Ticker>, record: Record)
    requires record.symbol in known && known[record.symbol] == record
    requires forall name :: name in known ==> known[name].symbol == name
    ensures match Activity(tickers, record.symbol)
      case None => forall e :: e in Entries(known, tickers) ==> e.record != record
      case Some(volume) => Greatest(Entries(known, tickers), record, volume)
  {
    if tickers != [] {
      var front, t := tickers[..|tickers| - 1], tickers[|tickers| - 1];
      ActivityIsGreatest(known, front, record);
      if t.symbol.Some? && t.symbol.value in known {
        var e := Entry(t.Volume(), known[t.symbol.value]);
        GreatestSnoc(Entries(known, front), e, record, Activity(front, record.symbol));
      }
    }
  }

  lemma GreatestSnoc(entries: seq<Entry>, e: Entry, record: Record, before: Option<real>)
    requires before.None? ==> forall x :: x in entries ==> x.record != record
    requires before.Some? ==> Greatest(entries, record, before.value)
    ensures e.record != record && before.None? ==> forall x :: x in entries + [e] ==> x.record != record
    ensures e.record != record && before.Some? ==> Greatest(entries + [e], record, before.value)
    ensures e.record == record && before.None? ==> Greatest(entries + [e], record, e.volume)
    ensures e.record == record && before.Some? ==> Greatest(entries + [e], record, Max(before.value, e.volume))
  {
    assert e in entries + [e];
    assert e == Entry(e.volume, e.record);
  }

  lemma {:induction false} EntriesAreKnown(known: map<string, Record>, tickers: seq<Ticker>)
    ensures forall e :: e in Entries(known, tickers) ==> e.record in known.Values
  {
    if tickers != [] {
      EntriesAreKnown(known, tickers[..|tickers| - 1]);
    }
  }

  // ----- what a ranking is -----

  predicate MoreActive(a: Record, b: Record, tickers: seq<Ticker>) {
    var x, y := Activity(tickers, a.symbol), Activity(tickers, b.symbol);
    x.Some? && y.Some? && (x.value > y.value || (x.value == y.value && TextLe(a.symbol, b.symbol)))
  }

  /** Active symbols by falling volume and then name, the silent ones behind them in fallback order. */
  ghost predicate RankedBehind(a: Record, b: Record, tickers: seq<Ticker>) {
    if Activity(tickers, a.symbol).Some? then Activity(tickers, b.symbol).Some? ==> MoreActive(a, b, tickers)
    else Activity(tickers, b.symbol).None? && FallbackLe(a, b)
  }

  ghost predicate IsRanking(ranked: seq<Record>, symbols: seq<Record>, tickers: seq<Ticker>) {
    && multiset(ranked) == multiset(symbols)
    && forall i, j :: 0 <= i < j < |ranked| ==> RankedBehind(ranked[i], ranked[j], tickers)
  }

  ghost predicate Reports(t: Ticker, name: string, volume: real) {
    && t.symbol == Some(name)
    && (t.quoteVolume == Some(volume) || (t.quoteVolume.None? && volume == 0.0))
  }

  /** A symbol is silent if no ticker names it; otherwise its activity is the greatest volume reported for it. */
  lemma {:induction false} ActivityMeans(tickers: seq<Ticker>, name: string)
    ensures match Activity(tickers, name)
      case None => forall t, v :: t in tickers ==> !Reports(t, name, v)
      case Some(x) =>
        && (exists t :: t in tickers && Reports(t, name, x))
        && (forall t, v :: t in tickers && Reports(t, name, v) ==> v <= x)
  {
    if tickers == [] {
      assert Activity(tickers, name).None?;
    } else {
      var n := |tickers| - 1;
      var front, last := tickers[..n], tickers[n];
      ActivityMeans(front, name);
      assert tickers == front + [last];
      assert forall v :: Reports(last, name, v) <==> last.symbol == Some(name) && v == last.Volume();
      var before := Activity(front, name);
      if last.symbol == Some(name) {
        assert last in tickers && Reports(last, name, last.Volume());
      }
      if before.Some? {
        var t :| t in front && Reports(t, name, before.value);
        assert t in tickers;
      }
    }
  }

  /** What a ranking says of two places: the active symbol with the greater volume comes first, by name among
      equals; silent symbols come last, the popular ones in their fixed order, then the others by name. */
  lemma RankingMeans(ranked: seq<Record>, symbols: seq<Record>, tickers: seq<Ticker>, i: nat, j: nat)
    requires IsRanking(ranked, symbols, tickers) && i < j < |ranked|
    ensures var x, y := Activity(tickers, ranked[i].symbol), Activity(tickers, ranked[j].symbol);
      var a, b := ranked[i].symbol, ranked[j].symbol;
      && (y.Some? ==> x.Some? && x.value >= y.value && (x.value == y.value ==> TextLe(a, b)))
      && (x.None? ==>
            && (forall k :: 0 <= k < |POPULAR| && POPULAR[k] == b ==> a in POPULAR[..k + 1])
            && (a !in POPULAR ==> b !in POPULAR && TextLe(a, b)))
  {
    assert RankedBehind(ranked[i], ranked[j], tickers);
    PlaceFacts(POPULAR, ranked[i].symbol);
    PlaceFacts(POPULAR, ranked[j].symbol);
  }

  lemma {:induction false} PlaceFacts(names: seq<string>, name: string)
    ensures PlaceIn(names, name) <= |names|
    ensures PlaceIn(names, name) < |names| ==> names[PlaceIn(names, name)] == name
    ensures forall k :: 0 <= k < PlaceIn(names, name) ==> names[k] != name
    ensures name in names <==> PlaceIn(names, name) < |names|
  {
    if names != [] && names[0] != name {
      PlaceFacts(names[1..], name);
      assert names == [names[0]] + names[1..];
    }
  }

  // ----- the ranking loop -----

  ghost predicate Named(entries: seq<Entry>) {
    forall e, f :: e in entries && f in entries && e.record.symbol == f.record.symbol ==> e.record == f.record
  }

  ghost predicate FirstAt(entries: seq<Entry>, k: nat) {
    k < |entries| && forall j :: 0 <= j < k ==> entries[j].record != entries[k].record
  }

  /** The records of `entries[..n]` in order of their first entries, which stand at `at`. */
  ghost predicate Collected(entries: seq<Entry>, n: nat, ordered: seq<Record>, at: seq<nat>, seen: set<string>) {
    && |at| == |ordered| && n <= |entries|
    && (forall m :: 0 <= m < |at| ==> at[m] < n && FirstAt(entries, at[m]) && entries[at[m]].record == ordered[m])
    && (forall m, k :: 0 <= m < k < |at| ==> at[m] < at[k])
    && (forall j :: 0 <= j < n ==> entries[j].record in ordered)
    && (forall r :: r in ordered ==> r.symbol in seen)
    && (forall name :: name in seen ==> exists r :: r in ordered && r.symbol == name)
  }

  lemma CollectNew(entries: seq<Entry>, n: nat, ordered: seq<Record>, at: seq<nat>, seen: set<string>)
    requires Collected(entries, n, ordered, at, seen) && n < |entries|
    requires entries[n].record.symbol !in seen
    ensures Collected(entries, n + 1, ordered + [entries[n].record], at + [n], seen + {entries[n].record.symbol})
  {
    var r := entries[n].record;
    assert r in ordered + [r];
    forall name | name in seen + {r.symbol}
      ensures exists x :: x in ordered + [r] && x.symbol == name
    {
      if name != r.symbol {
        var x :| x in ordered && x.symbol == name;
        assert x in ordered + [r];
      }
    }
  }

  lemma CollectKnown(entries: seq<Entry>, n: nat, ordered: seq<Record>, at: seq<nat>, seen: set<string>)
    requires Named(entries) && Collected(entries, n, ordered, at, seen) && n < |entries|
    requires entries[n].record.symbol in seen
    ensures Collected(entries, n + 1, ordered, at, seen)
  {
    var r :| r in ordered && r.symbol == entries[n].record.symbol;
    var m :| 0 <= m < |ordered| && ordered[m] == r;
    assert entries[at[m]] in entries && entries[n] in entries;
  }

  method FirstOfEach(entries: seq<Entry>) returns (ordered: seq<Record>, seen: set<string>, ghost at: seq<nat>)
    requires Named(entries)
    ensures Collected(entries, |entries|, ordered, at, seen)
    ensures forall e :: e in entries ==> e.record in ordered
    ensures forall i, j :: 0 <= i < j < |ordered| ==> ordered[i] != ordered[j]
  {
    ordered, seen, at := [], {}, [];
    var i := 0;
    while i < |entries|
      invariant 0 <= i <= |entries|
      invariant Collected(entries, i, ordered, at, seen)
    {
      var record := entries[i].record;
      if record.symbol in seen {
        CollectKnown(entries, i, ordered, at, seen);
      } else {
        CollectNew(entries, i, ordered, at, seen);
        seen := seen + {record.symbol};
        ordered := ordered + [record];
        at := at + [i];
      }
      i := i + 1;
    }
  }

  /** In falling order the first entry of a record is its greatest. */
  lemma FirstIsGreatest(entries: seq<Entry>, k: nat)
    requires SortedBy(entries, EntryLe) && FirstAt(entries, k)
    ensures Greatest(entries, entries[k].record, entries[k].volume)
  {
    forall e | e in entries && e.record == entries[k].record
      ensures e.volume <= entries[k].volume
    {
      var j :| 0 <= j < |entries| && entries[j] == e;
      assert j > k ==> EntryLe(entries[k], entries[j]);
    }
  }

  function Unseen(symbols: seq<Record>, seen: set<string>): seq<Record> {
    if symbols == [] then []
    else
      var front, last := Unseen(symbols[..|symbols| - 1], seen), symbols[|symbols| - 1];
      if last.symbol in seen then front else front + [last]
  }

  lemma {:induction false} UnseenFacts(symbols: seq<Record>, seen: set<string>)
    requires SortedBy(symbols, FallbackLe) && DistinctNames(symbols)
    ensures SortedBy(Unseen(symbols, seen), FallbackLe) && DistinctNames(Unseen(symbols, seen))
    ensures forall r :: r in Unseen(symbols, seen) <==> r in symbols && r.symbol !in seen
  {
    if symbols != [] {
      var n := |symbols| - 1;
      var front := Unseen(symbols[..n], seen);
      UnseenFacts(symbols[..n], seen);
      assert symbols == symbols[..n] + [symbols[n]];
      forall i | 0 <= i < |front|
        ensures FallbackLe(front[i], symbols[n]) && front[i].symbol != symbols[n].symbol
      {
        assert front[i] in symbols[..n];
      }
    }
  }

  // ----- distinct records -----

  lemma {:induction false} DistinctCounts(symbols: seq<Record>, r: Record)
    requires DistinctNames(symbols)
    ensures multiset(symbols)[r] == if r in symbols then 1 else 0
  {
    if symbols != [] {
      var n := |symbols| - 1;
      DistinctCounts(symbols[..n], r);
      assert symbols == symbols[..n] + [symbols[n]];
    }
  }

  /** Lists of distinct records with the same members are permutations of each other. */
  lemma SameMembersSameMultiset(xs: seq<Record>, ys: seq<Record>)
    requires DistinctNames(xs) && DistinctNames(ys) && forall r :: r in xs <==> r in ys
    ensures multiset(xs) == multiset(ys)
  {
    forall r
      ensures multiset(xs)[r] == multiset(ys)[r]
    {
      DistinctCounts(xs, r);
      DistinctCounts(ys, r);
    }
  }

  /** A distinct selection as long as the whole list leaves nothing out. */
  lemma FullSelection(part: seq<Record>, all: seq<Record>, r: Record)
    requires DistinctNames(part) && DistinctNames(all) && |part| == |all|
    requires (forall x :: x in part ==> x in all) && r in all
    ensures r in part
  {
    var a, b := multiset(part), multiset(all);
    forall x
      ensures a[x] <= b[x]
    {
      DistinctCounts(part, x);
      DistinctCounts(all, x);
    }
    assert b == a + (b - a);
    assert |b - a| == 0;
    assert r in b;
  }

  lemma {:induction false} SortKeepsDistinct(symbols: seq<Record>, sorted: seq<Record>)
    requires DistinctNames(symbols) && multiset(sorted) == multiset(symbols)
    ensures DistinctNames(sorted)
  {
    forall i, j | 0 <= i < j < |sorted|
      ensures sorted[i].symbol != sorted[j].symbol
    {
      var x, y := sorted[i], sorted[j];
      MembersOf(sorted, symbols, x);
      MembersOf(sorted, symbols, y);
      if x == y {
        DistinctCounts(symbols, x);
        TwiceIn(sorted, i, j);
      } else {
        var p :| 0 <= p < |symbols| && symbols[p] == x;
        var q :| 0 <= q < |symbols| && symbols[q] == y;
        assert p < q || q < p;
      }
    }
  }

  lemma MembersOf(xs: seq<Record>, ys: seq<Record>, r: Record)
    requires multiset(xs) == multiset(ys) && r in xs
    ensures r in ys
  {
    assert r in multiset(xs);
  }

  lemma TwiceIn(xs: seq<Record>, i: nat, j: nat)
    requires i < j < |xs| && xs[i] == xs[j]
    ensures multiset(xs)[xs[i]] >= 2
  {
    var a, b := xs[..j], xs[j..];
    assert xs == a + b && a[i] in a && b[0] in b;
    assert multiset(xs) == multiset(a) + multiset(b);
    assert multiset(a)[xs[i]] >= 1 && multiset(b)[xs[i]] >= 1;
  }

  // ----- the ranking is the specified one -----

  function SortedEntries(symbols: seq<Record>, tickers: seq<Ticker>): seq<Entry> {
    Sort(Entries(Lookup(symbols), tickers), EntryLe)
  }

  lemma SortedEntriesFacts(symbols: seq<Record>, tickers: seq<Ticker>)
    requires DistinctNames(symbols)
    ensures SortedBy(SortedEntries(symbols, tickers), EntryLe) && Named(SortedEntries(symbols, tickers))
    ensures forall e :: e in SortedEntries(symbols, tickers) <==> e in Entries(Lookup(symbols), tickers)
    ensures forall e :: e in SortedEntries(symbols, tickers) ==> e.record in symbols
  {
    EntryOrder();
    LookupFinds(symbols);
    EntriesAreKnown(Lookup(symbols), tickers);
    SortSorts(Entries(Lookup(symbols), tickers), EntryLe);
    SortHasSame(Entries(Lookup(symbols), tickers), EntryLe);
  }

  /** The activity of a listed record, read off the sorted entries. */
  lemma ActivityOf(symbols: seq<Record>, tickers: seq<Ticker>, r: Record)
    requires DistinctNames(symbols) && r in symbols
    ensures match Activity(tickers, r.symbol)
      case None => forall e :: e in SortedEntries(symbols, tickers) ==> e.record != r
      case Some(volume) => Greatest(SortedEntries(symbols, tickers), r, volume)
  {
    SortedEntriesFacts(symbols, tickers);
    LookupFinds(symbols);
    ActivityIsGreatest(Lookup(symbols), tickers, r);
  }

  lemma ActiveInOrder(symbols: seq<Record>, tickers: seq<Ticker>, ordered: seq<Record>, at: seq<nat>,
                      seen: set<string>, m: nat)
    requires DistinctNames(symbols) && m < |ordered|
    requires Collected(SortedEntries(symbols, tickers), |SortedEntries(symbols, tickers)|, ordered, at, seen)
    ensures ordered[m] in symbols
    ensures Activity(tickers, ordered[m].symbol) == Some(SortedEntries(symbols, tickers)[at[m]].volume)
  {
    var entries := SortedEntries(symbols, tickers);
    SortedEntriesFacts(symbols, tickers);
    assert entries[at[m]] in entries;
    ActivityOf(symbols, tickers, ordered[m]);
    FirstIsGreatest(entries, at[m]);
    var activity := Activity(tickers, ordered[m].symbol);
    if activity.Some? {
      GreatestUnique(entries, ordered[m], activity.value, entries[at[m]].volume);
    }
  }

  lemma ActivesRanked(symbols: seq<Record>, tickers: seq<Ticker>, ordered: seq<Record>, at: seq<nat>,
                      seen: set<string>, m: nat, k: nat)
    requires DistinctNames(symbols) && m < k < |ordered|
    requires Collected(SortedEntries(symbols, tickers), |SortedEntries(symbols, tickers)|, ordered, at, seen)
    ensures RankedBehind(ordered[m], ordered[k], tickers) && ordered[m].symbol != ordered[k].symbol
  {
    var entries := SortedEntries(symbols, tickers);
    SortedEntriesFacts(symbols, tickers);
    ActiveInOrder(symbols, tickers, ordered, at, seen, m);
    ActiveInOrder(symbols, tickers, ordered, at, seen, k);
    assert EntryLe(entries[at[m]], entries[at[k]]);
    assert entries[at[m]] in entries && entries[at[k]] in entries;
    assert entries[at[m]].record != entries[at[k]].record;
  }

  /** Records without a ticker are exactly those not seen. */
  lemma SilentIsUnseen(symbols: seq<Record>, tickers: seq<Ticker>, ordered: seq<Record>, at: seq<nat>,
                       seen: set<string>, r: Record)
    requires DistinctNames(symbols) && r in symbols
    requires Collected(SortedEntries(symbols, tickers), |SortedEntries(symbols, tickers)|, ordered, at, seen)
    ensures Activity(tickers, r.symbol).None? <==> r.symbol !in seen
    ensures r.symbol in seen <==> r in ordered
  {
    var entries := SortedEntries(symbols, tickers);
    ActivityOf(symbols, tickers, r);
    if Activity(tickers, r.symbol).Some? {
      var e := Entry(Activity(tickers, r.symbol).value, r);
      var j :| 0 <= j < |entries| && entries[j] == e;
      assert entries[j].record in ordered;
    }
    if r.symbol in seen {
      var x :| x in ordered && x.symbol == r.symbol;
      var m :| 0 <= m < |ordered| && ordered[m] == x;
      ActiveInOrder(symbols, tickers, ordered, at, seen, m);
      SameName(symbols, x, r);
    }
  }

  lemma SameName(symbols: seq<Record>, x: Record, y: Record)
    requires DistinctNames(symbols) && x in symbols && y in symbols && x.symbol == y.symbol
    ensures x == y
  {
    LookupFinds(symbols);
  }

  /** The silent symbols behind the active ones. */
  ghost predicate Completed(symbols: seq<Record>, seen: set<string>, ordered: seq<Record>, rest: seq<Record>) {
    rest == Unseen(RankByFallback(symbols), seen) || (rest == [] && |ordered| == |symbols|)
  }

  lemma FallbackFacts(symbols: seq<Record>)
    requires DistinctNames(symbols)
    ensures SortedBy(RankByFallback(symbols), FallbackLe) && DistinctNames(RankByFallback(symbols))
    ensures multiset(RankByFallback(symbols)) == multiset(symbols)
    ensures forall r :: r in RankByFallback(symbols) <==> r in symbols
  {
    FallbackOrder();
    SortSorts(symbols, FallbackLe);
    SortHasSame(symbols, FallbackLe);
    SortKeepsDistinct(symbols, RankByFallback(symbols));
  }

  lemma RankingHolds(symbols: seq<Record>, tickers: seq<Ticker>, ordered: seq<Record>, at: seq<nat>,
                     seen: set<string>, rest: seq<Record>)
    requires DistinctNames(symbols) && Completed(symbols, seen, ordered, rest)
    requires Collected(SortedEntries(symbols, tickers), |SortedEntries(symbols, tickers)|, ordered, at, seen)
    ensures IsRanking(ordered + rest, symbols, tickers)
  {
    var ranked := ordered + rest;
    FallbackFacts(symbols);
    UnseenFacts(RankByFallback(symbols), seen);
    forall i, j | 0 <= i < j < |ordered|
      ensures RankedBehind(ordered[i], ordered[j], tickers) && ordered[i].symbol != ordered[j].symbol
    {
      ActivesRanked(symbols, tickers, ordered, at, seen, i, j);
    }
    forall r | r in ordered
      ensures r in symbols && Activity(tickers, r.symbol).Some? && r.symbol in seen
    {
      var m :| 0 <= m < |ordered| && ordered[m] == r;
      ActiveInOrder(symbols, tickers, ordered, at, seen, m);
    }
    forall r | r in rest
      ensures r in symbols && Activity(tickers, r.symbol).None? && r.symbol !in seen
    {
      SilentIsUnseen(symbols, tickers, ordered, at, seen, r);
    }
    assert DistinctNames(ordered);
    DistinctConcat(ordered, rest, seen);
    forall r | r in symbols
      ensures r in ordered || r in rest
    {
      SilentIsUnseen(symbols, tickers, ordered, at, seen, r);
      if rest == [] && |ordered| == |symbols| {
        FullSelection(ordered, symbols, r);
      }
    }
    SameMembersSameMultiset(ranked, symbols);
    forall i, j | 0 <= i < j < |ranked|
      ensures RankedBehind(ranked[i], ranked[j], tickers)
    {
      assert i < |ordered| ==> ranked[i] in ordered;
      assert i >= |ordered| ==> ranked[i] in rest;
      assert j >= |ordered| ==> ranked[j] in rest;
    }
  }

  lemma DistinctConcat(xs: seq<Record>, ys: seq<Record>, seen: set<string>)
    requires DistinctNames(xs) && DistinctNames(ys)
    requires (forall r :: r in xs ==> r.symbol in seen) && (forall r :: r in ys ==> r.symbol !in seen)
    ensures DistinctNames(xs + ys)
  {
    forall i, j | 0 <= i < j < |xs + ys|
      ensures (xs + ys)[i].symbol != (xs + ys)[j].symbol
    {
      assert i < |xs| ==> (xs + ys)[i] in xs;
      assert j >= |xs| ==> (xs + ys)[j] in ys;
    }
  }

  /** With distinct names, and whatever the ticker request answers (`None` when it raises), the result is a
      permutation of the symbols, ranked as specified. */
  method RankActiveSymbols(symbols: seq<Record>, payload: Option<seq<Ticker>>) returns (ranked: seq<Record>)
    requires DistinctNames(symbols)
    ensures IsRanking(ranked, symbols, if payload.None? then [] else payload.value)
  {
    if payload.None? {
      NothingActive(symbols, []);
      return RankByFallback(symbols);
    }
    var entries := SortedEntries(symbols, payload.value);
    SortedEntriesFacts(symbols, payload.value);
    if entries == [] {
      NothingActive(symbols, payload.value);
      return RankByFallback(symbols);
    }
    var ordered, seen, at := FirstOfEach(entries);
    ranked := ordered;
    ghost var rest := [];
    assert |ordered| <= |symbols| by {
      SelectionFits(symbols, payload.value, ordered, at, seen);
    }
    if |ordered| < |symbols| {
      rest := Unseen(RankByFallback(symbols), seen);
      ranked := ranked + Unseen(RankByFallback(symbols), seen);
    }
    RankingHolds(symbols, payload.value, ordered, at, seen, rest);
    assert ranked == ordered + rest;
  }

  lemma SelectionFits(symbols: seq<Record>, tickers: seq<Ticker>, ordered: seq<Record>, at: seq<nat>,
                      seen: set<string>)
    requires DistinctNames(symbols)
    requires Collected(SortedEntries(symbols, tickers), |SortedEntries(symbols, tickers)|, ordered, at, seen)
    ensures |ordered| <= |symbols|
  {
    forall i, j | 0 <= i < j < |ordered|
      ensures ordered[i].symbol != ordered[j].symbol
    {
      ActivesRanked(symbols, tickers, ordered, at, seen, i, j);
    }
    forall x
      ensures multiset(ordered)[x] <= multiset(symbols)[x]
    {
      if x in ordered {
        var m :| 0 <= m < |ordered| && ordered[m] == x;
        ActiveInOrder(symbols, tickers, ordered, at, seen, m);
      }
      DistinctCounts(ordered, x);
      DistinctCounts(symbols, x);
    }
    assert multiset(symbols) == multiset(ordered) + (multiset(symbols) - multiset(ordered));
  }

  lemma NothingActive(symbols: seq<Record>, tickers: seq<Ticker>)
    requires DistinctNames(symbols) && SortedEntries(symbols, tickers) == []
    ensures IsRanking(RankByFallback(symbols), symbols, tickers)
  {
    var ranked := RankByFallback(symbols);
    FallbackFacts(symbols);
    forall i, j | 0 <= i < j < |ranked|
      ensures RankedBehind(ranked[i], ranked[j], tickers)
    {
      assert ranked[i] in ranked && ranked[j] in ranked;
      ActivityOf(symbols, tickers, ranked[i]);
      ActivityOf(symbols, tickers, ranked[j]);
    }
  }

  /** There is only one ranking, so the specification leaves nothing open. */
  lemma {:induction false} RankingIsUnique(a: seq<Record>, b: seq<Record>, tickers: seq<Ticker>)
    requires multiset(a) == multiset(b) && DistinctNames(a)
    requires forall i, j :: 0 <= i < j < |a| ==> RankedBehind(a[i], a[j], tickers)
    requires forall i, j :: 0 <= i < j < |b| ==> RankedBehind(b[i], b[j], tickers)
    ensures a == b
  {
    assert |multiset(a)| == |a| && |multiset(b)| == |b|;
    if a != [] {
      FirstAgrees(a, b, tickers);
      TailsMatch(a, b);
      RankingIsUnique(a[1..], b[1..], tickers);
      assert a == [a[0]] + a[1..] && b == [b[0]] + b[1..];
    }
  }

  lemma TailsMatch(a: seq<Record>, b: seq<Record>)
    requires multiset(a) == multiset(b) && a != [] && b != [] && a[0] == b[0]
    ensures multiset(a[1..]) == multiset(b[1..])
  {
    assert a == [a[0]] + a[1..] && b == [b[0]] + b[1..];
    assert multiset(a[1..]) == multiset(a) - multiset{a[0]};
    assert multiset(b[1..]) == multiset(b) - multiset{b[0]};
  }

  lemma FirstAgrees(a: seq<Record>, b: seq<Record>, tickers: seq<Ticker>)
    requires multiset(a) == multiset(b) && a != [] && b != []
    requires DistinctNames(a)
    requires forall i, j :: 0 <= i < j < |a| ==> RankedBehind(a[i], a[j], tickers)
    requires forall i, j :: 0 <= i < j < |b| ==> RankedBehind(b[i], b[j], tickers)
    ensures a[0] == b[0]
  {
    MembersOf(a, b, a[0]);
    MembersOf(b, a, b[0]);
    var i :| 0 <= i < |b| && b[i] == a[0];
    var j :| 0 <= j < |a| && a[j] == b[0];
    if i > 0 && j > 0 {
      assert RankedBehind(a[0], a[j], tickers) && RankedBehind(b[0], b[i], tickers);
      TextTotal(a[0].symbol, b[0].symbol);
    }
  }

  // ----- search -----

  function SkipSpaces(s: string): string {
    if s != "" && s[0] in " \t\n\r" then SkipSpaces(s[1..]) else s
  }

  function DropSpaces(s: string): string {
    if s != "" && s[|s| - 1] in " \t\n\r" then DropSpaces(s[..|s| - 1]) else s
  }

  function Normalized(query: string): string {
    Upper(DropSpaces(SkipSpaces(query)))
  }

  predicate StartsWith(text: string, query: string) {
    query <= text
  }

  predicate Contains(text: string, query: string) {
    exists k :: 0 <= k <= |text| && query <= text[k..]
  }

  predicate PrefixMatch(r: Record, query: string) {
    StartsWith(r.symbol, query) || StartsWith(r.base, query)
  }

  predicate SubstringMatch(r: Record, query: string) {
    Contains(r.symbol, query) || Contains(r.base, query)
  }

  function Keep(symbols: seq<Record>, test: Record -> bool): seq<Record> {
    if symbols == [] then []
    else
      var front, last := Keep(symbols[..|symbols| - 1], test), symbols[|symbols| - 1];
      if test(last) then front + [last] else front
  }

  /** Python's `xs[:limit]`; a negative limit counts from the end. */
  function Head<T>(xs: seq<T>, limit: int): seq<T> {
    if limit < 0 then xs[..MaxInt(0, |xs| + limit)] else xs[..MinInt(limit, |xs|)]
  }

  function Matches(symbols: seq<Record>, query: string): seq<Record> {
    var prefix := Keep(symbols, r => PrefixMatch(r, query));
    prefix + Keep(symbols, r => r !in prefix && SubstringMatch(r, query))
  }

  /** `a` stands before `b` in the listing. */
  ghost predicate Precedes(symbols: seq<Record>, a: Record, b: Record) {
    exists i, j :: 0 <= i < j < |symbols| && symbols[i] == a && symbols[j] == b
  }

  /** The full answer to a query: every symbol whose name or base asset contains it, once, the prefix matches
      before the others and each kind in listing order. */
  ghost predicate IsAnswer(found: seq<Record>, symbols: seq<Record>, query: string) {
    && DistinctNames(found)
    && (forall r :: r in found <==> r in symbols && SubstringMatch(r, query))
    && (forall i, j :: 0 <= i < j < |found| ==>
          if PrefixMatch(found[i], query) == PrefixMatch(found[j], query) then Precedes(symbols, found[i], found[j])
          else PrefixMatch(found[i], query))
  }

  /** What a limit leaves of a list: the first `limit` of it, or all but the last `-limit`. */
  predicate LimitedTo<T(==)>(part: seq<T>, all: seq<T>, limit: int) {
    part <= all && |part| == if limit < 0 then MaxInt(0, |all| + limit) else MinInt(limit, |all|)
  }

  /** A limit at least as long as the list leaves it whole and a smaller one that many entries; a negative one takes
      as many off the end, down to none. */
  lemma LimitMeans<T>(part: seq<T>, all: seq<T>, limit: int)
    requires LimitedTo(part, all, limit)
    ensures part == all[..|part|]
    ensures limit >= |all| ==> part == all
    ensures 0 <= limit <= |all| ==> |part| == limit
    ensures limit < 0 && |all| + limit >= 0 ==> |part| - limit == |all|
    ensures |all| + limit <= 0 && limit < 0 ==> part == []
  {
  }

  method SearchSymbols(symbols: seq<Record>, payload: Option<seq<Ticker>>, query: string, limit: int)
    returns (found: seq<Record>)
    requires DistinctNames(symbols)
    ensures Normalized(query) != "" ==>
      exists full :: IsAnswer(full, symbols, Normalized(query)) && LimitedTo(found, full, limit)
    ensures Normalized(query) == "" ==> exists ranked ::
      IsRanking(ranked, symbols, if payload.None? then [] else payload.value) && LimitedTo(found, ranked, limit)
  {
    var normalized := Normalized(query);
    if normalized == "" {
      var ranked := RankActiveSymbols(symbols, payload);
      found := Head(ranked, limit);
      assert LimitedTo(found, ranked, limit);
      return;
    }
    SearchFindsEachOnce(symbols, normalized);
    found := Head(Matches(symbols, normalized), limit);
    assert LimitedTo(found, Matches(symbols, normalized), limit);
  }

  lemma {:induction false} KeepFacts(symbols: seq<Record>, test: Record -> bool)
    requires DistinctNames(symbols)
    ensures DistinctNames(Keep(symbols, test))
    ensures forall r :: r in Keep(symbols, test) <==> r in symbols && test(r)
  {
    if symbols != [] {
      var n := |symbols| - 1;
      var front := Keep(symbols[..n], test);
      KeepFacts(symbols[..n], test);
      assert symbols == symbols[..n] + [symbols[n]];
      forall i | 0 <= i < |front|
        ensures front[i].symbol != symbols[n].symbol
      {
        assert front[i] in symbols[..n];
      }
    }
  }

  lemma PrecedesInPrefix(symbols: seq<Record>, n: nat, a: Record, b: Record)
    requires n <= |symbols| && Precedes(symbols[..n], a, b)
    ensures Precedes(symbols, a, b)
  {
    var i, j :| 0 <= i < j < |symbols[..n]| && symbols[..n][i] == a && symbols[..n][j] == b;
    assert symbols[i] == a && symbols[j] == b;
  }

  lemma {:induction false} KeepKeepsOrder(symbols: seq<Record>, test: Record -> bool, i: nat, j: nat)
    requires i < j < |Keep(symbols, test)|
    ensures Precedes(symbols, Keep(symbols, test)[i], Keep(symbols, test)[j])
  {
    var n := |symbols| - 1;
    var front := Keep(symbols[..n], test);
    if j < |front| {
      KeepKeepsOrder(symbols[..n], test, i, j);
      PrecedesInPrefix(symbols, n, front[i], front[j]);
    } else {
      KeptIsListed(symbols[..n], test, front[i]);
      var k :| 0 <= k < n && symbols[..n][k] == front[i];
      assert symbols[k] == front[i] && symbols[n] == Keep(symbols, test)[j];
    }
  }

  lemma {:induction false} KeptIsListed(symbols: seq<Record>, test: Record -> bool, r: Record)
    requires r in Keep(symbols, test)
    ensures r in symbols && test(r)
  {
    var n := |symbols| - 1;
    if r in Keep(symbols[..n], test) {
      KeptIsListed(symbols[..n], test, r);
      assert symbols == symbols[..n] + [symbols[n]];
    }
  }

  lemma PrefixIsSubstring(r: Record, query: string)
    requires PrefixMatch(r, query)
    ensures SubstringMatch(r, query)
  {
    assert r.symbol[0..] == r.symbol && r.base[0..] == r.base;
  }

  function PrefixMatches(symbols: seq<Record>, query: string): seq<Record> {
    Keep(symbols, r => PrefixMatch(r, query))
  }

  function OtherMatches(symbols: seq<Record>, query: string): seq<Record> {
    var prefix := PrefixMatches(symbols, query);
    Keep(symbols, r => r !in prefix && SubstringMatch(r, query))
  }

  /** The members of the two blocks. */
  lemma BlocksOfMatches(symbols: seq<Record>, query: string)
    requires DistinctNames(symbols)
    ensures Matches(symbols, query) == PrefixMatches(symbols, query) + OtherMatches(symbols, query)
    ensures DistinctNames(PrefixMatches(symbols, query)) && DistinctNames(OtherMatches(symbols, query))
    ensures forall r :: r in PrefixMatches(symbols, query) <==> r in symbols && PrefixMatch(r, query)
    ensures forall r :: r in OtherMatches(symbols, query) <==>
      r in symbols && SubstringMatch(r, query) && !PrefixMatch(r, query)
  {
    var prefix := PrefixMatches(symbols, query);
    KeepFacts(symbols, r => PrefixMatch(r, query));
    KeepFacts(symbols, r => r !in prefix && SubstringMatch(r, query));
  }

  lemma MatchesAreDistinct(symbols: seq<Record>, query: string)
    requires DistinctNames(symbols)
    ensures DistinctNames(Matches(symbols, query))
  {
    BlocksOfMatches(symbols, query);
    var prefix, others := PrefixMatches(symbols, query), OtherMatches(symbols, query);
    var names := set r | r in prefix :: r.symbol;
    forall r | r in others
      ensures r.symbol !in names
    {
      if r.symbol in names {
        var x :| x in prefix && x.symbol == r.symbol;
        SameName(symbols, x, r);
      }
    }
    DistinctConcat(prefix, others, names);
  }

  lemma BlockOf(symbols: seq<Record>, query: string, k: nat)
    requires DistinctNames(symbols) && k < |Matches(symbols, query)|
    ensures PrefixMatch(Matches(symbols, query)[k], query) <==> k < |PrefixMatches(symbols, query)|
  {
    BlocksOfMatches(symbols, query);
    var prefix, others := PrefixMatches(symbols, query), OtherMatches(symbols, query);
    assert if k < |prefix| then prefix[k] in prefix else others[k - |prefix|] in others;
  }

  lemma MatchesInOrder(symbols: seq<Record>, query: string, i: nat, j: nat)
    requires DistinctNames(symbols) && i < j < |Matches(symbols, query)|
    ensures var a, b := Matches(symbols, query)[i], Matches(symbols, query)[j];
      if PrefixMatch(a, query) == PrefixMatch(b, query) then Precedes(symbols, a, b) else PrefixMatch(a, query)
  {
    BlockOf(symbols, query, i);
    BlockOf(symbols, query, j);
    var prefix := PrefixMatches(symbols, query);
    if j < |prefix| {
      KeepKeepsOrder(symbols, r => PrefixMatch(r, query), i, j);
    } else if i >= |prefix| {
      KeepKeepsOrder(symbols, r => r !in prefix && SubstringMatch(r, query), i - |prefix|, j - |prefix|);
    }
  }

  /** Every symbol whose name or base asset contains the query is found exactly once, the prefix matches
      first, each kind in listing order. */
  lemma SearchFindsEachOnce(symbols: seq<Record>, query: string)
    requires DistinctNames(symbols)
    ensures IsAnswer(Matches(symbols, query), symbols, query)
  {
    BlocksOfMatches(symbols, query);
    MatchesAreDistinct(symbols, query);
    forall r | PrefixMatch(r, query)
      ensures SubstringMatch(r, query)
    {
      PrefixIsSubstring(r, query);
    }
    forall i, j | 0 <= i < j < |Matches(symbols, query)|
      ensures var a, b := Matches(symbols, query)[i], Matches(symbols, query)[j];
        if PrefixMatch(a, query) == PrefixMatch(b, query) then Precedes(symbols, a, b) else PrefixMatch(a, query)
    {
      MatchesInOrder(symbols, query, i, j);
    }
  }

  /** A prefix match begins with the query and a match contains it, in the name or in the base asset. */
  lemma MatchMeans(r: Record, query: string)
    ensures PrefixMatch(r, query) <==> exists after :: r.symbol == query + after || r.base == query + after
    ensures SubstringMatch(r, query) <==>
      exists before, after :: r.symbol == before + query + after || r.base == before + query + after
  {
    BeginningMeans(r.symbol, query);
    BeginningMeans(r.base, query);
    ContainsMeans(r.symbol, query);
    ContainsMeans(r.base, query);
  }

  lemma BeginningMeans(text: string, query: string)
    ensures StartsWith(text, query) <==> exists after :: text == query + after
  {
    if StartsWith(text, query) {
      assert text == query + text[|query|..];
    }
  }

  lemma ContainsMeans(text: string, query: string)
    ensures Contains(text, query) <==> exists before, after :: text == before + query + after
  {
    if k :| 0 <= k <= |text| && query <= text[k..] {
      assert text == text[..k] + query + text[k..][|query|..];
    }
    if before, after :| text == before + query + after {
      assert text[|before|..] == query + after;
    }
  }

  predicate Spaces(s: string) {
    forall i :: 0 <= i < |s| ==> s[i] == ' ' || s[i] == '\t' || s[i] == '\n' || s[i] == '\r'
  }

  /** Normalising drops the white space around a query, and no other, and upper-cases the rest. */
  lemma NormalizedMeans(left: string, query: string, right: string)
    requires Spaces(left) && Spaces(right)
    requires query != "" ==> !Spaces(query[..1]) && !Spaces(query[|query| - 1..])
    ensures Normalized(left + query + right) == Upper(query)
  {
    Trimmed(left, query, right);
  }

  lemma Trimmed(left: string, query: string, right: string)
    requires Spaces(left) && Spaces(right)
    requires query != "" ==> !Spaces(query[..1]) && !Spaces(query[|query| - 1..])
    ensures DropSpaces(SkipSpaces(left + query + right)) == query
  {
    AppendAssociates(left, query, right);
    SkipsLeft(left, query + right);
    if query == "" {
      assert query + right == right;
      SkipsLeft(right, "");
      assert right + "" == right;
    } else {
      KeepsLeft(query, right);
      DropsRight(query, right);
    }
  }

  lemma KeepsLeft(query: string, right: string)
    requires query != "" && !Spaces(query[..1])
    ensures SkipSpaces(query + right) == query + right
  {
    assert query[..1] == [query[0]] && (query + right)[0] == query[0];
  }

  lemma {:induction false} SkipsLeft(left: string, rest: string)
    requires Spaces(left)
    ensures SkipSpaces(left + rest) == SkipSpaces(rest)
  {
    if left == "" {
      assert left + rest == rest;
    } else {
      assert (left + rest)[1..] == left[1..] + rest;
      SkipsLeft(left[1..], rest);
    }
  }

  lemma {:induction false} DropsRight(query: string, right: string)
    requires Spaces(right) && query != "" && !Spaces(query[|query| - 1..])
    ensures DropSpaces(query + right) == query
  {
    if right == "" {
      assert query + right == query;
      assert query[|query| - 1..] == [query[|query| - 1]];
    } else {
      assert (query + right)[..|query + right| - 1] == query + right[..|right| - 1];
      DropsRight(query, right[..|right| - 1]);
    }
  }

  // ----- the cached listing -----

  datatype ExchangeSymbol = ExchangeSymbol(
    symbol: string, base: string, quote: string, status: string,
    spotAllowed: bool, permissions: seq<string>, permissionSets: seq<seq<string>>)

  predicate Supported(s: ExchangeSymbol) {
    && s.quote == "USDT" && s.status == "TRADING"
    && (s.spotAllowed || "SPOT" in s.permissions
        || exists k :: 0 <= k < |s.permissionSets| && "SPOT" in s.permissionSets[k])
  }

  function ToRecord(s: ExchangeSymbol): Record {
    Record(s.symbol, s.base, s.quote, s.status)
  }

  function Tradable(symbols: seq<ExchangeSymbol>): seq<Record> {
    if symbols == [] then []
    else
      var front, last := Tradable(symbols[..|symbols| - 1]), symbols[|symbols| - 1];
      if Supported(last) then front + [ToRecord(last)] else front
  }

  function Listing(symbols: seq<ExchangeSymbol>): seq<Record> {
    Sort(Tradable(symbols), NameLe)
  }

  ghost predicate DistinctSymbols(symbols: seq<ExchangeSymbol>) {
    forall i, j :: 0 <= i < j < |symbols| ==> symbols[i].symbol != symbols[j].symbol
  }

  lemma {:induction false} TradableIsSupported(symbols: seq<ExchangeSymbol>, r: Record)
    ensures r in Tradable(symbols) <==>
      exists k :: 0 <= k < |symbols| && Supported(symbols[k]) && ToRecord(symbols[k]) == r
  {
    if symbols != [] {
      TradableIsSupported(symbols[..|symbols| - 1], r);
    }
  }

  lemma {:induction false} TradableIsDistinct(symbols: seq<ExchangeSymbol>)
    requires DistinctSymbols(symbols)
    ensures DistinctNames(Tradable(symbols))
  {
    if symbols != [] {
      var n := |symbols| - 1;
      var front := Tradable(symbols[..n]);
      TradableIsDistinct(symbols[..n]);
      forall i | 0 <= i < |front|
        ensures front[i].symbol != symbols[n].symbol
      {
        assert front[i] in front;
        TradableIsSupported(symbols[..n], front[i]);
        var k :| 0 <= k < n && Supported(symbols[..n][k]) && ToRecord(symbols[..n][k]) == front[i];
        assert symbols[k].symbol != symbols[n].symbol;
      }
    }
  }

  /** The listing holds the supported symbols, each once, in name order; searching and ranking may rely on it. */
  lemma ListingFacts(symbols: seq<ExchangeSymbol>)
    requires DistinctSymbols(symbols)
    ensures DistinctNames(Listing(symbols)) && SortedBy(Listing(symbols), NameLe)
    ensures forall r :: r in Listing(symbols) <==>
      exists k :: 0 <= k < |symbols| && Supported(symbols[k]) && ToRecord(symbols[k]) == r
  {
    NameOrder();
    TradableIsDistinct(symbols);
    forall r
      ensures r in Tradable(symbols) <==>
        exists k :: 0 <= k < |symbols| && Supported(symbols[k]) && ToRecord(symbols[k]) == r
    {
      TradableIsSupported(symbols, r);
    }
    SortSorts(Tradable(symbols), NameLe);
    SortHasSame(Tradable(symbols), NameLe);
    SortKeepsDistinct(Tradable(symbols), Listing(symbols));
  }

  /** The exchange trades the symbol on its spot market against USDT, by any of the three ways to say so. */
  ghost predicate TradesOnSpot(s: ExchangeSymbol) {
    && s.quote == "USDT" && s.status == "TRADING"
    && (s.spotAllowed || "SPOT" in s.permissions || exists group :: group in s.permissionSets && "SPOT" in group)
  }

  lemma SupportedTrades(s: ExchangeSymbol)
    ensures TradesOnSpot(s) <==> Supported(s)
  {
    if group :| group in s.permissionSets && "SPOT" in group {
      var k :| 0 <= k < |s.permissionSets| && s.permissionSets[k] == group;
    }
  }

  /** A record is listed exactly if it is the record of such a symbol. */
  lemma ListingMeans(symbols: seq<ExchangeSymbol>, r: Record)
    requires DistinctSymbols(symbols)
    ensures r in Listing(symbols) <==>
      exists s :: s in symbols && TradesOnSpot(s) && r.symbol == s.symbol && r.base == s.base && r.quote == s.quote
                  && r.status == s.status
  {
    ListingFacts(symbols);
    forall s
      ensures TradesOnSpot(s) <==> Supported(s)
    {
      SupportedTrades(s);
    }
    if s :| s in symbols && TradesOnSpot(s) && r.symbol == s.symbol && r.base == s.base && r.quote == s.quote
            && r.status == s.status {
      var k :| 0 <= k < |symbols| && symbols[k] == s;
      assert Supported(symbols[k]) && ToRecord(symbols[k]) == r;
    }
  }

  class SymbolService {
    var cached: seq<Record>
    var lastRefreshAt: int
    const ttl: int
    // The exchange answer the cache was built from.
    ghost var source: seq<ExchangeSymbol>

    ghost predicate Valid()
      reads this
    {
      cached == Listing(source)
    }

    constructor (ttl: int)
      ensures Valid() && cached == [] && this.ttl == ttl && lastRefreshAt == 0
    {
      this.ttl := ttl;
      cached, lastRefreshAt, source := Listing([]), 0, [];
    }

    /** A non-empty cache younger than the time to live answers, unless told to refresh. */
    predicate CacheHit(refresh: bool, now: int)
      reads this
    {
      !refresh && cached != [] && now - lastRefreshAt < ttl
    }

    /** The look at the cache before the lock is taken. */
    method Peek(refresh: bool, now: int) returns (symbols: Option<seq<Record>>)
      ensures symbols == if CacheHit(refresh, now) then Some(cached) else None
    {
      symbols := if !refresh && cached != [] && now - lastRefreshAt < ttl then Some(cached) else None;
    }

    /** What happens once the lock is held: a second look, since another caller may have refreshed while this
        one waited, and then the request. A failing request (`None`) raises and leaves the cache alone. */
    method RefreshLocked(refresh: bool, now: int, exchange: Option<seq<ExchangeSymbol>>)
      returns (symbols: Option<seq<Record>>)
      requires Valid()
      modifies this`cached, this`lastRefreshAt, this`source
      ensures Valid()
      ensures var hit := old(CacheHit(refresh, now));
        && (hit || exchange.None? ==>
             cached == old(cached) && lastRefreshAt == old(lastRefreshAt) && source == old(source))
        && (!hit && exchange.Some? ==> source == exchange.value && lastRefreshAt == now)
        && symbols == if hit || exchange.Some? then Some(Listing(source)) else None
    {
      var hit := Peek(refresh, now);
      if hit.Some? {
        return hit;
      }
      if exchange.None? {
        return None;
      }
      cached := Tradable(exchange.value);
      cached := Sort(cached, NameLe);
      lastRefreshAt := now;
      source := exchange.value;
      symbols := Some(cached);
    }

    /** A whole call that meets no other: the first look at `now`, the second under the lock at `later`. */
    method ListSymbols(refresh: bool, now: int, later: int, exchange: Option<seq<ExchangeSymbol>>)
      returns (symbols: Option<seq<Record>>)
      requires Valid()
      modifies this`cached, this`lastRefreshAt, this`source
      ensures Valid()
      ensures var hit := old(CacheHit(refresh, now) || CacheHit(refresh, later));
        && (hit || exchange.None? ==>
             cached == old(cached) && lastRefreshAt == old(lastRefreshAt) && source == old(source))
        && (!hit && exchange.Some? ==> source == exchange.value && lastRefreshAt == later)
        && symbols == if hit || exchange.Some? then Some(Listing(source)) else None
    {
      symbols := Peek(refresh, now);
      if symbols.None? {
        symbols := RefreshLocked(refresh, later, exchange);
      }
    }

    ghost function Cache(): Listed
      reads this
    {
      Listed(source, lastRefreshAt)
    }

    method TakeTurn(call: Call) returns (answer: Option<seq<Record>>)
      requires Valid()
      modifies this`cached, this`lastRefreshAt, this`source
      ensures Valid() && Cache() == Turn(old(Cache()), call, ttl)
      ensures answer == Answer(old(Cache()), call, ttl)
    {
      answer := RefreshLocked(call.refresh, call.at, call.exchange);
    }

    /** Callers that missed the cache at their first look take the lock in turn. */
    method TakeTurns(calls: seq<Call>) returns (answers: seq<Option<seq<Record>>>)
      requires Valid()
      modifies this`cached, this`lastRefreshAt, this`source
      ensures Valid() && Cache() == AfterTurns(old(Cache()), calls, ttl)
      ensures answers == Answers(old(Cache()), calls, ttl)
    {
      answers := [];
      ghost var held := Cache();
      for i := 0 to |calls|
        invariant Valid()
        invariant AfterTurns(Cache(), calls[i..], ttl) == AfterTurns(held, calls, ttl)
        invariant answers + Answers(Cache(), calls[i..], ttl) == Answers(held, calls, ttl)
      {
        ghost var before := Cache();
        var answer := TakeTurn(calls[i]);
        FirstTurn(before, calls[i..], ttl);
        AppendAssociates(answers, [answer], Answers(Cache(), calls[i + 1..], ttl));
        answers := answers + [answer];
      }
    }
  }

  // ----- callers waiting for the lock -----

  /** One caller's turn under the lock: whether it insists, when it gets the lock, and what the exchange would
      answer it (`None` for a request that fails). */
  datatype Call = Call(refresh: bool, at: int, exchange: Option<seq<ExchangeSymbol>>)

  /** What the service holds: the answer its listing was built from, and when it was. */
  datatype Listed = Listed(source: seq<ExchangeSymbol>, at: int)

  /** The call sends a request. */
  predicate Asks(held: Listed, call: Call, ttl: int) {
    call.refresh || Listing(held.source) == [] || call.at - held.at >= ttl
  }

  function Turn(held: Listed, call: Call, ttl: int): Listed {
    if Asks(held, call, ttl) && call.exchange.Some? then Listed(call.exchange.value, call.at) else held
  }

  function Answer(held: Listed, call: Call, ttl: int): Option<seq<Record>> {
    if Asks(held, call, ttl) && call.exchange.None? then None else Some(Listing(Turn(held, call, ttl).source))
  }

  function AfterTurns(held: Listed, calls: seq<Call>, ttl: int): Listed
    decreases calls
  {
    if calls == [] then held else AfterTurns(Turn(held, calls[0], ttl), calls[1..], ttl)
  }

  function Answers(held: Listed, calls: seq<Call>, ttl: int): (answers: seq<Option<seq<Record>>>)
    ensures |answers| == |calls|
    decreases calls
  {
    if calls == [] then []
    else [Answer(held, calls[0], ttl)] + Answers(Turn(held, calls[0], ttl), calls[1..], ttl)
  }

  function Requests(held: Listed, calls: seq<Call>, ttl: int): nat
    decreases calls
  {
    if calls == [] then 0
    else (if Asks(held, calls[0], ttl) then 1 else 0) + Requests(Turn(held, calls[0], ttl), calls[1..], ttl)
  }

  lemma FirstTurn(held: Listed, calls: seq<Call>, ttl: int)
    requires calls != []
    ensures var next := Turn(held, calls[0], ttl);
      && AfterTurns(held, calls, ttl) == AfterTurns(next, calls[1..], ttl)
      && Answers(held, calls, ttl) == [Answer(held, calls[0], ttl)] + Answers(next, calls[1..], ttl)
      && Requests(held, calls, ttl) == (if Asks(held, calls[0], ttl) then 1 else 0) + Requests(next, calls[1..], ttl)
  {
  }

  /** A call under the lock sends a request exactly if it insists, nothing is listed, or the listing has reached the
      time to live; only a failing request leaves it without an answer, and the listing as it was. */
  lemma RequestMeans(held: Listed, call: Call, ttl: int)
    ensures var asks := Requests(held, [call], ttl) == 1;
      && (asks <==> call.refresh || (forall s :: s in held.source ==> !TradesOnSpot(s)) || call.at >= held.at + ttl)
      && (Answers(held, [call], ttl) == [None] <==> asks && call.exchange.None?)
      && AfterTurns(held, [call], ttl) ==
         if asks && call.exchange.Some? then Listed(call.exchange.value, call.at) else held
  {
    FirstTurn(held, [call], ttl);
    assert Answers(held, [call], ttl) == [Answer(held, call, ttl)];
    NothingListed(held.source);
  }

  lemma NothingListed(symbols: seq<ExchangeSymbol>)
    ensures Listing(symbols) == [] <==> forall s :: s in symbols ==> !TradesOnSpot(s)
  {
    NameOrder();
    SortSorts(Tradable(symbols), NameLe);
    NothingTradable(symbols);
  }

  lemma {:induction false} NothingTradable(symbols: seq<ExchangeSymbol>)
    ensures Tradable(symbols) == [] <==> forall s :: s in symbols ==> !TradesOnSpot(s)
  {
    if symbols != [] {
      var n := |symbols| - 1;
      NothingTradable(symbols[..n]);
      SupportedTrades(symbols[n]);
      assert symbols == symbols[..n] + [symbols[n]];
    }
  }

  /** A call that the held listing answers. */
  predicate Young(held: Listed, call: Call, ttl: int) {
    !call.refresh && call.at - held.at < ttl
  }

  lemma YoungListingServes(held: Listed, call: Call, ttl: int)
    requires Listing(held.source) != [] && Young(held, call, ttl)
    ensures !Asks(held, call, ttl) && Turn(held, call, ttl) == held
    ensures Answer(held, call, ttl) == Some(Listing(held.source))
  {
  }

  lemma {:induction false} HeldListingServes(held: Listed, calls: seq<Call>, ttl: int)
    requires Listing(held.source) != [] && forall k :: 0 <= k < |calls| ==> Young(held, calls[k], ttl)
    ensures AfterTurns(held, calls, ttl) == held && Requests(held, calls, ttl) == 0
    ensures forall k :: 0 <= k < |calls| ==> Answers(held, calls, ttl)[k] == Some(Listing(held.source))
    decreases calls
  {
    if calls != [] {
      FirstTurn(held, calls, ttl);
      YoungListingServes(held, calls[0], ttl);
      HeldListingServes(held, calls[1..], ttl);
    }
  }

  /** One request serves everybody who waits: if the first caller in turn gets a listing that is not empty, and
      nobody behind it insists or comes after the time to live, then whatever the exchange would answer them, all
      get that very listing and no second request is sent. */
  lemma OneRequestServesAll(held: Listed, calls: seq<Call>, ttl: int)
    requires calls != [] && Asks(held, calls[0], ttl) && calls[0].exchange.Some?
    requires Listing(calls[0].exchange.value) != []
    requires forall k :: 0 < k < |calls| ==> !calls[k].refresh && calls[k].at - calls[0].at < ttl
    ensures AfterTurns(held, calls, ttl) == Listed(calls[0].exchange.value, calls[0].at)
    ensures Requests(held, calls, ttl) == 1
    ensures forall k :: 0 <= k < |calls| ==> Answers(held, calls, ttl)[k] == Some(Listing(calls[0].exchange.value))
  {
    FirstTurn(held, calls, ttl);
    HeldListingServes(Turn(held, calls[0], ttl), calls[1..], ttl);
  }
}
