/** The snapshot cache of app/market_data/stream_manager.py: a fold over raw payloads, with reads that
    only refresh the stale flag. */
module StreamManager {
  import opened Prelude
  import opened MarketData

  type Cache = map<string, Snapshot>

  /** The snapshot one payload leaves behind, given what the cache held for its symbol. */
  function Merge(current: Snapshot, p: Payload, receivedAt: int): Snapshot
    requires p.Carries()
  {
    match p
    case TradeEvent(t) =>
      current.(symbol := t.symbol, trade := Some(t), lastPrice := Some(t.price),
        eventTime := Some(t.eventTime), receivedAt := Some(receivedAt), isStale := false)
    case BookEvent(b) =>
      current.(symbol := b.symbol, book := Some(b), bid := Some(b.bid), ask := Some(b.ask),
        eventTime := Some(b.eventTime), receivedAt := Some(receivedAt), isStale := false)
    case KlineEvent(c) =>
      current.(symbol := c.symbol, candle := Some(c), lastPrice := Some(c.close),
        eventTime := Some(c.eventTime), receivedAt := Some(receivedAt), isStale := false)
  }

  function Current(cache: Cache, symbol: string): Snapshot {
    if symbol in cache then cache[symbol] else EmptySnapshot(symbol)
  }

  function Ingest(cache: Cache, p: Payload, receivedAt: int): Cache {
    if p.Carries() then cache[p.Symbol() := Merge(Current(cache, p.Symbol()), p, receivedAt)] else cache
  }

  /** Staleness of one snapshot: never received, or received more than `staleAfter` ago. */
  predicate Stale(snapshot: Option<Snapshot>, staleAfter: int, now: int) {
    snapshot.None? || snapshot.value.receivedAt.None? || now - snapshot.value.receivedAt.value > staleAfter
  }

  function Lookup(cache: Cache, symbol: string): Option<Snapshot> {
    if Upper(symbol) in cache then Some(cache[Upper(symbol)]) else None
  }

  function Read(cache: Cache, symbol: string, staleAfter: int, now: int): Cache {
    match Lookup(cache, symbol)
    case None => cache
    case Some(s) => cache[Upper(symbol) := s.(isStale := Stale(Some(s), staleAfter, now))]
  }

  datatype Op = Feed(payload: Payload, receivedAt: int) | Look(symbol: string, now: int)

  function Replay(ops: seq<Op>, staleAfter: int): Cache {
    if ops == [] then map[]
    else
      var before := Replay(ops[..|ops| - 1], staleAfter);
      match ops[|ops| - 1]
      case Feed(p, at) => Ingest(before, p, at)
      case Look(symbol, now) => Read(before, symbol, staleAfter, now)
  }

  // ----- what a snapshot must hold, said without the cache -----

  datatype Kind = AnyEvent | TradeOnly | BookOnly | KlineOnly | Priced

  /** Whether an operation feeds an event of the given kind for exactly this symbol. */
  predicate About(op: Op, kind: Kind, symbol: string) {
    && op.Feed? && op.payload.Carries() && op.payload.Symbol() == symbol
    && match kind
       case AnyEvent => true
       case TradeOnly => op.payload.TradeEvent?
       case BookOnly => op.payload.BookEvent?
       case KlineOnly => op.payload.KlineEvent?
       case Priced => !op.payload.BookEvent?
  }

  /** Position of the last operation about `symbol` of this kind, or None. */
  function LastIndex(ops: seq<Op>, kind: Kind, symbol: string): (r: Option<nat>)
    ensures r.None? ==> forall i :: 0 <= i < |ops| ==> !About(ops[i], kind, symbol)
    ensures r.Some? ==> r.value < |ops| && About(ops[r.value], kind, symbol)
    ensures r.Some? ==> forall i :: r.value < i < |ops| ==> !About(ops[i], kind, symbol)
  {
    if ops == [] then None
    else if About(ops[|ops| - 1], kind, symbol) then Some(|ops| - 1)
    else LastIndex(ops[..|ops| - 1], kind, symbol)
  }

  function LastTrade(ops: seq<Op>, symbol: string): Option<Trade> {
    var i := LastIndex(ops, TradeOnly, symbol);
    if i.None? then None else Some(ops[i.value].payload.trade)
  }

  function LastBook(ops: seq<Op>, symbol: string): Option<Book> {
    var i := LastIndex(ops, BookOnly, symbol);
    if i.None? then None else Some(ops[i.value].payload.book)
  }

  function LastKline(ops: seq<Op>, symbol: string): Option<Candle> {
    var i := LastIndex(ops, KlineOnly, symbol);
    if i.None? then None else Some(ops[i.value].payload.kline)
  }

  function PriceOf(p: Payload): real
    requires p.TradeEvent? || p.KlineEvent?
  {
    if p.TradeEvent? then p.trade.price else p.kline.close
  }

  function LastPrice(ops: seq<Op>, symbol: string): Option<real> {
    var i := LastIndex(ops, Priced, symbol);
    if i.None? then None else Some(PriceOf(ops[i.value].payload))
  }

  function LastFeed(ops: seq<Op>, symbol: string): Option<nat> {
    LastIndex(ops, AnyEvent, symbol)
  }

  /** The snapshot a symbol must have after `ops`, up to its stale flag. */
  function Expected(ops: seq<Op>, symbol: string): Snapshot
    requires LastFeed(ops, symbol).Some?
  {
    var last := ops[LastFeed(ops, symbol).value];
    var book := LastBook(ops, symbol);
    Snapshot(symbol, LastTrade(ops, symbol), book, LastKline(ops, symbol), LastPrice(ops, symbol),
      if book.None? then None else Some(book.value.bid),
      if book.None? then None else Some(book.value.ask),
      Some(last.payload.EventTime()), Some(last.receivedAt), false)
  }

  /** One more operation either is the new latest of its kind or leaves the latest as it was. */
  lemma LastIndexStep(ops: seq<Op>, kind: Kind, symbol: string)
    requires ops != []
    ensures About(ops[|ops| - 1], kind, symbol) ==> LastIndex(ops, kind, symbol) == Some(|ops| - 1)
    ensures !About(ops[|ops| - 1], kind, symbol) ==>
      LastIndex(ops, kind, symbol) == LastIndex(ops[..|ops| - 1], kind, symbol)
  {
  }

  /** The expected snapshot merges an event of its symbol ... */
  lemma ExpectedMerges(ops: seq<Op>, symbol: string)
    requires ops != [] && About(ops[|ops| - 1], AnyEvent, symbol)
    ensures var before, op := ops[..|ops| - 1], ops[|ops| - 1];
      var current := if LastFeed(before, symbol).Some? then Expected(before, symbol) else EmptySnapshot(symbol);
      LastFeed(ops, symbol).Some? && Expected(ops, symbol) == Merge(current, op.payload, op.receivedAt)
  {
    LastIndexStep(ops, AnyEvent, symbol);
    LastIndexStep(ops, TradeOnly, symbol);
    LastIndexStep(ops, BookOnly, symbol);
    LastIndexStep(ops, KlineOnly, symbol);
    LastIndexStep(ops, Priced, symbol);
  }

  /** ... and stays as it is under every other operation. */
  lemma ExpectedStays(ops: seq<Op>, symbol: string)
    requires ops != [] && !About(ops[|ops| - 1], AnyEvent, symbol)
    ensures LastFeed(ops, symbol).Some? <==> LastFeed(ops[..|ops| - 1], symbol).Some?
    ensures LastFeed(ops, symbol).Some? ==> Expected(ops, symbol) == Expected(ops[..|ops| - 1], symbol)
  {
    LastIndexStep(ops, AnyEvent, symbol);
    LastIndexStep(ops, TradeOnly, symbol);
    LastIndexStep(ops, BookOnly, symbol);
    LastIndexStep(ops, KlineOnly, symbol);
    LastIndexStep(ops, Priced, symbol);
  }

  /** The cache holds what the operations call for. */
  predicate AsExpected(cache: Cache, ops: seq<Op>, symbol: string) {
    && (symbol in cache <==> LastFeed(ops, symbol).Some?)
    && (symbol in cache ==> cache[symbol].(isStale := false) == Expected(ops, symbol))
  }

  lemma FeedAsExpected(cache: Cache, ops: seq<Op>, symbol: string)
    requires ops != [] && ops[|ops| - 1].Feed? && AsExpected(cache, ops[..|ops| - 1], symbol)
    ensures var op := ops[|ops| - 1]; AsExpected(Ingest(cache, op.payload, op.receivedAt), ops, symbol)
  {
    var op := ops[|ops| - 1];
    if About(op, AnyEvent, symbol) {
      ExpectedMerges(ops, symbol);
      MergeIgnoresStaleness(Current(cache, symbol), op.payload, op.receivedAt);
    } else {
      ExpectedStays(ops, symbol);
    }
  }

  lemma LookAsExpected(cache: Cache, ops: seq<Op>, staleAfter: int, symbol: string)
    requires ops != [] && ops[|ops| - 1].Look? && AsExpected(cache, ops[..|ops| - 1], symbol)
    ensures var op := ops[|ops| - 1]; AsExpected(Read(cache, op.symbol, staleAfter, op.now), ops, symbol)
  {
    ExpectedStays(ops, symbol);
  }

  /** A symbol's snapshot holds that symbol's own latest trade, book and candle, the price of its most
      recent trade or candle, and the times of its most recent event, whatever else was fed or read. */
  lemma {:induction false} ReplayIsLatestPerSymbol(ops: seq<Op>, staleAfter: int, symbol: string)
    ensures symbol in Replay(ops, staleAfter) <==> LastFeed(ops, symbol).Some?
    ensures symbol in Replay(ops, staleAfter)
      ==> Replay(ops, staleAfter)[symbol].(isStale := false) == Expected(ops, symbol)
  {
    if ops != [] {
      var prefix := ops[..|ops| - 1];
      ReplayIsLatestPerSymbol(prefix, staleAfter, symbol);
      if ops[|ops| - 1].Feed? {
        FeedAsExpected(Replay(prefix, staleAfter), ops, symbol);
      } else {
        LookAsExpected(Replay(prefix, staleAfter), ops, staleAfter, symbol);
      }
    }
  }

  lemma MergeIgnoresStaleness(current: Snapshot, p: Payload, receivedAt: int)
    requires p.Carries()
    ensures Merge(current, p, receivedAt) == Merge(current.(isStale := false), p, receivedAt)
    ensures !Merge(current, p, receivedAt).isStale
  {
  }

  /** The candle a snapshot carries is always one of the snapshot's own symbol. */
  lemma CarriedCandleIsOwn(ops: seq<Op>, staleAfter: int, symbol: string)
    requires symbol in Replay(ops, staleAfter)
    ensures Replay(ops, staleAfter)[symbol].candle.Some?
      ==> Replay(ops, staleAfter)[symbol].candle.value.symbol == symbol
  {
    ReplayIsLatestPerSymbol(ops, staleAfter, symbol);
  }

  /** Erasing the stale flags, reads leave no trace on the cache. */
  function Feeds(ops: seq<Op>): seq<Op> {
    if ops == [] then []
    else Feeds(ops[..|ops| - 1]) + (if ops[|ops| - 1].Feed? then [ops[|ops| - 1]] else [])
  }

  ghost predicate SameButStale(a: Cache, b: Cache) {
    a.Keys == b.Keys && forall s :: s in a ==> a[s].(isStale := false) == b[s].(isStale := false)
  }

  lemma {:induction false} ReadsChangeOnlyStaleness(ops: seq<Op>, staleAfter: int)
    ensures SameButStale(Replay(ops, staleAfter), Replay(Feeds(ops), staleAfter))
  {
    if ops != [] {
      var prefix := ops[..|ops| - 1];
      ReadsChangeOnlyStaleness(prefix, staleAfter);
      if ops[|ops| - 1].Feed? {
        assert Feeds(ops)[..|Feeds(ops)| - 1] == Feeds(prefix);
      } else {
        assert Feeds(ops) == Feeds(prefix);
      }
    }
  }

  /** Without new events a stale snapshot never becomes fresh again: looking any number of times,
      later looks can only report more staleness. */
  lemma {:induction false} StalenessIsMonotone(cache: Cache, looks: seq<Op>, symbol: string, staleAfter: int, t0: int, t1: int)
    requires forall i :: 0 <= i < |looks| ==> looks[i].Look?
    requires t0 <= t1
    requires Stale(Lookup(cache, symbol), staleAfter, t0)
    ensures Stale(Lookup(ReadAll(cache, looks, staleAfter), symbol), staleAfter, t1)
    ensures Lookup(cache, symbol).Some? <==> Lookup(ReadAll(cache, looks, staleAfter), symbol).Some?
    ensures Lookup(cache, symbol).Some? ==>
      Lookup(ReadAll(cache, looks, staleAfter), symbol).value.receivedAt == Lookup(cache, symbol).value.receivedAt
  {
    if looks != [] {
      StalenessIsMonotone(cache, looks[..|looks| - 1], symbol, staleAfter, t0, t1);
    }
  }

  /** When a symbol is stale after any operations: never fed under its upper-case name, or last fed more than the
      limit ago, whatever was read in between. */
  lemma StaleIsExact(ops: seq<Op>, staleAfter: int, symbol: string, now: int)
    ensures var last := LastFeed(ops, Upper(symbol));
      Stale(Lookup(Replay(ops, staleAfter), symbol), staleAfter, now) <==>
        last.None? || now > ops[last.value].receivedAt + staleAfter
  {
    ReplayIsLatestPerSymbol(ops, staleAfter, Upper(symbol));
  }

  function ReadAll(cache: Cache, looks: seq<Op>, staleAfter: int): Cache
    requires forall i :: 0 <= i < |looks| ==> looks[i].Look?
  {
    if looks == [] then cache
    else
      var last := looks[|looks| - 1];
      Read(ReadAll(cache, looks[..|looks| - 1], staleAfter), last.symbol, staleAfter, last.now)
  }

  ghost predicate KeyedByOwnSymbol(cache: Cache) {
    forall k :: k in cache ==> cache[k].symbol == k
  }

  /** Lookups upper-case the requested name while the cache is keyed by the payload's own spelling. So what a
      payload just left in the cache is what a lookup under its symbol finds, exactly when that symbol is
      upper-case. */
  lemma ReadBackNeedsUpperCase(cache: Cache, p: Payload, receivedAt: int)
    requires KeyedByOwnSymbol(cache) && p.Carries()
    ensures Lookup(Ingest(cache, p, receivedAt), p.Symbol()) == Some(Merge(Current(cache, p.Symbol()), p, receivedAt))
            <==> Upper(p.Symbol()) == p.Symbol()
    ensures KeyedByOwnSymbol(Ingest(cache, p, receivedAt))
  {
    assert Merge(Current(cache, p.Symbol()), p, receivedAt).symbol == p.Symbol();
  }

  datatype Normalized = Merged(snapshot: Snapshot) | Skipped | Raised

  class Manager {
    var snapshots: Cache
    const staleAfter: int
    ghost var log: seq<Op>

    ghost predicate Valid()
      reads this
    {
      snapshots == Replay(log, staleAfter)
    }

    constructor (staleAfter: int)
      ensures Valid() && log == [] && snapshots == map[] && this.staleAfter == staleAfter
    {
      this.staleAfter := staleAfter;
      snapshots := map[];
      log := [];
    }

    method MergeSnapshot(symbol: string, trade: Option<Trade>, book: Option<Book>, candle: Option<Candle>,
                         eventTime: int, receivedAt: int)
      returns (snapshot: Snapshot)
      requires (trade.Some? && book.None? && candle.None?) || (trade.None? && book.Some? && candle.None?)
        || (trade.None? && book.None? && candle.Some?)
      modifies this`snapshots
      ensures snapshots == old(snapshots)[symbol := snapshot]
      ensures trade.Some? && trade.value.symbol == symbol && trade.value.eventTime == eventTime
        ==> snapshot == Merge(Current(old(snapshots), symbol), TradeEvent(trade.value), receivedAt)
      ensures book.Some? && book.value.symbol == symbol && book.value.eventTime == eventTime
        ==> snapshot == Merge(Current(old(snapshots), symbol), BookEvent(book.value), receivedAt)
      ensures candle.Some? && candle.value.symbol == symbol && candle.value.eventTime == eventTime
        ==> snapshot == Merge(Current(old(snapshots), symbol), KlineEvent(candle.value), receivedAt)
    {
      var current := if symbol in snapshots then snapshots[symbol] else EmptySnapshot(symbol);
      var lastPrice := current.lastPrice;
      if trade.Some? {
        lastPrice := Some(trade.value.price);
      } else if candle.Some? {
        lastPrice := Some(candle.value.close);
      }
      snapshot := Snapshot(
        symbol,
        if trade.Some? then trade else current.trade,
        if book.Some? then book else current.book,
        if candle.Some? then candle else current.candle,
        lastPrice,
        if book.Some? then Some(book.value.bid) else current.bid,
        if book.Some? then Some(book.value.ask) else current.ask,
        Some(eventTime), Some(receivedAt), false);
      snapshots := snapshots[symbol := snapshot];
    }

    method NormalizePayload(p: Payload, receivedAt: int) returns (r: Normalized)
      requires Valid()
      modifies this
      ensures Valid() && log == old(log) + [Feed(p, receivedAt)]
      ensures snapshots == Ingest(old(snapshots), p, receivedAt)
      ensures r == (if p.Carries() then Merged(snapshots[p.Symbol()]) else if p.Unsupported? then Skipped else Raised)
    {
      match p {
        case TradeEvent(t) =>
          var s := MergeSnapshot(t.symbol, Some(t), None, None, t.eventTime, receivedAt);
          r := Merged(s);
        case BookEvent(b) =>
          var s := MergeSnapshot(b.symbol, None, Some(b), None, b.eventTime, receivedAt);
          r := Merged(s);
        case KlineEvent(c) =>
          var s := MergeSnapshot(c.symbol, None, None, Some(c), c.eventTime, receivedAt);
          r := Merged(s);
        case Unsupported =>
          r := Skipped;
        case Malformed =>
          r := Raised;
      }
      log := log + [Feed(p, receivedAt)];
      assert log[..|log| - 1] == old(log);
    }

    method IsStale(symbol: string, now: int) returns (stale: bool)
      ensures stale == Stale(Lookup(snapshots, symbol), staleAfter, now)
    {
      if Upper(symbol) !in snapshots || snapshots[Upper(symbol)].receivedAt.None? {
        return true;
      }
      return now - snapshots[Upper(symbol)].receivedAt.value > staleAfter;
    }

    method GetSnapshot(symbol: string, now: int) returns (r: Option<Snapshot>)
      requires Valid()
      modifies this
      ensures Valid() && log == old(log) + [Look(symbol, now)]
      ensures snapshots == Read(old(snapshots), symbol, staleAfter, now)
      ensures r == Lookup(snapshots, symbol)
    {
      ghost var before := snapshots;
      if Upper(symbol) !in snapshots {
        r := None;
      } else {
        var snapshot := snapshots[Upper(symbol)];
        var stale := IsStale(symbol, now);
        if snapshot.isStale == stale {
          r := Some(snapshot);
          assert snapshot.(isStale := stale) == snapshot;
        } else {
          var updated := snapshot.(isStale := stale);
          snapshots := snapshots[Upper(symbol) := updated];
          r := Some(updated);
        }
      }
      assert snapshots == Read(before, symbol, staleAfter, now);
      log := log + [Look(symbol, now)];
      assert log[..|log| - 1] == old(log);
    }
  }
}
