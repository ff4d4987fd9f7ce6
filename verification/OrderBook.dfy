/** The order-book replica of `services/market_ingestion/order_book_sync.py`, the level parser of
    `contracts.py` and the gap oracle of `gap_detection.py`. */
module OrderBook {
  import opened Basics
  import opened StableSort

  datatype Level = Level(price: real, amount: real)

  datatype BookSnapshot = BookSnapshot(
    exchange: string, symbol: string, sequence: Option<int>, bids: seq<Level>, asks: seq<Level>)

  datatype Delta = Delta(
    exchange: string, symbol: string, start: Option<int>, end: Option<int>, bids: seq<Level>, asks: seq<Level>)

  datatype SyncError = NotInitialized | ScopeMismatch | SequenceGap(expected: int, received: int)

  type Side = map<real, real>

  datatype Replica = Replica(sequence: Option<int>, bids: Side, asks: Side, initialized: bool)

  // One side of the book

  function Updated(book: Side, level: Level): Side {
    if level.amount <= 0.0 then book - {level.price} else book[level.price := level.amount]
  }

  // Absolute updates, in order: a positive amount replaces the level, any other removes it.
  function UpdateAll(book: Side, levels: seq<Level>): Side {
    if levels == [] then book else Updated(UpdateAll(book, levels[..|levels| - 1]), levels[|levels| - 1])
  }

  // The levels of a snapshot; those without a positive amount are skipped.
  function LoadAll(levels: seq<Level>): Side {
    if levels == [] then map[]
    else
      var (rest, last) := (LoadAll(levels[..|levels| - 1]), levels[|levels| - 1]);
      if last.amount > 0.0 then rest[last.price := last.amount] else rest
  }

  function Lookup(book: Side, price: real): Option<real> {
    if price in book then Some(book[price]) else None
  }

  lemma SameBook(a: Side, b: Side)
    requires forall p :: Lookup(a, p) == Lookup(b, p)
    ensures a == b
  {
    forall p: real ensures p in a <==> p in b {
      assert Lookup(a, p) == Lookup(b, p);
    }
    forall p: real | p in a ensures a[p] == b[p] {
      assert Lookup(a, p) == Lookup(b, p);
    }
  }

  // The replica

  predicate InScope(exchange: string, symbol: string, d: Delta) {
    d.exchange == exchange && d.symbol == symbol
  }

  // What a delta does to an initialized replica; an error leaves the replica as it was.
  function Applied(r: Replica, exchange: string, symbol: string, d: Delta): (Replica, Result<bool, SyncError>) {
    if !r.initialized then (r, Err(NotInitialized))
    else if !InScope(exchange, symbol, d) then (r, Err(ScopeMismatch))
    else
      var updated := r.(bids := UpdateAll(r.bids, d.bids), asks := UpdateAll(r.asks, d.asks));
      if r.sequence.Some? && d.start.Some? && d.end.Some? then
        var expected := r.sequence.value + 1;
        if d.end.value < expected then (r, Ok(false))
        else if d.start.value > expected then (r, Err(SequenceGap(expected, d.start.value)))
        else (updated.(sequence := d.end), Ok(true))
      else if d.end.Some? then (updated.(sequence := d.end), Ok(true))
      else (updated, Ok(true))
  }

  class SyncEngine {
    const exchange: string
    const symbol: string
    var sequence: Option<int>
    var bids: Side
    var asks: Side
    var initialized: bool

    function View(): Replica
      reads this
    {
      Replica(sequence, bids, asks, initialized)
    }

    constructor (exchange: string, symbol: string)
      ensures this.exchange == exchange && this.symbol == symbol
      ensures View() == Replica(None, map[], map[], false)
    {
      this.exchange, this.symbol := exchange, symbol;
      sequence, bids, asks, initialized := None, map[], map[], false;
    }

    method LoadSnapshot(s: BookSnapshot) returns (error: Option<SyncError>)
      modifies this
      ensures error.None? <==> s.exchange == exchange && s.symbol == symbol
      ensures error.None? ==> View() == Replica(s.sequence, LoadAll(s.bids), LoadAll(s.asks), true)
      ensures error.Some? ==> error == Some(ScopeMismatch) && View() == old(View())
    {
      if s.exchange != exchange || s.symbol != symbol {
        return Some(ScopeMismatch);
      }
      bids := LoadLevels(s.bids);
      asks := LoadLevels(s.asks);
      sequence := s.sequence;
      initialized := true;
      return None;
    }

    method ApplyDelta(d: Delta) returns (result: Result<bool, SyncError>)
      modifies this
      ensures (View(), result) == Applied(old(View()), exchange, symbol, d)
    {
      if !initialized {
        return Err(NotInitialized);
      }
      if d.exchange != exchange || d.symbol != symbol {
        return Err(ScopeMismatch);
      }
      if sequence.Some? && d.start.Some? && d.end.Some? {
        var expected := sequence.value + 1;
        if d.end.value < expected {
          return Ok(false);
        }
        if d.start.value > expected {
          return Err(SequenceGap(expected, d.start.value));
        }
        sequence := d.end;
      } else if d.end.Some? {
        sequence := d.end;
      }
      bids := ApplySideUpdates(bids, d.bids);
      asks := ApplySideUpdates(asks, d.asks);
      return Ok(true);
    }

    static method LoadLevels(levels: seq<Level>) returns (side: Side)
      ensures side == LoadAll(levels)
    {
      side := map[];
      for i := 0 to |levels|
        invariant side == LoadAll(levels[..i])
      {
        assert levels[..i + 1][..i] == levels[..i];
        if levels[i].amount > 0.0 {
          side := side[levels[i].price := levels[i].amount];
        }
      }
      assert levels[..|levels|] == levels;
    }

    static method ApplySideUpdates(book: Side, updates: seq<Level>) returns (side: Side)
      ensures side == UpdateAll(book, updates)
    {
      side := book;
      for i := 0 to |updates|
        invariant side == UpdateAll(book, updates[..i])
      {
        assert updates[..i + 1][..i] == updates[..i];
        if updates[i].amount <= 0.0 {
          side := side - {updates[i].price};
        } else {
          side := side[updates[i].price := updates[i].amount];
        }
      }
      assert updates[..|updates|] == updates;
    }

    // The best `depth` levels of one side, best first; a negative depth drops that many of the worst.
    static method MaterializeSide(book: Side, highestFirst: bool, depth: int) returns (levels: seq<Level>)
      ensures |levels| == SliceLength(|book|, depth)
      ensures Ranked(book, levels, book.Keys - Prices(levels), highestFirst)
    {
      levels := [];
      var rest := book.Keys;
      while |levels| < SliceLength(|book|, depth)
        invariant |levels| <= SliceLength(|book|, depth)
        invariant |levels| + |rest| == |book|
        invariant rest == book.Keys - Prices(levels)
        invariant Ranked(book, levels, rest, highestFirst)
      {
        BestExists(rest, highestFirst);
        var best :| best in rest && forall p :: p in rest && p != best ==> Better(best, p, highestFirst);
        RankedOneMore(book, levels, rest, highestFirst, best);
        levels := levels + [Level(best, book[best])];
        rest := rest - {best};
      }
    }
  }

  function Prices(levels: seq<Level>): set<real> {
    set l | l in levels :: l.price
  }

  // Levels of the book, each strictly better than the next and than every price in `rest`.
  ghost predicate Ranked(book: Side, levels: seq<Level>, rest: set<real>, highestFirst: bool) {
    && (forall i :: 0 <= i < |levels| ==> Lookup(book, levels[i].price) == Some(levels[i].amount))
    && (forall i, j :: 0 <= i < j < |levels| ==> Better(levels[i].price, levels[j].price, highestFirst))
    && (forall i, p :: 0 <= i < |levels| && p in rest ==> Better(levels[i].price, p, highestFirst))
  }

  lemma RankedOneMore(book: Side, levels: seq<Level>, rest: set<real>, highestFirst: bool, best: real)
    requires Ranked(book, levels, rest, highestFirst) && best in rest && rest == book.Keys - Prices(levels)
    requires forall p :: p in rest && p != best ==> Better(best, p, highestFirst)
    ensures
      var more := levels + [Level(best, book[best])];
      && Ranked(book, more, rest - {best}, highestFirst)
      && rest - {best} == book.Keys - Prices(more)
  {
    var level := Level(best, book[best]);
    assert Prices(levels + [level]) == Prices(levels) + {best} by {
      assert forall l :: l in levels + [level] <==> l in levels || l == level;
      assert level in levels + [level];
    }
  }

  predicate Better(p: real, q: real, highestFirst: bool) {
    if highestFirst then p > q else p < q
  }

  // The length of `xs[:depth]` for a sequence of length `n`.
  function SliceLength(n: nat, depth: int): nat {
    if depth >= 0 then (if depth <= n then depth else n) else if n + depth >= 0 then n + depth else 0
  }

  lemma {:induction false} BestExists(prices: set<real>, highestFirst: bool)
    requires prices != {}
    ensures exists best :: best in prices && forall p :: p in prices && p != best ==> Better(best, p, highestFirst)
    decreases |prices|
  {
    var one := AnyMember(prices);
    var others := prices - {one};
    assert prices == {one} + others;
    if others != {} {
      BestExists(others, highestFirst);
      var best :| best in others && forall p :: p in others && p != best ==> Better(best, p, highestFirst);
      var winner := if Better(best, one, highestFirst) then best else one;
      assert winner in prices && forall p :: p in prices && p != winner ==> Better(winner, p, highestFirst);
    }
  }

  // A full-depth materialization of a book with positive amounts loads back into the same book.
  lemma {:induction false} ListingLoadsBack(book: Side, levels: seq<Level>, highestFirst: bool)
    requires AllPositive(book) && Ranked(book, levels, {}, highestFirst) && |levels| == |book|
    ensures LoadAll(levels) == book
    decreases |levels|
  {
    if levels != [] {
      var (rest, last) := (levels[..|levels| - 1], levels[|levels| - 1]);
      var smaller := book - {last.price};
      assert Lookup(book, last.price) == Some(last.amount);
      assert smaller.Keys == book.Keys - {last.price};
      forall i | 0 <= i < |rest| ensures Lookup(smaller, rest[i].price) == Some(rest[i].amount) {
        assert Lookup(book, levels[i].price) == Some(levels[i].amount);
      }
      ListingLoadsBack(smaller, rest, highestFirst);
      assert book == smaller[last.price := last.amount];
    }
  }

  // Amounts

  predicate AllPositive(book: Side) {
    forall p :: p in book ==> book[p] > 0.0
  }

  lemma {:induction false} UpdatesKeepPositive(book: Side, levels: seq<Level>)
    requires AllPositive(book)
    ensures AllPositive(UpdateAll(book, levels))
    ensures AllPositive(LoadAll(levels))
  {
    if levels != [] {
      UpdatesKeepPositive(book, levels[..|levels| - 1]);
    }
  }

  // Whatever arrives next, every stored amount stays positive.
  lemma DeltasKeepPositive(r: Replica, exchange: string, symbol: string, d: Delta)
    requires AllPositive(r.bids) && AllPositive(r.asks)
    ensures
      var next := Applied(r, exchange, symbol, d).0;
      AllPositive(next.bids) && AllPositive(next.asks)
  {
    UpdatesKeepPositive(r.bids, d.bids);
    UpdatesKeepPositive(r.asks, d.asks);
  }

  // The net effect of a list of absolute updates

  // The amount a list of updates leaves at a price, if it touches it.
  function LastAmount(levels: seq<Level>, price: real): Option<real> {
    if levels == [] then None
    else if levels[|levels| - 1].price == price then Some(levels[|levels| - 1].amount)
    else LastAmount(levels[..|levels| - 1], price)
  }

  lemma {:induction false} UpdateAllEffect(book: Side, levels: seq<Level>, price: real)
    ensures Lookup(UpdateAll(book, levels), price) ==
      match LastAmount(levels, price)
      case None => Lookup(book, price)
      case Some(amount) => if amount > 0.0 then Some(amount) else None
  {
    if levels != [] {
      UpdateAllEffect(book, levels[..|levels| - 1], price);
    }
  }

  lemma {:induction false} LastAmountConcat(a: seq<Level>, b: seq<Level>, price: real)
    ensures LastAmount(a + b, price) ==
      if LastAmount(b, price).Some? then LastAmount(b, price) else LastAmount(a, price)
  {
    if b == [] {
      assert a + b == a;
    } else {
      LastAmountConcat(a, b[..|b| - 1], price);
      assert (a + b)[..|a + b| - 1] == a + b[..|b| - 1];
    }
  }

  // Level parsing

  // Raw rows of numbers; rows shorter than two are dropped.
  predicate KeptRow(row: seq<real>, allowZero: bool) {
    |row| >= 2 && (row[1] > 0.0 || (row[1] == 0.0 && allowZero))
  }

  function KeptLevels(rows: seq<seq<real>>, allowZero: bool): seq<Level> {
    if rows == [] then []
    else
      var (rest, row) := (KeptLevels(rows[..|rows| - 1], allowZero), rows[|rows| - 1]);
      if KeptRow(row, allowZero) then rest + [Level(row[0], row[1])] else rest
  }

  function PriceKey(bid: bool): Level -> real {
    (l: Level) => if bid then -l.price else l.price
  }

  // Kept rows, best price first, and rows of one price in their given order, so that the parsed
  // list has the same net effect as the kept rows.
  method ParseLevels(rows: seq<seq<real>>, bid: bool, allowZero: bool) returns (levels: seq<Level>)
    ensures Ascending(levels, PriceKey(bid))
    ensures multiset(levels) == multiset(KeptLevels(rows, allowZero))
    ensures forall p :: LastAmount(levels, p) == LastAmount(KeptLevels(rows, allowZero), p)
  {
    levels := [];
    for i := 0 to |rows|
      invariant levels == KeptLevels(rows[..i], allowZero)
    {
      assert rows[..i + 1][..i] == rows[..i];
      if |rows[i]| < 2 || rows[i][1] < 0.0 || (rows[i][1] == 0.0 && !allowZero) {
        continue;
      }
      levels := levels + [Level(rows[i][0], rows[i][1])];
    }
    assert rows[..|rows|] == rows;
    ghost var kept := levels;
    levels := SortBy(levels, PriceKey(bid));
    SortByIsSort(kept, PriceKey(bid), 0.0);
    forall p ensures LastAmount(levels, p) == LastAmount(kept, p) {
      SortKeepsLastAmount(kept, bid, p);
    }
  }

  lemma {:induction false} LastAmountWithKey(levels: seq<Level>, bid: bool, p: real)
    ensures
      var same := WithKey(levels, PriceKey(bid), if bid then -p else p);
      LastAmount(levels, p) == if same == [] then None else Some(same[|same| - 1].amount)
  {
    if levels != [] {
      LastAmountWithKey(levels[..|levels| - 1], bid, p);
    }
  }

  lemma SortKeepsLastAmount(levels: seq<Level>, bid: bool, p: real)
    ensures LastAmount(SortBy(levels, PriceKey(bid)), p) == LastAmount(levels, p)
  {
    hide SortBy, WithKey, Ascending, LastAmount;
    SortByIsSort(levels, PriceKey(bid), if bid then -p else p);
    LastAmountWithKey(levels, bid, p);
    LastAmountWithKey(SortBy(levels, PriceKey(bid)), bid, p);
  }

  // The gap oracle

  datatype GapAction = Accept | IgnoreStale | Resync

  datatype GapResult = GapResult(
    hasGap: bool, expected: Option<int>, receivedStart: Option<int>, receivedEnd: Option<int>,
    gapSize: int, action: GapAction)

  function EvaluateGap(current: Option<int>, start: Option<int>, end: Option<int>): GapResult {
    if current.None? || start.None? || end.None? then GapResult(false, None, start, end, 0, Accept)
    else
      var expected := current.value + 1;
      if end.value < expected then GapResult(false, Some(expected), start, end, 0, IgnoreStale)
      else if start.value > expected then GapResult(true, Some(expected), start, end, start.value - expected, Resync)
      else GapResult(false, Some(expected), start, end, 0, Accept)
  }

  // The replica acts on a delta exactly as the oracle rules: accepted deltas are applied, stale
  // ones are skipped unchanged, and a gap of positive size is an error that names it.
  lemma OracleAgreesWithReplica(r: Replica, exchange: string, symbol: string, d: Delta)
    requires r.initialized && InScope(exchange, symbol, d)
    ensures
      var (next, result) := Applied(r, exchange, symbol, d);
      var verdict := EvaluateGap(r.sequence, d.start, d.end);
      && (verdict.action.Accept? <==> result == Ok(true))
      && (verdict.action.IgnoreStale? <==> result == Ok(false))
      && (verdict.action.Resync? <==> result.Err?)
      && (!verdict.action.Accept? ==> next == r)
      && (verdict.hasGap <==> result.Err?)
      && (verdict.hasGap ==> verdict.gapSize > 0)
      && (verdict.hasGap ==>
            result == Err(SequenceGap(verdict.expected.value, verdict.expected.value + verdict.gapSize)))
  {
  }
}
