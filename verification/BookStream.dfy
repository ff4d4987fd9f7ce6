/** Convergence of the order-book replica: fed any deltas of an absolute-update stream, it always
    holds the stream's book at its own sequence number. */
module BookStream {
  import opened Basics
  import opened OrderBook

  // The updates one sequence number stands for.
  datatype Update = Update(bids: seq<Level>, asks: seq<Level>)

  // A venue's stream: update i (counted from 1) carries sequence number base + i.
  datatype Stream = Stream(exchange: string, symbol: string, base: int, updates: seq<Update>)

  function SideOf(u: Update, bids: bool): seq<Level> {
    if bids then u.bids else u.asks
  }

  // All levels of one side, in order.
  function Levels(updates: seq<Update>, bids: bool): seq<Level> {
    if updates == [] then [] else Levels(updates[..|updates| - 1], bids) + SideOf(updates[|updates| - 1], bids)
  }

  // One side of the book after the first k updates.
  function BookAt(s: Stream, k: nat, bids: bool): Side
    requires k <= |s.updates|
  {
    UpdateAll(map[], Levels(s.updates[..k], bids))
  }

  // Two lists of updates that leave the same amount at every price.
  ghost predicate SameEffect(a: seq<Level>, b: seq<Level>) {
    forall p :: LastAmount(a, p) == LastAmount(b, p)
  }

  // The delta carries updates a..b of the stream, possibly sorted or merged per price.
  ghost predicate Covers(s: Stream, d: Delta, a: int, b: int) {
    && 1 <= a <= b <= |s.updates|
    && InScope(s.exchange, s.symbol, d)
    && d.start == Some(s.base + a) && d.end == Some(s.base + b)
    && SameEffect(d.bids, Levels(s.updates[a - 1..b], true))
    && SameEffect(d.asks, Levels(s.updates[a - 1..b], false))
  }

  ghost predicate OfStream(s: Stream, d: Delta) {
    exists a, b :: Covers(s, d, a, b)
  }

  // The replica holds the stream's book at sequence number base + k.
  predicate Holds(s: Stream, r: Replica, k: nat) {
    k <= |s.updates| && r == Replica(Some(s.base + k), BookAt(s, k, true), BookAt(s, k, false), true)
  }

  lemma {:induction false} LevelsConcat(x: seq<Update>, y: seq<Update>, bids: bool)
    ensures Levels(x + y, bids) == Levels(x, bids) + Levels(y, bids)
  {
    if y == [] {
      assert x + y == x;
    } else {
      var (rest, last) := (y[..|y| - 1], SideOf(y[|y| - 1], bids));
      LevelsConcat(x, rest, bids);
      assert (x + y)[..|x + y| - 1] == x + rest;
      assert (Levels(x, bids) + Levels(rest, bids)) + last == Levels(x, bids) + (Levels(rest, bids) + last);
    }
  }

  // Replaying levels that overlap what a side already contains: with `early + middle` applied,
  // applying anything of the effect of `middle + late` gives `early + middle + late`.
  lemma OverlapIsHarmless(early: seq<Level>, middle: seq<Level>, late: seq<Level>, again: seq<Level>)
    requires SameEffect(again, middle + late)
    ensures UpdateAll(UpdateAll(map[], early + middle), again) == UpdateAll(map[], early + middle + late)
  {
    hide UpdateAll, LastAmount;
    var (held, goal) := (UpdateAll(map[], early + middle), UpdateAll(map[], early + middle + late));
    forall p ensures Lookup(UpdateAll(held, again), p) == Lookup(goal, p) {
      UpdateAllEffect(held, again, p);
      UpdateAllEffect(map[], early + middle, p);
      UpdateAllEffect(map[], early + middle + late, p);
      LastAmountConcat(early, middle, p);
      LastAmountConcat(middle, late, p);
      LastAmountConcat(early + middle, late, p);
      assert LastAmount(again, p) == LastAmount(middle + late, p);
    }
    SameBook(UpdateAll(held, again), goal);
  }

  // Applying the levels of updates a..b to the book at any k between a - 1 and b gives the book at b.
  lemma OverlappingUpdates(s: Stream, levels: seq<Level>, a: int, b: int, k: nat, bids: bool)
    requires 1 <= a <= k + 1 <= b <= |s.updates| && SameEffect(levels, Levels(s.updates[a - 1..b], bids))
    ensures UpdateAll(BookAt(s, k, bids), levels) == BookAt(s, b, bids)
  {
    hide UpdateAll, SameEffect;
    var (early, middle, late) := (s.updates[..a - 1], s.updates[a - 1..k], s.updates[k..b]);
    assert s.updates[..k] == early + middle;
    assert s.updates[..b] == early + middle + late;
    assert s.updates[a - 1..b] == middle + late;
    LevelsConcat(early, middle, bids);
    LevelsConcat(early + middle, late, bids);
    LevelsConcat(middle, late, bids);
    OverlapIsHarmless(Levels(early, bids), Levels(middle, bids), Levels(late, bids), levels);
  }

  // One delta of the stream: skipped when stale, refused on a gap, and otherwise the replica moves
  // to the book at the delta's end.
  lemma DeltaKeepsHolding(s: Stream, r: Replica, k: nat, d: Delta, a: int, b: int)
    requires Holds(s, r, k) && Covers(s, d, a, b)
    ensures
      var (next, result) := Applied(r, s.exchange, s.symbol, d);
      if b <= k then next == r && result == Ok(false)
      else if a > k + 1 then next == r && result.Err?
      else Holds(s, next, b) && result == Ok(true)
  {
    hide UpdateAll, BookAt, SameEffect;
    if a <= k + 1 <= b {
      OverlappingUpdates(s, d.bids, a, b, k, true);
      OverlappingUpdates(s, d.asks, a, b, k, false);
    }
  }

  // Whole deliveries

  function Fed(r: Replica, exchange: string, symbol: string, deltas: seq<Delta>): Replica {
    if deltas == [] then r
    else Applied(Fed(r, exchange, symbol, deltas[..|deltas| - 1]), exchange, symbol, deltas[|deltas| - 1]).0
  }

  // Whatever deltas of the stream arrive, in any order, repeated, overlapping or with gaps, the
  // replica holds the stream's book at its sequence number, which never moves back.
  lemma {:induction false} AnyDeliveryStaysOnStream(s: Stream, r: Replica, k: nat, deltas: seq<Delta>)
    requires Holds(s, r, k) && forall d :: d in deltas ==> OfStream(s, d)
    ensures exists n: nat :: n >= k && Holds(s, Fed(r, s.exchange, s.symbol, deltas), n)
  {
    hide Holds, Covers, Applied;
    if deltas == [] {
      assert Holds(s, Fed(r, s.exchange, s.symbol, deltas), k);
    } else {
      var (rest, last) := (deltas[..|deltas| - 1], deltas[|deltas| - 1]);
      assert last in deltas;
      AnyDeliveryStaysOnStream(s, r, k, rest);
      var n: nat :| n >= k && Holds(s, Fed(r, s.exchange, s.symbol, rest), n);
      var a, b :| Covers(s, last, a, b);
      DeltaKeepsHolding(s, Fed(r, s.exchange, s.symbol, rest), n, last, a, b);
      assert Holds(s, Fed(r, s.exchange, s.symbol, deltas), if a <= n + 1 <= b then b else n);
    }
  }

  // The deltas cover updates 1..upTo without gaps, each starting right after the one before.
  ghost predicate InOrder(s: Stream, deltas: seq<Delta>, upTo: int) {
    if deltas == [] then upTo == 0
    else
      var last := deltas[|deltas| - 1];
      && last.start.Some?
      && Covers(s, last, last.start.value - s.base, upTo)
      && InOrder(s, deltas[..|deltas| - 1], last.start.value - s.base - 1)
  }

  // Feeding the whole stream in order raises no error and ends at its last book, wherever the
  // replica started: stale deltas are skipped and the first accepted one may overlap.
  lemma {:induction false} ReplicaConverges(s: Stream, r: Replica, k: nat, deltas: seq<Delta>, upTo: int)
    requires Holds(s, r, k) && InOrder(s, deltas, upTo)
    ensures Holds(s, Fed(r, s.exchange, s.symbol, deltas), if upTo > k then upTo else k)
    ensures deltas != [] ==>
      var before := Fed(r, s.exchange, s.symbol, deltas[..|deltas| - 1]);
      Applied(before, s.exchange, s.symbol, deltas[|deltas| - 1]).1 == Ok(upTo > k)
  {
    hide Holds, Covers, Applied;
    if deltas != [] {
      var (rest, last) := (deltas[..|deltas| - 1], deltas[|deltas| - 1]);
      var a := last.start.value - s.base;
      ReplicaConverges(s, r, k, rest, a - 1);
      CoveredRange(s, last, a, upTo);
      DeltaKeepsHolding(s, Fed(r, s.exchange, s.symbol, rest), if a - 1 > k then a - 1 else k, last, a, upTo);
    }
  }

  lemma CoveredRange(s: Stream, d: Delta, a: int, b: int)
    requires Covers(s, d, a, b)
    ensures 1 <= a <= b
  {
  }

  // A full-depth snapshot of the stream's book at k, as the engine itself materializes one.
  ghost predicate SnapshotAt(s: Stream, snapshot: BookSnapshot, k: nat) {
    && k <= |s.updates| && snapshot.sequence == Some(s.base + k)
    && |snapshot.bids| == |BookAt(s, k, true)| && Ranked(BookAt(s, k, true), snapshot.bids, {}, true)
    && |snapshot.asks| == |BookAt(s, k, false)| && Ranked(BookAt(s, k, false), snapshot.asks, {}, false)
  }

  function LoadedFrom(snapshot: BookSnapshot): Replica {
    Replica(snapshot.sequence, LoadAll(snapshot.bids), LoadAll(snapshot.asks), true)
  }

  // From any loaded snapshot and through any deltas at all, every stored amount is positive.
  lemma {:induction false} ReplicaStaysPositive(snapshot: BookSnapshot, exchange: string, symbol: string,
                                                deltas: seq<Delta>)
    ensures
      var r := Fed(LoadedFrom(snapshot), exchange, symbol, deltas);
      AllPositive(r.bids) && AllPositive(r.asks)
  {
    hide Applied, LoadAll, AllPositive;
    if deltas == [] {
      NothingStored();
      UpdatesKeepPositive(map[], snapshot.bids);
      UpdatesKeepPositive(map[], snapshot.asks);
    } else {
      var rest := deltas[..|deltas| - 1];
      ReplicaStaysPositive(snapshot, exchange, symbol, rest);
      DeltasKeepPositive(Fed(LoadedFrom(snapshot), exchange, symbol, rest), exchange, symbol, deltas[|deltas| - 1]);
    }
  }

  lemma NothingStored()
    ensures AllPositive(map[])
  {
  }

  lemma LoadedSnapshotHolds(s: Stream, snapshot: BookSnapshot, k: nat)
    requires SnapshotAt(s, snapshot, k)
    ensures Holds(s, LoadedFrom(snapshot), k)
  {
    hide UpdateAll, LoadAll, Ranked;
    UpdatesKeepPositive(map[], Levels(s.updates[..k], true));
    UpdatesKeepPositive(map[], Levels(s.updates[..k], false));
    ListingLoadsBack(BookAt(s, k, true), snapshot.bids, true);
    ListingLoadsBack(BookAt(s, k, false), snapshot.asks, false);
  }

  lemma EmptyBookHolds(s: Stream)
    ensures Holds(s, Replica(Some(s.base), map[], map[], true), 0)
  {
    assert s.updates[..0] == [];
  }

  // A replica that loads a snapshot of the stream's book at any k and is then fed the whole stream
  // ends exactly like one that replayed the stream from an empty book.
  lemma ReplayFromAnywhere(s: Stream, snapshot: BookSnapshot, k: nat, deltas: seq<Delta>)
    requires SnapshotAt(s, snapshot, k) && InOrder(s, deltas, |s.updates|)
    ensures Fed(LoadedFrom(snapshot), s.exchange, s.symbol, deltas)
            == Fed(Replica(Some(s.base), map[], map[], true), s.exchange, s.symbol, deltas)
  {
    hide SnapshotAt, InOrder, Fed, BookAt, LoadedFrom;
    LoadedSnapshotHolds(s, snapshot, k);
    EmptyBookHolds(s);
    ReplicaConverges(s, LoadedFrom(snapshot), k, deltas, |s.updates|);
    ReplicaConverges(s, Replica(Some(s.base), map[], map[], true), 0, deltas, |s.updates|);
  }
}
