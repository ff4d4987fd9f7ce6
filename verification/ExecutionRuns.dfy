/** Whole runs of the order tracker: capacity and eviction, and the books each tracked order keeps
    between the exchange's cumulative totals and the events published for it. */
module ExecutionRuns {
  import opened Basics
  import opened Sums
  import opened ExecutionLifecycle

  datatype Action =
    | Intend(intent: Intent, at: real)
    | Observe(snapshot: Snapshot, source: string, at: real)
    | Sweep(at: real)

  function Act(c: Config, st: State, a: Action): State {
    match a
    case Intend(intent, at) => st.(tracked := Tracking(st.tracked, c, intent, at).0)
    case Observe(snapshot, source, at) => Observing(st, snapshot, source, at)
    case Sweep(at) => st.(tracked := Retained(st.tracked, c, false, at))
  }

  function Run(c: Config, actions: seq<Action>): State {
    if actions == [] then State([], []) else Act(c, Run(c, actions[..|actions| - 1]), actions[|actions| - 1])
  }

  // Capacity and eviction

  predicate DistinctKeys(tracked: seq<TrackedOrder>) {
    forall i, j :: 0 <= i < j < |tracked| ==> tracked[i].key != tracked[j].key
  }

  // Finished orders carry the time they finished, and nothing reported is negative.
  predicate WellKept(o: TrackedOrder) {
    && (TerminalStatus(o.status) ==> o.terminalMarkedAt.Some?)
    && o.reportedFilled >= 0.0 && o.reportedFee >= 0.0 && o.requestedQuantity > 0.0
  }

  predicate Sound(c: Config, st: State) {
    && |st.tracked| <= c.maxTrackedOrders
    && DistinctKeys(st.tracked)
    && forall o :: o in st.tracked ==> WellKept(o)
  }

  lemma ObservedIsWellKept(o: TrackedOrder, s: Snapshot, source: string, now: real)
    requires WellKept(o)
    ensures
      var after := Observed(o, s, source, now).0;
      && WellKept(after) && after.key == o.key
      && o.reportedFilled <= after.reportedFilled && o.reportedFee <= after.reportedFee
  {
    hide NormalizeStatus;
  }

  lemma {:induction false} RetainedKeysDistinct(tracked: seq<TrackedOrder>, c: Config, force: bool, now: real)
    requires DistinctKeys(tracked)
    ensures DistinctKeys(Retained(tracked, c, force, now))
  {
    if tracked != [] {
      var rest := tracked[..|tracked| - 1];
      RetainedKeysDistinct(rest, c, force, now);
      assert forall o :: o in rest ==> o.key != tracked[|tracked| - 1].key;
      var kept := Retained(rest, c, force, now);
      assert forall k :: 0 <= k < |kept| ==> kept[k] in kept;
    }
  }

  lemma TrackingIsSound(c: Config, st: State, i: Intent, now: real)
    requires Sound(c, st)
    ensures Sound(c, st.(tracked := Tracking(st.tracked, c, i, now).0))
  {
    hide Retained, ValidIntent, FirstIndex;
    RetainedKeysDistinct(st.tracked, c, true, now);
    if ValidIntent(i) {
      ValidQuantity(i);
      var after := Tracking(st.tracked, c, i, now).0;
      var existing := FirstIndex(st.tracked, HasKey(i.key));
      if existing.Some? {
        assert st.tracked[existing.value] in st.tracked;
        assert forall k :: 0 <= k < |after| ==> after[k].key == st.tracked[k].key;
        assert forall k :: 0 <= k < |after| && k != existing.value ==> after[k] in st.tracked;
      } else {
        var room := if |st.tracked| >= c.maxTrackedOrders then Retained(st.tracked, c, true, now) else st.tracked;
        assert forall o :: o in st.tracked ==> !HasKey(i.key)(o);
        assert forall k :: 0 <= k < |room| ==> room[k] in room;
        assert forall k :: 0 <= k < |room| ==> room[k].key != i.key;
      }
    }
  }

  lemma ValidQuantity(i: Intent)
    requires ValidIntent(i)
    ensures Abs(i.quantity) > 0.0
  {
  }

  lemma ObservingIsSound(c: Config, st: State, s: Snapshot, source: string, now: real)
    requires Sound(c, st)
    ensures Sound(c, Observing(st, s, source, now))
  {
    hide Resolve, Observed, WellKept;
    var index := Resolve(st.tracked, s);
    if index.Some? {
      var i := index.value;
      ObservedIsWellKept(st.tracked[i], s, source, now);
      var after := Observing(st, s, source, now).tracked;
      assert forall k :: 0 <= k < |after| ==> after[k].key == st.tracked[k].key;
      assert forall k :: 0 <= k < |after| && k != i ==> after[k] in st.tracked;
    }
  }

  // In every reachable state the capacity bound holds, keys are distinct, and every finished
  // order carries its finishing time.
  lemma {:induction false} RunIsSound(c: Config, actions: seq<Action>)
    ensures Sound(c, Run(c, actions))
  {
    hide Sound, Tracking, Observing, Retained;
    if actions == [] {
      StartIsSound(c);
    } else {
      var (before, last) := (Run(c, actions[..|actions| - 1]), actions[|actions| - 1]);
      RunIsSound(c, actions[..|actions| - 1]);
      match last
      case Intend(intent, at) => TrackingIsSound(c, before, intent, at);
      case Observe(snapshot, source, at) => ObservingIsSound(c, before, snapshot, source, at);
      case Sweep(at) => SweepIsSound(c, before, at);
    }
  }

  lemma StartIsSound(c: Config)
    ensures Sound(c, State([], []))
  {
  }

  lemma SweepIsSound(c: Config, st: State, now: real)
    requires Sound(c, st)
    ensures Sound(c, st.(tracked := Retained(st.tracked, c, false, now)))
  {
    RetainedKeysDistinct(st.tracked, c, false, now);
  }

  predicate IsOpen(o: TrackedOrder) {
    !TerminalStatus(o.status)
  }

  // No action makes an open order disappear: an intent, snapshot or sweep leaves an order with its key.
  lemma OpenOrdersStayTracked(c: Config, st: State, a: Action, o: TrackedOrder)
    requires Sound(c, st) && o in st.tracked && IsOpen(o)
    ensures exists o' :: o' in Act(c, st, a).tracked && o'.key == o.key
  {
    hide Resolve, ValidIntent, FirstIndex, WellKept;
    var after := Act(c, st, a).tracked;
    if o in after {
    } else {
      var i :| 0 <= i < |st.tracked| && st.tracked[i] == o;
      match a {
        case Intend(intent, at) =>
          assert o in Retained(st.tracked, c, true, at);
          assert after[i] in after;
        case Observe(snapshot, source, at) =>
          assert after[i] in after;
        case Sweep(at) =>
      }
    }
  }

  // A valid intent for a new order is refused only when every slot holds an open order, and then
  // all of those orders were already tracked.
  lemma RefusedOnlyWhenFull(c: Config, st: State, i: Intent, now: real)
    requires Sound(c, st) && ValidIntent(i) && Tracking(st.tracked, c, i, now).1.None?
    ensures
      var after := Tracking(st.tracked, c, i, now).0;
      && |after| == c.maxTrackedOrders
      && forall o :: o in after ==> IsOpen(o) && o in st.tracked
  {
    hide ValidIntent, FirstIndex;
    assert forall o :: o in st.tracked && TerminalStatus(o.status) ==> Evictable(o, c, true, now);
  }

  // The books of one tracked order

  // What happened since the order was last taken up: its events, the quantity published on a bare
  // Filled status, and the growth that arrived with a status that is not a fill.
  datatype Book = Book(events: seq<Event>, backfilled: real, absorbed: real)

  const BLANK := Book([], 0.0, 0.0)

  // The quantity missing to completion, when a Filled status brings no new fills.
  function Backfill(o: TrackedOrder, s: Snapshot): real {
    if NormalizeStatus(s.status).Filled? && s.filledTotal <= o.reportedFilled
    then o.requestedQuantity - o.reportedFilled else 0.0
  }

  // Growth of the cumulative fill under a status whose event does not carry it.
  function Absorbed(o: TrackedOrder, s: Snapshot): real {
    if !FillStatus(NormalizeStatus(s.status)) && s.filledTotal > o.reportedFilled
    then s.filledTotal - o.reportedFilled else 0.0
  }

  function Entered(b: Book, o: TrackedOrder, s: Snapshot, source: string, now: real): Book {
    var event := Observed(o, s, source, now).1;
    if event.None? then b
    else Book(b.events + [event.value], b.backfilled + Backfill(o, s), b.absorbed + Absorbed(o, s))
  }

  predicate Tracks(st: State, key: string) {
    exists o :: o in st.tracked && o.key == key
  }

  function BookOf(c: Config, actions: seq<Action>, key: string): Book {
    if actions == [] then BLANK
    else
      var (rest, last) := (actions[..|actions| - 1], actions[|actions| - 1]);
      var (before, book) := (Run(c, rest), BookOf(c, rest, key));
      if last.Observe? then
        var index := Resolve(before.tracked, last.snapshot);
        if index.Some? && before.tracked[index.value].key == key
        then Entered(book, before.tracked[index.value], last.snapshot, last.source, last.at)
        else book
      else if Tracks(before, key) then book
      else BLANK
  }

  function EventFee(e: Event): real {
    e.feePaid
  }

  function EventFill(e: Event): real {
    if FillStatus(e.status) then e.quantity else 0.0
  }

  // Fees reconcile exactly; fill events reconcile up to backfilled and absorbed quantity.
  predicate Balanced(o: TrackedOrder, b: Book) {
    && SumOf(b.events, EventFee) == o.reportedFee
    && SumOf(b.events, EventFill) == o.reportedFilled + b.backfilled - b.absorbed
    && |b.events| == o.emittedEvents
    && forall i :: 0 <= i < |b.events| ==> b.events[i].key == o.key && b.events[i].sequence == i + 1
  }

  lemma EnteredStaysBalanced(b: Book, o: TrackedOrder, s: Snapshot, source: string, now: real)
    requires WellKept(o) && Balanced(o, b)
    ensures Balanced(Observed(o, s, source, now).0, Entered(b, o, s, source, now))
  {
    hide NormalizeStatus, SumOf;
    var (after, event) := Observed(o, s, source, now);
    if event.Some? {
      SumOfConcat(b.events, [event.value], EventFee);
      SumOfConcat(b.events, [event.value], EventFill);
      SumOfOne(event.value, EventFee);
      SumOfOne(event.value, EventFill);
    }
  }

  // Where a tracked order comes from: it was tracked before, or the intent just took it up.
  predicate ComesFrom(st: State, a: Action, o: TrackedOrder, o': TrackedOrder) {
    && o in st.tracked && o.key == o'.key
    && match a
       case Intend(_, _) =>
         o'.reportedFilled == o.reportedFilled && o'.reportedFee == o.reportedFee && o'.emittedEvents == o.emittedEvents
       case Observe(s, source, at) =>
         var index := Resolve(st.tracked, s);
         o' == if index.Some? && st.tracked[index.value].key == o.key then Observed(o, s, source, at).0 else o
       case Sweep(_) => o' == o
  }

  lemma OriginAfterObserve(c: Config, st: State, a: Action, o': TrackedOrder)
    requires Sound(c, st) && a.Observe? && o' in Act(c, st, a).tracked
    ensures exists o :: ComesFrom(st, a, o, o')
  {
    hide Resolve, Observed;
    var after := Act(c, st, a).tracked;
    var k :| 0 <= k < |after| && after[k] == o';
    var o := st.tracked[k];
    var index := Resolve(st.tracked, a.snapshot);
    if index.Some? {
      ObservedIsWellKept(st.tracked[index.value], a.snapshot, a.source, a.at);
      assert k != index.value ==> st.tracked[k].key != st.tracked[index.value].key;
    }
    assert ComesFrom(st, a, o, o');
  }

  lemma OriginAfterIntend(c: Config, st: State, a: Action, o': TrackedOrder)
    requires Sound(c, st) && a.Intend? && o' in Act(c, st, a).tracked
    ensures (exists o :: ComesFrom(st, a, o, o')) || (!Tracks(st, o'.key) && Balanced(o', BLANK))
  {
    hide ValidIntent, FirstIndex, SumOf;
    var after := Act(c, st, a).tracked;
    var k :| 0 <= k < |after| && after[k] == o';
    var existing := FirstIndex(st.tracked, HasKey(a.intent.key));
    if o' in st.tracked {
      assert ComesFrom(st, a, o', o');
    } else if existing.Some? {
      assert ComesFrom(st, a, st.tracked[existing.value], o');
    } else {
      NothingSummed();
      assert o' == NewOrder(a.intent);
    }
  }

  lemma NothingSummed()
    ensures SumOf([], EventFee) == 0.0 && SumOf([], EventFill) == 0.0
  {
  }

  lemma {:induction false} BookAfterObserve(c: Config, actions: seq<Action>, o: TrackedOrder)
    requires actions != [] && actions[|actions| - 1].Observe?
    requires DistinctKeys(Run(c, actions[..|actions| - 1]).tracked) && o in Run(c, actions[..|actions| - 1]).tracked
    ensures
      var (rest, a) := (actions[..|actions| - 1], actions[|actions| - 1]);
      var (st, index) := (Run(c, rest), Resolve(Run(c, rest).tracked, a.snapshot));
      BookOf(c, actions, o.key) ==
        if index.Some? && st.tracked[index.value].key == o.key
        then Entered(BookOf(c, rest, o.key), o, a.snapshot, a.source, a.at) else BookOf(c, rest, o.key)
  {
    hide Resolve, Entered, Act;
    var st := Run(c, actions[..|actions| - 1]);
    var k :| 0 <= k < |st.tracked| && st.tracked[k] == o;
  }

  // For every tracked order of every run, the fees of its published events add up to the reported
  // fee, and its fill events to the reported fill plus backfills minus absorbed growth; its events
  // are numbered 1, 2, 3 and so on, so their idempotency keys are distinct.
  lemma {:induction false} BooksBalance(c: Config, actions: seq<Action>, o': TrackedOrder)
    requires o' in Run(c, actions).tracked
    ensures Balanced(o', BookOf(c, actions, o'.key))
  {
    hide Sound, Act, Balanced, Entered, Observed, Resolve;
    if actions != [] {
      var (rest, a) := (actions[..|actions| - 1], actions[|actions| - 1]);
      var st := Run(c, rest);
      RunIsSound(c, rest);
      SoundParts(c, st);
      if a.Observe? {
        OriginAfterObserve(c, st, a, o');
        var o :| ComesFrom(st, a, o, o');
        BooksBalance(c, rest, o);
        BookAfterObserve(c, actions, o);
        EnteredStaysBalanced(BookOf(c, rest, o.key), o, a.snapshot, a.source, a.at);
      } else {
        OriginOtherwise(c, st, a, o');
        if o :| ComesFrom(st, a, o, o') {
          BooksBalance(c, rest, o);
          assert Tracks(st, o.key);
          SameReportsSameBalance(o, o', BookOf(c, rest, o.key));
        }
      }
    }
  }

  lemma SoundParts(c: Config, st: State)
    requires Sound(c, st)
    ensures DistinctKeys(st.tracked) && forall o :: o in st.tracked ==> WellKept(o)
  {
  }

  lemma OriginOtherwise(c: Config, st: State, a: Action, o': TrackedOrder)
    requires Sound(c, st) && !a.Observe? && o' in Act(c, st, a).tracked
    ensures (exists o :: ComesFrom(st, a, o, o')) || (!Tracks(st, o'.key) && Balanced(o', BLANK))
  {
    if a.Intend? {
      OriginAfterIntend(c, st, a, o');
    } else {
      assert ComesFrom(st, a, o', o');
    }
  }

  lemma SameReportsSameBalance(o: TrackedOrder, o': TrackedOrder, b: Book)
    requires Balanced(o, b) && o.key == o'.key
    requires o'.reportedFilled == o.reportedFilled && o'.reportedFee == o.reportedFee
    requires o'.emittedEvents == o.emittedEvents
    ensures Balanced(o', b)
  {
  }

  function EventsOf(published: seq<Event>, key: string): seq<Event> {
    if published == [] then []
    else
      var (rest, last) := (EventsOf(published[..|published| - 1], key), published[|published| - 1]);
      if last.key == key then rest + [last] else rest
  }

  lemma EventsOfOneMore(published: seq<Event>, e: Event, key: string)
    ensures EventsOf(published + [e], key) ==
      if e.key == key then EventsOf(published, key) + [e] else EventsOf(published, key)
  {
    assert (published + [e])[..|published|] == published;
  }

  predicate EndsWith(all: seq<Event>, mine: seq<Event>) {
    |mine| <= |all| && all[|all| - |mine|..] == mine
  }

  lemma EventCarriesKey(o: TrackedOrder, s: Snapshot, source: string, now: real)
    ensures
      var event := Observed(o, s, source, now).1;
      event.Some? ==> event.value.key == o.key
  {
    hide NormalizeStatus;
  }

  // The events in an order's book are the latest ones published under its key.
  lemma {:induction false} BooksArePublished(c: Config, actions: seq<Action>, key: string)
    ensures EndsWith(EventsOf(Run(c, actions).published, key), BookOf(c, actions, key).events)
  {
    hide Resolve, Observed, Tracking, Retained;
    if actions != [] {
      var (rest, a) := (actions[..|actions| - 1], actions[|actions| - 1]);
      var st := Run(c, rest);
      BooksArePublished(c, rest, key);
      if a.Observe? && Resolve(st.tracked, a.snapshot).Some? {
        var o := st.tracked[Resolve(st.tracked, a.snapshot).value];
        var event := Observed(o, a.snapshot, a.source, a.at).1;
        EventCarriesKey(o, a.snapshot, a.source, a.at);
        if event.Some? {
          EventsOfOneMore(st.published, event.value, key);
        }
      }
    }
  }

  // No action lowers what was reported for an order that stays tracked.
  lemma {:induction false} ReportsNeverDecrease(c: Config, actions: seq<Action>, a: Action,
                                                o: TrackedOrder, o': TrackedOrder)
    requires o in Run(c, actions).tracked && o' in Act(c, Run(c, actions), a).tracked && o.key == o'.key
    ensures o.reportedFilled <= o'.reportedFilled && o.reportedFee <= o'.reportedFee
  {
    hide Sound, Act, Observed, Resolve, Balanced;
    var st := Run(c, actions);
    RunIsSound(c, actions);
    SoundParts(c, st);
    if a.Observe? {
      OriginAfterObserve(c, st, a, o');
      ObservedIsWellKept(o, a.snapshot, a.source, a.at);
    } else {
      OriginOtherwise(c, st, a, o');
      assert Tracks(st, o'.key);
    }
    var p :| ComesFrom(st, a, p, o');
    assert p == o;
  }

  // Fill events over-report when a bare Filled status is followed by the total it anticipated: an
  // intent for one unit and these two snapshots publish two units of fill events.
  lemma BareFilledIsPublishedTwice(c: Config, i: Intent, source: string, t0: real, t1: real, t2: real)
    requires c.maxTrackedOrders > 0 && ValidIntent(i) && Abs(i.quantity) == 1.0
    ensures
      var bare := Snapshot(i.exchange, i.symbol, "filled", "", "", 0.0, None, None);
      var st := Run(c, [Intend(i, t0), Observe(bare, source, t1), Observe(bare.(filledTotal := 1.0), source, t2)]);
      && |st.tracked| == 1 && st.tracked[0].reportedFilled == 1.0
      && |st.published| == 2 && EventFill(st.published[0]) + EventFill(st.published[1]) == 2.0
  {
    hide Resolve, Observed, Tracking, Run, NewOrder;
    var bare := Snapshot(i.exchange, i.symbol, "filled", "", "", 0.0, None, None);
    var total := bare.(filledTotal := 1.0);
    var first := [Intend(i, t0)];
    var second := first + [Observe(bare, source, t1)];
    var third := second + [Observe(total, source, t2)];
    FirstIntent(c, i, t0);
    RunOneMore(c, first, Observe(bare, source, t1));
    RunOneMore(c, second, Observe(total, source, t2));
    OnlyOrderFilledTwice(NewOrder(i), bare, total, source, t1, t2);
    var after := Observed(NewOrder(i), bare, source, t1).0;
    OnlyOrderIsFound(NewOrder(i), bare);
    OnlyOrderIsFound(after, total);
    var (last, event) := Observed(after, total, source, t2);
    assert Run(c, second) == State([after], [Observed(NewOrder(i), bare, source, t1).1.value]);
    assert Run(c, third) == State([last], Run(c, second).published + [event.value]);
    assert third == [Intend(i, t0), Observe(bare, source, t1), Observe(total, source, t2)];
  }

  lemma FirstIntent(c: Config, i: Intent, at: real)
    requires c.maxTrackedOrders > 0 && ValidIntent(i)
    ensures Run(c, [Intend(i, at)]) == State([NewOrder(i)], [])
    ensures NewOrder(i).exchange == i.exchange && NewOrder(i).symbol == i.symbol && NewOrder(i).status.Submitted?
    ensures NewOrder(i).requestedQuantity == Abs(i.quantity)
    ensures NewOrder(i).reportedFilled == 0.0 && NewOrder(i).reportedFee == 0.0
  {
    RunOneMore(c, [], Intend(i, at));
    assert [] + [Intend(i, at)] == [Intend(i, at)];
  }

  lemma RunOneMore(c: Config, actions: seq<Action>, a: Action)
    ensures Run(c, actions + [a]) == Act(c, Run(c, actions), a)
  {
    hide Act;
    assert (actions + [a])[..|actions|] == actions;
  }

  lemma OnlyOrderIsFound(o: TrackedOrder, s: Snapshot)
    requires o.exchange == s.exchange != "" && o.symbol == s.symbol != ""
    requires s.exchangeOrderId == "" && s.clientOrderId == ""
    ensures Resolve([o], s) == Some(0)
  {
    hide OnlyIndex;
    OnlyIndexExactly([o], Trades(s.exchange, s.symbol), 0);
  }

  lemma OnlyOrderFilledTwice(o: TrackedOrder, bare: Snapshot, total: Snapshot, source: string, t1: real, t2: real)
    requires o.requestedQuantity == 1.0 && o.reportedFilled == 0.0 && o.reportedFee == 0.0 && o.status.Submitted?
    requires bare == Snapshot(o.exchange, o.symbol, "filled", "", "", 0.0, None, None)
    requires total == bare.(filledTotal := 1.0)
    ensures
      var (after, first) := Observed(o, bare, source, t1);
      var (last, second) := Observed(after, total, source, t2);
      && after.exchange == o.exchange && after.symbol == o.symbol
      && first.Some? && second.Some? && last.reportedFilled == 1.0
      && EventFill(first.value) + EventFill(second.value) == 2.0
  {
    FilledWord();
  }

  lemma FilledWord()
    ensures NormalizeStatus("filled") == Filled
  {
  }

  // One published event reports exactly the growth of the cumulative fill if and only if the
  // snapshot neither is a bare Filled status nor brings growth under another status.
  lemma EventReportsGrowthExactly(o: TrackedOrder, s: Snapshot, source: string, now: real)
    requires WellKept(o) && Observed(o, s, source, now).1.Some?
    ensures
      var (after, event) := Observed(o, s, source, now);
      EventFill(event.value) == after.reportedFilled - o.reportedFilled <==>
        (FillStatus(NormalizeStatus(s.status)) <==> s.filledTotal > o.reportedFilled)
  {
    hide NormalizeStatus;
  }
}
