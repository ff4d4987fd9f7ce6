/** The fill reconciler of `services/oms/fill_reconciliation.py`: a priority join of statuses,
    a first-wins dedupe of fills, and a status derived from the quantity they add up to. */
module FillReconciliation {
  import opened Basics
  import opened OrderStatus
  import opened Sums

  // Smallest quantity by which the exchange must be ahead before its snapshot is consulted.
  const MIN_FILL_GAP: real := 0.000001

  // `OrderCanceled` stands for both spellings of the event.
  datatype EventType =
    | OrderCreated | OrderSubmitted | OrderOpen | OrderPartiallyFilled | OrderFilled
    | OrderCanceled | OrderRejected | OrderExpired | OrderIgnored | OtherEvent(name: string)

  datatype Order = Order(
    orderId: string, symbol: string, mode: string, requestedQuantity: real,
    status: Status, filledQuantity: real, averagePrice: Option<real>)

  datatype Fill = Fill(fillId: string, orderId: string, quantity: real, price: real, fee: real, source: string)

  datatype Event = Event(eventType: EventType, status: Option<Status>, fill: Option<Fill>)

  datatype ExchangeSnapshot = ExchangeSnapshot(
    status: Status, filledQuantity: real, averagePrice: Option<real>, fills: seq<Fill>)

  datatype Reconciliation = Reconciliation(
    orderId: string, status: Status, filledQuantity: real, averagePrice: Option<real>,
    fills: seq<Fill>, usedExchangeFallback: bool, changed: bool)

  // The pieces

  function EventStatus(event: Event): Option<Status> {
    if event.status.Some? then event.status
    else
      match event.eventType
      case OrderCreated => Some(Opened)
      case OrderSubmitted => Some(Submitted)
      case OrderOpen => Some(Opened)
      case OrderPartiallyFilled => Some(PartiallyFilled)
      case OrderFilled => Some(Filled)
      case OrderCanceled => Some(Canceled)
      case OrderRejected => Some(Rejected)
      case OrderExpired => Some(Expired)
      case OrderIgnored => Some(Canceled)
      case OtherEvent(_) => None
  }

  function NormalizeFill(fill: Fill): Fill {
    fill.(quantity := Max(0.0, Abs(fill.quantity)))
  }

  function CountedQuantity(fill: Fill): real {
    Max(0.0, fill.quantity)
  }

  function CountedNotional(fill: Fill): real {
    Max(0.0, fill.quantity) * fill.price
  }

  function FilledQuantity(fills: seq<Fill>): real {
    SumOf(fills, CountedQuantity)
  }

  function AveragePrice(fills: seq<Fill>): Option<real> {
    var total := SumOf(fills, CountedQuantity);
    if total <= EPSILON then None else Some(SumOf(fills, CountedNotional) / total)
  }

  function EventStatuses(events: seq<Event>): seq<Status> {
    if events == [] then []
    else
      var (rest, status) := (EventStatuses(events[..|events| - 1]), EventStatus(events[|events| - 1]));
      if status.Some? then rest + [status.value] else rest
  }

  predicate CarriesFill(orderId: string, event: Event) {
    event.fill.Some? && event.fill.value.orderId == orderId
  }

  function QueueFills(orderId: string, events: seq<Event>): seq<Fill> {
    if events == [] then []
    else
      var (rest, last) := (QueueFills(orderId, events[..|events| - 1]), events[|events| - 1]);
      if CarriesFill(orderId, last) then rest + [NormalizeFill(last.fill.value)] else rest
  }

  function Ids(fills: seq<Fill>): set<string> {
    set f | f in fills :: f.fillId
  }

  // The fills whose id is not in `seen`, first occurrence of each id only.
  function DedupeFrom(seen: set<string>, fills: seq<Fill>): seq<Fill>
    decreases |fills|
  {
    if fills == [] then []
    else if fills[0].fillId in seen then DedupeFrom(seen, fills[1..])
    else [fills[0]] + DedupeFrom(seen + {fills[0].fillId}, fills[1..])
  }

  function Dedupe(fills: seq<Fill>): seq<Fill> {
    DedupeFrom({}, fills)
  }

  // The fills of one order that survive from its log.
  function Kept(orderId: string, events: seq<Event>): seq<Fill> {
    Dedupe(QueueFills(orderId, events))
  }

  function RequiresFallback(status: Status, queued: real, snapshot: ExchangeSnapshot): bool {
    var ahead := Max(0.0, snapshot.filledQuantity) > queued + MIN_FILL_GAP;
    if !Terminal(status) then Terminal(snapshot.status) || ahead
    else (Terminal(snapshot.status) && Priority(snapshot.status) > Priority(status)) || ahead
  }

  function DeriveStatus(base: Status, requested: real, filled: real): Status {
    if requested <= EPSILON then base
    else if filled >= requested - EPSILON then Filled
    else if filled > EPSILON then
      if base.Canceled? || base.Rejected? || base.Expired? then base else PartiallyFilled
    else base
  }

  function IsChanged(order: Order, status: Status, filled: real, average: Option<real>): bool {
    || order.status != status
    || Abs(order.filledQuantity - filled) > EPSILON
    || (order.averagePrice.Some? != average.Some?)
    || (order.averagePrice.Some? && average.Some? && Abs(order.averagePrice.value - average.value) > EPSILON)
  }

  // The whole reconciliation

  // What the quantities and statuses collected so far amount to.
  function Conclude(order: Order, snapshot: Option<ExchangeSnapshot>, status: Status, fills: seq<Fill>,
                    usedFallback: bool): Reconciliation
  {
    var counted := FilledQuantity(fills);
    var filled :=
      if counted > EPSILON then counted
      else if snapshot.Some? then Max(Max(0.0, order.filledQuantity), Max(0.0, snapshot.value.filledQuantity))
      else Max(0.0, order.filledQuantity);
    var average :=
      if AveragePrice(fills).Some? then AveragePrice(fills)
      else if snapshot.Some? && snapshot.value.averagePrice.Some? then snapshot.value.averagePrice
      else order.averagePrice;
    var final := DeriveStatus(status, Max(0.0, order.requestedQuantity), filled);
    Reconciliation(order.orderId, final, filled, average, fills, usedFallback, IsChanged(order, final, filled, average))
  }

  function NormalizeFills(fills: seq<Fill>): seq<Fill> {
    seq(|fills|, i requires 0 <= i < |fills| => NormalizeFill(fills[i]))
  }

  function Reconciled(order: Order, events: seq<Event>, snapshot: Option<ExchangeSnapshot>): Reconciliation {
    var queued := Kept(order.orderId, events);
    var status := Join([order.status] + EventStatuses(events));
    if snapshot.Some? && RequiresFallback(status, FilledQuantity(queued), snapshot.value) then
      Conclude(order, snapshot, Join([status, snapshot.value.status]),
               Dedupe(queued + NormalizeFills(snapshot.value.fills)), true)
    else
      Conclude(order, snapshot, status, queued, false)
  }

  // The loops of the service

  method DedupeFills(fills: seq<Fill>) returns (deduped: seq<Fill>)
    ensures deduped == Dedupe(fills)
  {
    deduped := [];
    var seen: set<string> := {};
    for i := 0 to |fills|
      invariant Dedupe(fills) == deduped + DedupeFrom(seen, fills[i..])
    {
      assert fills[i..][1..] == fills[i + 1..];
      if fills[i].fillId !in seen {
        seen := seen + {fills[i].fillId};
        deduped := deduped + [fills[i]];
      }
    }
  }

  method WeightedAveragePrice(fills: seq<Fill>) returns (average: Option<real>)
    ensures average == AveragePrice(fills)
  {
    var totalQuantity, notional := 0.0, 0.0;
    for i := 0 to |fills|
      invariant totalQuantity == SumOf(fills[..i], CountedQuantity)
      invariant notional == SumOf(fills[..i], CountedNotional)
    {
      assert fills[..i + 1][..i] == fills[..i];
      var quantity := Max(0.0, fills[i].quantity);
      totalQuantity := totalQuantity + quantity;
      notional := notional + quantity * fills[i].price;
    }
    assert fills[..|fills|] == fills;
    if totalQuantity <= EPSILON {
      return None;
    }
    return Some(notional / totalQuantity);
  }

  method Reconcile(order: Order, events: seq<Event>, snapshot: Option<ExchangeSnapshot>)
    returns (result: Reconciliation)
    ensures result == Reconciled(order, events, snapshot)
  {
    var eventStatuses: seq<Status> := [];
    var queueFills: seq<Fill> := [];
    for i := 0 to |events|
      invariant eventStatuses == EventStatuses(events[..i])
      invariant queueFills == QueueFills(order.orderId, events[..i])
    {
      assert events[..i + 1][..i] == events[..i];
      var inferred := EventStatus(events[i]);
      if inferred.Some? {
        eventStatuses := eventStatuses + [inferred.value];
      }
      if events[i].fill.Some? && events[i].fill.value.orderId == order.orderId {
        queueFills := queueFills + [NormalizeFill(events[i].fill.value)];
      }
    }
    assert events[..|events|] == events;

    var mergedFills := DedupeFills(queueFills);
    var mergedStatus := PickStatus([order.status] + eventStatuses);
    var usedFallback := false;
    if snapshot.Some? && RequiresFallback(mergedStatus, FilledQuantity(mergedFills), snapshot.value) {
      usedFallback := true;
      mergedStatus := PickStatus([mergedStatus, snapshot.value.status]);
      mergedFills := DedupeFills(mergedFills + NormalizeFills(snapshot.value.fills));
    }

    var filled := FilledQuantity(mergedFills);
    if filled <= EPSILON {
      filled := Max(0.0, order.filledQuantity);
      if snapshot.Some? {
        filled := Max(filled, Max(0.0, snapshot.value.filledQuantity));
      }
    }
    var average := WeightedAveragePrice(mergedFills);
    if average.None? {
      if snapshot.Some? {
        average := snapshot.value.averagePrice;
      }
      if average.None? {
        average := order.averagePrice;
      }
    }
    var final := DeriveStatus(mergedStatus, Max(0.0, order.requestedQuantity), filled);
    result := Reconciliation(order.orderId, final, filled, average, mergedFills, usedFallback,
                             IsChanged(order, final, filled, average));
  }

  // Deduplication

  lemma IdsOfCons(fills: seq<Fill>)
    ensures Ids([]) == {}
    ensures fills != [] ==> Ids(fills) == {fills[0].fillId} + Ids(fills[1..])
  {
    if fills != [] {
      assert fills == [fills[0]] + fills[1..];
    }
  }

  lemma {:induction false} DedupeFromConcat(seen: set<string>, a: seq<Fill>, b: seq<Fill>)
    ensures DedupeFrom(seen, a + b) == DedupeFrom(seen, a) + DedupeFrom(seen + Ids(a), b)
    decreases |a|
  {
    hide Ids;
    IdsOfCons(a);
    if a == [] {
      assert a + b == b && seen + Ids(a) == seen;
    } else {
      assert (a + b)[1..] == a[1..] + b;
      var seen' := if a[0].fillId in seen then seen else seen + {a[0].fillId};
      DedupeFromConcat(seen', a[1..], b);
      assert seen' + Ids(a[1..]) == seen + Ids(a);
    }
  }

  lemma {:induction false} DedupedIsFixed(seen: set<string>, fills: seq<Fill>)
    ensures DedupeFrom(seen, DedupeFrom(seen, fills)) == DedupeFrom(seen, fills)
    ensures Ids(DedupeFrom(seen, fills)) == Ids(fills) - seen
    decreases |fills|
  {
    hide Ids;
    IdsOfCons(fills);
    if fills != [] {
      if fills[0].fillId in seen {
        DedupedIsFixed(seen, fills[1..]);
      } else {
        DedupedIsFixed(seen + {fills[0].fillId}, fills[1..]);
        IdsOfCons(DedupeFrom(seen, fills));
      }
    }
  }

  // Equal ids carry equal fills.
  predicate Coherent(fills: seq<Fill>) {
    forall f, g :: f in fills && g in fills && f.fillId == g.fillId ==> f == g
  }

  function Unseen(seen: set<string>, fills: seq<Fill>): set<Fill> {
    set f | f in fills && f.fillId !in seen
  }

  lemma UnseenInNothing(seen: set<string>)
    ensures Unseen(seen, []) == {}
  {
  }

  lemma UnseenHead(seen: set<string>, fills: seq<Fill>)
    requires Coherent(fills) && fills != []
    ensures
      var (head, tail) := (fills[0], fills[1..]);
      && Coherent(tail)
      && (head.fillId in seen ==> Unseen(seen, fills) == Unseen(seen, tail))
      && (head.fillId !in seen ==>
            var others := Unseen(seen + {head.fillId}, tail);
            head !in others && Unseen(seen, fills) == {head} + others)
  {
    assert fills == [fills[0]] + fills[1..];
  }

  // Deduplicating coherent fills keeps each distinct fill once.
  lemma {:induction false} DedupeKeepsDistinct(seen: set<string>, fills: seq<Fill>)
    requires Coherent(fills)
    ensures multiset(DedupeFrom(seen, fills)) == multiset(Unseen(seen, fills))
    decreases |fills|
  {
    hide Coherent, Unseen;
    if fills == [] {
      UnseenInNothing(seen);
    } else {
      UnseenHead(seen, fills);
      DedupeKeepsDistinct(if fills[0].fillId in seen then seen else seen + {fills[0].fillId}, fills[1..]);
    }
  }

  lemma FromSetToMultiset(a: seq<Fill>, b: seq<Fill>)
    requires Coherent(a) && Coherent(b) && forall f :: f in a <==> f in b
    ensures multiset(Dedupe(a)) == multiset(Dedupe(b))
  {
    DedupeKeepsDistinct({}, a);
    DedupeKeepsDistinct({}, b);
    assert Unseen({}, a) == Unseen({}, b);
  }

  // What a log says, as a set

  lemma {:induction false} EventStatusesContent(events: seq<Event>)
    ensures forall s :: s in EventStatuses(events) <==> exists e :: e in events && EventStatus(e) == Some(s)
  {
    if events != [] {
      EventStatusesContent(events[..|events| - 1]);
      assert events == events[..|events| - 1] + [events[|events| - 1]];
    }
  }

  lemma {:induction false} QueueFillsContent(orderId: string, events: seq<Event>)
    ensures forall f :: f in QueueFills(orderId, events) <==>
      exists e :: e in events && CarriesFill(orderId, e) && f == NormalizeFill(e.fill.value)
  {
    if events != [] {
      QueueFillsContent(orderId, events[..|events| - 1]);
      assert events == events[..|events| - 1] + [events[|events| - 1]];
    }
  }

  lemma RedeliveredStatus(base: Status, events: seq<Event>, again: Event)
    requires again in events
    ensures Join([base] + EventStatuses(events + [again])) == Join([base] + EventStatuses(events))
  {
    assert (events + [again])[..|events|] == events;
    EventStatusesContent(events);
    JoinIgnoresDelivery([base] + EventStatuses(events + [again]), [base] + EventStatuses(events));
  }

  lemma RedeliveredFill(orderId: string, events: seq<Event>, again: Event)
    requires again in events
    ensures Kept(orderId, events + [again]) == Kept(orderId, events)
  {
    assert (events + [again])[..|events|] == events;
    if CarriesFill(orderId, again) {
      QueueFillsContent(orderId, events);
      var fill := NormalizeFill(again.fill.value);
      assert fill in QueueFills(orderId, events);
      DedupeFromConcat({}, QueueFills(orderId, events), [fill]);
    }
  }

  // Redelivery: an event already in the log changes nothing at all.
  lemma RedeliveryChangesNothing(order: Order, events: seq<Event>, again: Event, snapshot: Option<ExchangeSnapshot>)
    requires again in events
    ensures Reconciled(order, events + [again], snapshot) == Reconciled(order, events, snapshot)
  {
    RedeliveredStatus(order.status, events, again);
    RedeliveredFill(order.orderId, events, again);
  }

  // Two outcomes that differ at most in the order in which they list the fills.
  predicate SameUpToFillOrder(a: Reconciliation, b: Reconciliation) {
    a.(fills := b.fills) == b && multiset(a.fills) == multiset(b.fills)
  }

  lemma ConcludeIgnoresFillOrder(order: Order, snapshot: Option<ExchangeSnapshot>, status: Status,
                                 a: seq<Fill>, b: seq<Fill>, usedFallback: bool)
    requires multiset(a) == multiset(b)
    ensures SameUpToFillOrder(Conclude(order, snapshot, status, a, usedFallback),
                              Conclude(order, snapshot, status, b, usedFallback))
  {
    SumOfPermutation(a, b, CountedQuantity);
    SumOfPermutation(a, b, CountedNotional);
  }

  lemma {:induction false} SnapshotMergeIgnoresOrder(a: seq<Fill>, b: seq<Fill>, extra: seq<Fill>)
    requires multiset(Dedupe(a)) == multiset(Dedupe(b)) && Ids(a) == Ids(b)
    ensures multiset(Dedupe(Dedupe(a) + extra)) == multiset(Dedupe(Dedupe(b) + extra))
  {
    DedupedIsFixed({}, a);
    DedupedIsFixed({}, b);
    DedupeFromConcat({}, Dedupe(a), extra);
    DedupeFromConcat({}, Dedupe(b), extra);
    assert {} + Ids(Dedupe(a)) == {} + Ids(Dedupe(b));
  }

  // Delivery: logs with the same events, in any order and with any repetition, reconcile to the
  // same status, quantities and price, with or without an exchange snapshot.
  lemma DeliveryDoesNotMatter(order: Order, a: seq<Event>, b: seq<Event>, snapshot: Option<ExchangeSnapshot>)
    requires forall e :: e in a <==> e in b
    requires Coherent(QueueFills(order.orderId, a))
    ensures SameUpToFillOrder(Reconciled(order, a, snapshot), Reconciled(order, b, snapshot))
  {
    EventStatusesContent(a);
    EventStatusesContent(b);
    JoinIgnoresDelivery([order.status] + EventStatuses(a), [order.status] + EventStatuses(b));
    QueueFillsContent(order.orderId, a);
    QueueFillsContent(order.orderId, b);
    var (fa, fb) := (QueueFills(order.orderId, a), QueueFills(order.orderId, b));
    FromSetToMultiset(fa, fb);
    SumOfPermutation(Dedupe(fa), Dedupe(fb), CountedQuantity);
    var status := Join([order.status] + EventStatuses(a));
    ConcludeIgnoresFillOrder(order, snapshot, status, Dedupe(fa), Dedupe(fb), false);
    if snapshot.Some? {
      var extra := NormalizeFills(snapshot.value.fills);
      SnapshotMergeIgnoresOrder(fa, fb, extra);
      ConcludeIgnoresFillOrder(order, snapshot, Join([status, snapshot.value.status]),
                               Dedupe(Dedupe(fa) + extra), Dedupe(Dedupe(fb) + extra), true);
    }
  }

  // One order's growing log

  function Updated(order: Order, r: Reconciliation): Order {
    order.(status := r.status, filledQuantity := r.filledQuantity, averagePrice := r.averagePrice)
  }

  // The order record after each event of the log was appended and the whole log reconciled.
  function Tracked(order: Order, events: seq<Event>): Order {
    if events == [] then order
    else
      var before := Tracked(order, events[..|events| - 1]);
      Updated(before, Reconciled(before, events, None))
  }

  lemma {:induction false} KeptGrows(orderId: string, events: seq<Event>, more: seq<Event>)
    ensures Kept(orderId, events) <= Kept(orderId, events + more)
    decreases |more|
  {
    if more == [] {
      assert events + more == events;
    } else {
      var shorter := events + more[..|more| - 1];
      KeptGrows(orderId, events, more[..|more| - 1]);
      assert (events + more)[..|events + more| - 1] == shorter;
      if CarriesFill(orderId, more[|more| - 1]) {
        DedupeFromConcat({}, QueueFills(orderId, shorter), [NormalizeFill(more[|more| - 1].fill.value)]);
      }
    }
  }

  lemma KeptQuantityGrows(orderId: string, events: seq<Event>, more: seq<Event>)
    ensures 0.0 <= FilledQuantity(Kept(orderId, events)) <= FilledQuantity(Kept(orderId, events + more))
  {
    KeptGrows(orderId, events, more);
    var (before, after) := (Kept(orderId, events), Kept(orderId, events + more));
    assert after == before + after[|before|..];
    SumOfConcat(before, after[|before|..], CountedQuantity);
    SumOfNonNegative(before, CountedQuantity);
    SumOfNonNegative(after[|before|..], CountedQuantity);
  }

  // The record of an order first seen by the worker.
  predicate Fresh(order: Order) {
    order.status.New? && order.filledQuantity == 0.0
  }

  lemma {:induction false} TrackedQuantity(order: Order, events: seq<Event>)
    requires Fresh(order)
    ensures
      var (kept, now) := (FilledQuantity(Kept(order.orderId, events)), Tracked(order, events));
      && now.filledQuantity == (if kept > EPSILON then kept else 0.0)
      && now.orderId == order.orderId && now.requestedQuantity == order.requestedQuantity
  {
    if events != [] {
      TrackedQuantity(order, events[..|events| - 1]);
      assert events == events[..|events| - 1] + events[|events| - 1..];
      KeptQuantityGrows(order.orderId, events[..|events| - 1], events[|events| - 1..]);
    }
  }

  lemma ReachedIsFilled(order: Order, events: seq<Event>)
    requires Fresh(order) && events != [] && order.requestedQuantity > EPSILON
    requires Tracked(order, events).filledQuantity >= order.requestedQuantity - EPSILON
    ensures Tracked(order, events).status.Filled?
  {
    TrackedQuantity(order, events[..|events| - 1]);
  }

  // As the log of a fresh order grows its filled quantity never decreases, and once it reaches
  // the requested quantity the order is Filled for good.
  lemma {:induction false} FilledQuantityNeverDecreases(order: Order, events: seq<Event>, more: seq<Event>)
    requires Fresh(order)
    ensures Tracked(order, events).filledQuantity <= Tracked(order, events + more).filledQuantity
    ensures order.requestedQuantity > EPSILON && events != []
            && Tracked(order, events).filledQuantity >= order.requestedQuantity - EPSILON
            ==> Tracked(order, events).status.Filled? && Tracked(order, events + more).status.Filled?
  {
    hide Tracked, Kept, FilledQuantity, Fresh;
    TrackedQuantity(order, events);
    TrackedQuantity(order, events + more);
    KeptQuantityGrows(order.orderId, events, more);
    if order.requestedQuantity > EPSILON && events != []
      && Tracked(order, events).filledQuantity >= order.requestedQuantity - EPSILON
    {
      ReachedIsFilled(order, events);
      ReachedIsFilled(order, events + more);
    }
  }

  // One reconciliation lowers the recorded quantity exactly when the log's fills count
  // (exceed EPSILON) and add up to less than what was recorded.
  lemma QuantityFallsExactly(order: Order, events: seq<Event>)
    ensures
      var counted := FilledQuantity(Kept(order.orderId, events));
      Reconciled(order, events, None).filledQuantity < order.filledQuantity
      <==> EPSILON < counted < order.filledQuantity
  {
  }

  // A Filled claim that the fills contradict.
  predicate ShortClaim(order: Order, events: seq<Event>) {
    var counted := FilledQuantity(Kept(order.orderId, events));
    var filled := if counted > EPSILON then counted else Max(0.0, order.filledQuantity);
    && Join([order.status] + EventStatuses(events)).Filled?
    && EPSILON < filled < order.requestedQuantity - EPSILON
  }

  // One reconciliation lowers the status exactly when a terminal order meets a short claim.
  lemma StatusFallsExactly(order: Order, events: seq<Event>)
    ensures Priority(Reconciled(order, events, None).status) < Priority(order.status)
            <==> Terminal(order.status) && ShortClaim(order, events)
  {
    var statuses := [order.status] + EventStatuses(events);
    assert order.status in statuses;
    assert Priority(order.status) <= Priority(Join(statuses));
  }

  lemma OneFillLog(orderId: string, eventType: EventType, fill: Fill)
    requires fill.orderId == orderId && fill.quantity >= 0.0
    ensures
      var log := [Event(eventType, None, Some(fill))];
      && Kept(orderId, log) == [fill]
      && FilledQuantity(Kept(orderId, log)) == fill.quantity
      && (EventStatus(log[0]).Some? ==> EventStatuses(log) == [EventStatus(log[0]).value])
  {
    var log := [Event(eventType, None, Some(fill))];
    assert log[..0] == [];
    assert QueueFills(orderId, log) == [fill];
    DedupeFromConcat({}, [fill], []);
    SumOfOne(fill, CountedQuantity);
  }

  // It does happen in a fresh order's log: a cancel event, then a Filled event that falls short,
  // and the canceled order is open again.
  lemma CanceledOrderReopened()
    ensures
      var order := Order("o", "s", "REAL", 2.0, New, 0.0, None);
      var cancel := Event(OrderCanceled, None, None);
      var claim := Event(OrderFilled, None, Some(Fill("f", "o", 1.0, 10.0, 0.0, "queue")));
      && Tracked(order, [cancel]).status == Canceled
      && Tracked(order, [cancel, claim]).status == PartiallyFilled
  {
    hide Tracked, Kept, FilledQuantity, QueueFills, EventStatus;
    var order := Order("o", "s", "REAL", 2.0, New, 0.0, None);
    var fill := Fill("f", "o", 1.0, 10.0, 0.0, "queue");
    var (cancel, claim) := (Event(OrderCanceled, None, None), Event(OrderFilled, None, Some(fill)));
    var (once, both) := ([cancel], [cancel, claim]);
    assert once + [claim] == both && both[..1] == once;
    NothingCounted("o", once);
    OneCounted("o", once, claim);
    TrackedQuantity(order, once);
    TrackedQuantity(order, both);
    KnownStatuses(cancel, claim);
    CanceledThenClaimed(order, once, both);
  }

  lemma KnownStatuses(cancel: Event, claim: Event)
    requires cancel.eventType.OrderCanceled? && cancel.status.None?
    requires claim.eventType.OrderFilled? && claim.status.None?
    ensures EventStatuses([cancel]) == [Canceled] && EventStatuses([cancel, claim]) == [Canceled, Filled]
  {
    var (once, both) := ([cancel], [cancel, claim]);
    assert once[..0] == [] && both[..1] == once;
    assert EventStatuses(once) == [] + [Canceled];
    assert EventStatuses(both) == [Canceled] + [Filled];
  }

  lemma CanceledThenClaimed(order: Order, once: seq<Event>, both: seq<Event>)
    requires Fresh(order) && order.requestedQuantity == 2.0 && |both| == 2 && once == both[..1]
    requires EventStatuses(once) == [Canceled] && EventStatuses(both) == [Canceled, Filled]
    requires Tracked(order, once).filledQuantity == 0.0 && Tracked(order, both).filledQuantity == 1.0
    ensures Tracked(order, once).status == Canceled && Tracked(order, both).status == PartiallyFilled
  {
    hide Tracked, Join, EventStatuses, Kept, FilledQuantity;
    assert once[..0] == [];
    TrackedQuantity(order, once);
    TrackedStep(order, once);
    TrackedStep(order, both);
    UntouchedRecord(order);
    JoinIsUnique(Canceled, [New] + [Canceled]);
    JoinIsUnique(Filled, [Canceled] + [Canceled, Filled]);
  }

  lemma UntouchedRecord(order: Order)
    ensures Tracked(order, []) == order
  {
  }

  lemma NothingCounted(orderId: string, log: seq<Event>)
    requires |log| == 1 && log[0].fill.None?
    ensures QueueFills(orderId, log) == [] && FilledQuantity(Kept(orderId, log)) == 0.0
  {
    assert log[..0] == [];
  }

  lemma OneCounted(orderId: string, log: seq<Event>, event: Event)
    requires |log| == 1 && log[0].fill.None? && CarriesFill(orderId, event) && event.fill.value.quantity >= 0.0
    ensures FilledQuantity(Kept(orderId, log + [event])) == event.fill.value.quantity
  {
    var (both, fill) := (log + [event], event.fill.value);
    assert both[..1] == log;
    NothingCounted(orderId, log);
    assert QueueFills(orderId, both) == [] + [NormalizeFill(fill)] == [fill];
    DedupeFromConcat({}, [fill], []);
    SumOfOne(fill, CountedQuantity);
  }

  // Every Filled claim in the log is backed by the quantity kept when it is reconciled.
  predicate ClaimsBacked(order: Order, events: seq<Event>) {
    forall n :: 0 < n <= |events| && Filled in EventStatuses(events[..n]) ==>
      Tracked(order, events[..n]).filledQuantity >= order.requestedQuantity - EPSILON
  }

  lemma {:induction false} BackedPrefix(order: Order, events: seq<Event>, n: nat)
    requires ClaimsBacked(order, events) && n <= |events|
    ensures ClaimsBacked(order, events[..n])
  {
    assert forall k :: 0 < k <= n ==> events[..n][..k] == events[..k];
  }

  lemma TrackedStep(order: Order, events: seq<Event>)
    requires events != []
    ensures
      var (before, now) := (Tracked(order, events[..|events| - 1]), Tracked(order, events));
      now.status == DeriveStatus(Join([before.status] + EventStatuses(events)),
                                 Max(0.0, before.requestedQuantity), now.filledQuantity)
  {
  }

  // One more event: a Filled status stays earned, and no short claim can arise.
  lemma {:induction false} BackedStep(order: Order, events: seq<Event>)
    requires Fresh(order) && ClaimsBacked(order, events) && events != []
    requires
      var before := Tracked(order, events[..|events| - 1]);
      order.requestedQuantity > EPSILON && before.status.Filled? ==>
        before.filledQuantity >= order.requestedQuantity - EPSILON
    ensures
      var before := Tracked(order, events[..|events| - 1]);
      && !ShortClaim(before, events)
      && (order.requestedQuantity > EPSILON && Tracked(order, events).status.Filled? ==>
            Tracked(order, events).filledQuantity >= order.requestedQuantity - EPSILON)
  {
    hide Kept, FilledQuantity, Tracked, Join, EventStatuses;
    var rest := events[..|events| - 1];
    assert events[..|events|] == events && rest + events[|events| - 1..] == events;
    TrackedStep(order, events);
    TrackedQuantity(order, rest);
    TrackedQuantity(order, events);
    FilledQuantityNeverDecreases(order, rest, events[|events| - 1..]);
    var statuses := [Tracked(order, rest).status] + EventStatuses(events);
    assert Join(statuses) in statuses + [New];
  }

  lemma {:induction false} BackedStatusIsEarned(order: Order, events: seq<Event>)
    requires Fresh(order) && ClaimsBacked(order, events)
    ensures order.requestedQuantity > EPSILON && Tracked(order, events).status.Filled? ==>
              Tracked(order, events).filledQuantity >= order.requestedQuantity - EPSILON
  {
    if events != [] {
      hide ClaimsBacked, Fresh, ShortClaim, Reconciled;
      BackedPrefix(order, events, |events| - 1);
      BackedStatusIsEarned(order, events[..|events| - 1]);
      BackedStep(order, events);
    }
  }

  // With backed claims the status priority of a fresh order never falls over its whole log.
  lemma {:induction false} StatusNeverFalls(order: Order, events: seq<Event>, more: seq<Event>)
    requires Fresh(order) && ClaimsBacked(order, events + more)
    ensures Priority(Tracked(order, events).status) <= Priority(Tracked(order, events + more).status)
    decreases |more|
  {
    hide ClaimsBacked, Fresh, ShortClaim, Reconciled, Priority;
    if more == [] {
      assert events + more == events;
    } else {
      var shorter := events + more[..|more| - 1];
      assert (events + more)[..|events + more| - 1] == shorter;
      BackedPrefix(order, events + more, |shorter|);
      StatusNeverFalls(order, events, more[..|more| - 1]);
      BackedStatusIsEarned(order, shorter);
      BackedStep(order, events + more);
      StatusFallsExactly(Tracked(order, shorter), events + more);
    }
  }

  // Exchange snapshots

  // The exchange is consulted exactly when it has filled more than the queue by over the minimum
  // gap, or is in a terminal state that outranks the queue's; otherwise its terminal state adds nothing.
  lemma FallbackExactly(status: Status, queued: real, s: ExchangeSnapshot)
    requires queued >= 0.0
    ensures RequiresFallback(status, queued, s) <==>
      s.filledQuantity > queued + MIN_FILL_GAP || (Terminal(s.status) && Priority(s.status) > Priority(status))
    ensures Terminal(s.status) && !RequiresFallback(status, queued, s) ==> Join([status, s.status]) == status
  {
    if Priority(s.status) <= Priority(status) {
      JoinIsUnique(status, [status, s.status]);
    }
  }

  // A snapshot never costs a fill: the fills kept from the log stay, in front.
  lemma SnapshotKeepsQueueFills(order: Order, events: seq<Event>, s: ExchangeSnapshot)
    ensures Kept(order.orderId, events) <= Reconciled(order, events, Some(s)).fills
  {
    var fills := QueueFills(order.orderId, events);
    DedupedIsFixed({}, fills);
    DedupeFromConcat({}, Dedupe(fills), NormalizeFills(s.fills));
  }

  // A terminal state of the exchange is always taken into account, consulted or not.
  lemma TerminalSnapshotIsHeard(order: Order, events: seq<Event>, s: ExchangeSnapshot)
    requires Terminal(s.status)
    ensures
      var r := Reconciled(order, events, Some(s));
      r.status == DeriveStatus(Join([order.status] + EventStatuses(events) + [s.status]),
                               Max(0.0, order.requestedQuantity), r.filledQuantity)
  {
    hide Kept, FilledQuantity, EventStatuses, AveragePrice, IsChanged, DeriveStatus, RequiresFallback, Dedupe;
    var statuses := [order.status] + EventStatuses(events);
    KeptQuantityGrows(order.orderId, events, []);
    FallbackExactly(Join(statuses), FilledQuantity(Kept(order.orderId, events)), s);
    JoinOfConcat(statuses, [s.status]);
    JoinIsUnique(s.status, [s.status]);
  }

  // Reconciling again

  // A recorded Filled that the fills contradict and the log does not claim, while the log knows
  // another terminal state.
  predicate Unsettled(order: Order, events: seq<Event>) {
    var last := Join(EventStatuses(events));
    && ShortClaim(order, events) && order.status.Filled?
    && (last.Canceled? || last.Rejected? || last.Expired?)
  }

  lemma JoinWithBase(base: Status, statuses: seq<Status>)
    ensures Join([base] + statuses) == if Priority(base) < Priority(Join(statuses)) then Join(statuses) else base
  {
    JoinIsUnique(if Priority(base) < Priority(Join(statuses)) then Join(statuses) else base, [base] + statuses);
  }

  // A second reconciliation of the same log confirms the first, except exactly for an unsettled
  // order, whose status then moves on to the log's terminal state.
  lemma {:induction false} ReconcilingAgainConfirms(order: Order, events: seq<Event>)
    ensures
      var first := Reconciled(order, events, None);
      var second := Reconciled(Updated(order, first), events, None);
      second == first.(changed := false) <==> !Unsettled(order, events)
  {
    hide Kept, FilledQuantity, EventStatuses, Join;
    var first := Reconciled(order, events, None);
    JoinWithBase(order.status, EventStatuses(events));
    JoinWithBase(first.status, EventStatuses(events));
  }

  // It happens to a record that was given as Filled with nothing filled: a cancel event that
  // brings a fill makes it PartiallyFilled, and the same log once more makes it Canceled.
  lemma ReconcilingAgainCancels()
    ensures
      var order := Order("o", "s", "REAL", 2.0, Filled, 0.0, None);
      var log := [Event(OrderCanceled, None, Some(Fill("f", "o", 1.0, 10.0, 0.0, "queue")))];
      var first := Reconciled(order, log, None);
      && first.status == PartiallyFilled
      && Reconciled(Updated(order, first), log, None).status == Canceled
  {
    hide Kept, FilledQuantity, EventStatuses, Join, AveragePrice;
    OneFillLog("o", OrderCanceled, Fill("f", "o", 1.0, 10.0, 0.0, "queue"));
    JoinIsUnique(Filled, [Filled] + [Canceled]);
    JoinIsUnique(Canceled, [PartiallyFilled] + [Canceled]);
  }

  // A fresh order becomes Filled by a claim in its log or by quantity.
  lemma {:induction false} FilledHasReason(order: Order, events: seq<Event>)
    requires Fresh(order)
    ensures Tracked(order, events).status.Filled? ==>
      || Filled in EventStatuses(events)
      || (order.requestedQuantity > EPSILON
          && Tracked(order, events).filledQuantity >= order.requestedQuantity - EPSILON)
  {
    if events != [] {
      hide Tracked, Kept, FilledQuantity, Join;
      var rest := events[..|events| - 1];
      assert rest + events[|events| - 1..] == events;
      FilledHasReason(order, rest);
      FilledQuantityNeverDecreases(order, rest, events[|events| - 1..]);
      TrackedQuantity(order, rest);
      TrackedStep(order, events);
    } else {
      assert Tracked(order, events).status.New?;
    }
  }

  // It never happens to the worker's own records: reconciling the log of an order that started
  // fresh a second time changes nothing.
  lemma {:induction false} WorkerRecordsAreSettled(order: Order, events: seq<Event>)
    requires Fresh(order) && events != []
    ensures !Unsettled(Tracked(order, events[..|events| - 1]), events)
    ensures
      var now := Tracked(order, events);
      && !Unsettled(now, events)
      && Updated(now, Reconciled(now, events, None)) == now && !Reconciled(now, events, None).changed
  {
    hide Tracked, Kept, FilledQuantity, Join, EventStatuses, Reconciled;
    var rest := events[..|events| - 1];
    assert rest + events[|events| - 1..] == events;
    var before := Tracked(order, rest);
    FilledHasReason(order, rest);
    StatusesGrow(events);
    TrackedQuantity(order, rest);
    TrackedQuantity(order, events);
    KeptQuantityGrows(order.orderId, rest, events[|events| - 1..]);
    FilledHasReason(order, events);
    TrackedLast(order, events);
    ReconcilingAgainConfirms(before, events);
  }

  lemma StatusesGrow(events: seq<Event>)
    requires events != []
    ensures Filled in EventStatuses(events[..|events| - 1]) ==> Filled in EventStatuses(events)
    ensures Filled in EventStatuses(events) ==> Join(EventStatuses(events)).Filled?
  {
    hide Join, EventStatus;
    FilledWins(EventStatuses(events));
  }

  lemma FilledWins(statuses: seq<Status>)
    ensures Filled in statuses ==> Join(statuses).Filled?
  {
    hide Join;
    assert IsJoin(Join(statuses), statuses);
  }

  lemma TrackedLast(order: Order, events: seq<Event>)
    requires events != []
    ensures
      var before := Tracked(order, events[..|events| - 1]);
      Tracked(order, events) == Updated(before, Reconciled(before, events, None))
  {
  }
}
