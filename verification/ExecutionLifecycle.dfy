/** The order tracker of `services/workers/execution_lifecycle.py`: intents are tracked, cumulative
    status snapshots arrive stale, repeated or out of order, deltas are published, and finished
    orders are evicted under a capacity bound. */
module ExecutionLifecycle {
  import opened Basics

  datatype Status = Submitted | PartiallyFilled | Filled | Canceled | Rejected | Expired | Unrecognized(name: string)

  predicate TerminalStatus(s: Status) {
    s.Filled? || s.Canceled? || s.Rejected? || s.Expired?
  }

  predicate FillStatus(s: Status) {
    s.PartiallyFilled? || s.Filled?
  }

  // The exchange's status word, already trimmed and lower-cased.
  function NormalizeStatus(word: string): Status {
    if word in {"", "submitted", "new", "open", "live", "init", "pending"} then Submitted
    else if word in {"partially_filled", "partial_fill", "partiallyfilled"} then PartiallyFilled
    else if word in {"filled", "closed"} then Filled
    else if word in {"cancelled", "canceled", "cancel"} then Canceled
    else if word in {"rejected", "reject"} then Rejected
    else if word == "expired" then Expired
    else Unrecognized(word)
  }

  // What an intent says about an order and no snapshot changes.
  datatype Details = Details(
    traceId: string, decisionId: string, strategyId: string, orderType: string, timeInForce: Option<string>,
    limitPrice: Option<real>, triggerPrice: Option<real>, reduceOnly: bool)

  // Absent order ids are empty strings.
  datatype TrackedOrder = TrackedOrder(
    key: string, details: Details, exchange: string, symbol: string, action: string, requestedQuantity: real,
    clientOrderId: string, exchangeOrderId: string, status: Status, reportedFilled: real, reportedFee: real,
    averagePrice: Option<real>, emittedEvents: nat, terminalMarkedAt: Option<real>)

  datatype Snapshot = Snapshot(
    exchange: string, symbol: string, status: string, exchangeOrderId: string, clientOrderId: string,
    filledTotal: real, averagePrice: Option<real>, feeTotal: Option<real>)

  // The published order event; its idempotency key is made of `key`, `source` and `sequence`.
  datatype Event = Event(
    key: string, source: string, sequence: nat, status: Status, exchangeOrderId: string, clientOrderId: string,
    quantity: real, fillPrice: Option<real>, feePaid: real)

  datatype Intent = Intent(
    validEnvelope: bool, mode: string, eventType: string, key: string, exchange: string, symbol: string,
    action: string, quantity: real, clientOrderId: string, exchangeOrderId: string, details: Details)

  datatype Config = Config(maxTrackedOrders: nat, terminalRetention: real)

  // Snapshots

  function PositiveOrNone(x: Option<real>): Option<real> {
    if x.Some? && x.value > 0.0 then x else None
  }

  // Ids the order does not have yet are taken from the snapshot.
  function Attach(o: TrackedOrder, s: Snapshot): TrackedOrder {
    o.(exchangeOrderId := if o.exchangeOrderId == "" then s.exchangeOrderId else o.exchangeOrderId,
       clientOrderId := if o.clientOrderId == "" then s.clientOrderId else o.clientOrderId)
  }

  // Cumulative totals: a snapshot that lags behind what was reported counts as no news.
  function FilledTotal(o: TrackedOrder, s: Snapshot): real {
    Max(o.reportedFilled, Max(0.0, s.filledTotal))
  }

  function FeeTotal(o: TrackedOrder, s: Snapshot): real {
    Max(o.reportedFee, Max(0.0, if s.feeTotal.Some? then s.feeTotal.value else 0.0))
  }

  function FillGrowth(o: TrackedOrder, s: Snapshot): real {
    Max(0.0, FilledTotal(o, s) - o.reportedFilled)
  }

  function FeeGrowth(o: TrackedOrder, s: Snapshot): real {
    Max(0.0, FeeTotal(o, s) - o.reportedFee)
  }

  // The quantity an event for this snapshot would carry; nothing is published unless it is positive.
  function EventQuantity(o: TrackedOrder, s: Snapshot): real {
    var status := NormalizeStatus(s.status);
    if !FillStatus(status) then o.requestedQuantity
    else if FillGrowth(o, s) > 0.0 then FillGrowth(o, s)
    else if status.Filled? then Max(0.0, o.requestedQuantity - o.reportedFilled)
    else 0.0
  }

  predicate Publishes(o: TrackedOrder, s: Snapshot) {
    var status := NormalizeStatus(s.status);
    && (status != o.status || FillGrowth(o, s) > 0.0 || FeeGrowth(o, s) > 0.0)
    && !status.Unrecognized?
    && EventQuantity(o, s) > 0.0
  }

  function EventFor(o: TrackedOrder, s: Snapshot, source: string): Event {
    Event(o.key, source, o.emittedEvents + 1, NormalizeStatus(s.status), o.exchangeOrderId, o.clientOrderId,
          EventQuantity(o, s), AveragePriceAfter(o, s), FeeGrowth(o, s))
  }

  function AveragePriceAfter(o: TrackedOrder, s: Snapshot): Option<real> {
    if PositiveOrNone(s.averagePrice).Some? then s.averagePrice else o.averagePrice
  }

  function AfterEvent(o: TrackedOrder, s: Snapshot, now: real): TrackedOrder {
    var status := NormalizeStatus(s.status);
    o.(status := status, averagePrice := AveragePriceAfter(o, s), reportedFilled := FilledTotal(o, s),
       reportedFee := FeeTotal(o, s), emittedEvents := o.emittedEvents + 1,
       terminalMarkedAt := if TerminalStatus(status) then Some(now) else o.terminalMarkedAt)
  }

  // The order after a snapshot that resolves to it, and the event published, if any.
  function Observed(o: TrackedOrder, s: Snapshot, source: string, now: real): (TrackedOrder, Option<Event>) {
    var attached := Attach(o, s);
    if Publishes(attached, s) then (AfterEvent(attached, s, now), Some(EventFor(attached, s, source)))
    else (attached, None)
  }

  // Resolution

  function FirstIndex(tracked: seq<TrackedOrder>, p: TrackedOrder -> bool): (r: Option<nat>)
    ensures r.Some? ==> r.value < |tracked| && p(tracked[r.value]) && forall j :: 0 <= j < r.value ==> !p(tracked[j])
    ensures r.None? ==> forall j :: 0 <= j < |tracked| ==> !p(tracked[j])
  {
    if tracked == [] then None
    else
      var earlier := FirstIndex(tracked[..|tracked| - 1], p);
      if earlier.Some? then earlier else if p(tracked[|tracked| - 1]) then Some(|tracked| - 1) else None
  }

  function HasExchangeId(exchange: string, id: string): TrackedOrder -> bool {
    (o: TrackedOrder) => o.exchange == exchange && o.exchangeOrderId == id
  }

  function HasClientId(exchange: string, id: string): TrackedOrder -> bool {
    (o: TrackedOrder) => o.exchange == exchange && o.clientOrderId == id
  }

  function Trades(exchange: string, symbol: string): TrackedOrder -> bool {
    (o: TrackedOrder) => o.exchange == exchange && o.symbol == symbol
  }

  function HasKey(key: string): TrackedOrder -> bool {
    (o: TrackedOrder) => o.key == key
  }

  function ById(id: string, tracked: seq<TrackedOrder>, p: TrackedOrder -> bool): Option<nat> {
    if id == "" then None else FirstIndex(tracked, p)
  }

  // The index of the only match, if there is exactly one.
  function OnlyIndex(tracked: seq<TrackedOrder>, p: TrackedOrder -> bool): Option<nat> {
    var first := FirstIndex(tracked, p);
    if first.Some? && FirstIndex(tracked[first.value + 1..], p).None? then first else None
  }

  function Resolve(tracked: seq<TrackedOrder>, s: Snapshot): (r: Option<nat>)
    ensures r.Some? ==> r.value < |tracked|
  {
    if s.exchange == "" then None
    else
      var byExchangeId := ById(s.exchangeOrderId, tracked, HasExchangeId(s.exchange, s.exchangeOrderId));
      if byExchangeId.Some? then byExchangeId
      else
        var byClientId := ById(s.clientOrderId, tracked, HasClientId(s.exchange, s.clientOrderId));
        if byClientId.Some? then byClientId
        else if s.symbol == "" then None
        else OnlyIndex(tracked, Trades(s.exchange, s.symbol))
  }

  // Eviction

  predicate Evictable(o: TrackedOrder, c: Config, force: bool, now: real) {
    TerminalStatus(o.status)
    && (o.terminalMarkedAt.None? || force || now - o.terminalMarkedAt.value >= c.terminalRetention)
  }

  function Retained(tracked: seq<TrackedOrder>, c: Config, force: bool, now: real): (kept: seq<TrackedOrder>)
    ensures forall o :: o in kept <==> o in tracked && !Evictable(o, c, force, now)
    ensures |kept| <= |tracked|
  {
    if tracked == [] then []
    else
      var (rest, last) := (Retained(tracked[..|tracked| - 1], c, force, now), tracked[|tracked| - 1]);
      assert tracked == tracked[..|tracked| - 1] + [last];
      if Evictable(last, c, force, now) then rest else rest + [last]
  }

  // Intents

  predicate ValidIntent(i: Intent) {
    && i.validEnvelope && i.mode == "REAL" && i.eventType == "execution.intent.created"
    && i.key != "" && i.exchange != "" && i.symbol != "" && i.action in {"BUY", "SELL", "CLOSE"}
    && Abs(i.quantity) > 0.0
  }

  function NewOrder(i: Intent): TrackedOrder {
    TrackedOrder(i.key, i.details, i.exchange, i.symbol, i.action, Abs(i.quantity), i.clientOrderId, i.exchangeOrderId,
                 Submitted, 0.0, 0.0, None, 0, None)
  }

  function Renewed(o: TrackedOrder, i: Intent): TrackedOrder {
    o.(clientOrderId := if i.clientOrderId != "" then i.clientOrderId else o.clientOrderId,
       exchangeOrderId := if i.exchangeOrderId != "" then i.exchangeOrderId else o.exchangeOrderId,
       requestedQuantity := Abs(i.quantity), action := i.action)
  }

  // The tracked orders after an intent; None when the intent is refused.
  function Tracking(tracked: seq<TrackedOrder>, c: Config, i: Intent, now: real):
    (seq<TrackedOrder>, Option<TrackedOrder>)
  {
    if !ValidIntent(i) then (tracked, None)
    else
      var existing := FirstIndex(tracked, HasKey(i.key));
      if existing.Some? then
        var o := Renewed(tracked[existing.value], i);
        (tracked[existing.value := o], Some(o))
      else
        var room := if |tracked| >= c.maxTrackedOrders then Retained(tracked, c, true, now) else tracked;
        if |room| >= c.maxTrackedOrders then (room, None) else (room + [NewOrder(i)], Some(NewOrder(i)))
  }

  // The worker

  datatype State = State(tracked: seq<TrackedOrder>, published: seq<Event>)

  function Observing(st: State, s: Snapshot, source: string, now: real): State {
    var index := Resolve(st.tracked, s);
    if index.None? then st
    else
      var (o, event) := Observed(st.tracked[index.value], s, source, now);
      State(st.tracked[index.value := o], if event.Some? then st.published + [event.value] else st.published)
  }

  class Worker {
    const config: Config
    var tracked: seq<TrackedOrder>
    var published: seq<Event>

    ghost function View(): State
      reads this
    {
      State(tracked, published)
    }

    constructor (maxTrackedOrders: int, terminalRetention: real)
      ensures View() == State([], [])
      ensures config.maxTrackedOrders >= 10 && config.terminalRetention >= 0.0
    {
      config := Config(if maxTrackedOrders < 10 then 10 else maxTrackedOrders, Max(0.0, terminalRetention));
      tracked, published := [], [];
    }

    method EvictTerminalOrders(force: bool, now: real)
      modifies this`tracked
      ensures tracked == Retained(old(tracked), config, force, now)
    {
      var kept: seq<TrackedOrder> := [];
      for i := 0 to |tracked|
        invariant tracked == old(tracked) && kept == Retained(tracked[..i], config, force, now)
      {
        assert tracked[..i + 1][..i] == tracked[..i];
        var order := tracked[i];
        if !TerminalStatus(order.status) {
          kept := kept + [order];
        } else if order.terminalMarkedAt.Some? && !force
          && now - order.terminalMarkedAt.value < config.terminalRetention
        {
          kept := kept + [order];
        }
      }
      assert tracked[..|tracked|] == tracked;
      tracked := kept;
    }

    method TrackExecutionIntent(i: Intent, now: real) returns (order: Option<TrackedOrder>)
      modifies this`tracked
      ensures (tracked, order) == Tracking(old(tracked), config, i, now)
    {
      if !ValidIntent(i) {
        return None;
      }
      var existing := FirstIndex(tracked, HasKey(i.key));
      if existing.Some? {
        var renewed := Renewed(tracked[existing.value], i);
        tracked := tracked[existing.value := renewed];
        return Some(renewed);
      }
      if |tracked| >= config.maxTrackedOrders {
        EvictTerminalOrders(true, now);
        if |tracked| >= config.maxTrackedOrders {
          return None;
        }
      }
      tracked := tracked + [NewOrder(i)];
      return Some(NewOrder(i));
    }

    method ApplySnapshot(s: Snapshot, source: string, now: real) returns (did: bool)
      modifies this
      ensures View() == Observing(old(View()), s, source, now)
      ensures did <==> |published| == |old(published)| + 1
    {
      hide NormalizeStatus, Resolve;
      var index := Resolve(tracked, s);
      if index.None? {
        return false;
      }
      var order := Attach(tracked[index.value], s);
      tracked := tracked[index.value := order];

      var status := NormalizeStatus(s.status);
      var totalFilled := Max(0.0, s.filledTotal);
      if totalFilled < order.reportedFilled {
        totalFilled := order.reportedFilled;
      }
      var fillDelta := Max(0.0, totalFilled - order.reportedFilled);
      var feeTotal := Max(0.0, if s.feeTotal.Some? then s.feeTotal.value else 0.0);
      if feeTotal < order.reportedFee {
        feeTotal := order.reportedFee;
      }
      var feeDelta := Max(0.0, feeTotal - order.reportedFee);
      if status == order.status && fillDelta <= 0.0 && feeDelta <= 0.0 {
        return false;
      }
      if status.Unrecognized? {
        return false;
      }
      if FillStatus(status) && fillDelta <= 0.0 {
        if status.Filled? {
          fillDelta := Max(0.0, order.requestedQuantity - order.reportedFilled);
        }
        if fillDelta <= 0.0 {
          return false;
        }
      }
      var quantity := if FillStatus(status) then fillDelta else order.requestedQuantity;
      if quantity <= 0.0 {
        return false;
      }
      var average := if PositiveOrNone(s.averagePrice).Some? then s.averagePrice else order.averagePrice;
      published := published + [Event(order.key, source, order.emittedEvents + 1, status, order.exchangeOrderId,
        order.clientOrderId, quantity, average, if feeDelta > 0.0 then feeDelta else 0.0)];
      tracked := tracked[index.value := order.(
        emittedEvents := order.emittedEvents + 1, status := status, averagePrice := average,
        reportedFilled := Max(order.reportedFilled, totalFilled), reportedFee := Max(order.reportedFee, feeTotal),
        terminalMarkedAt := if TerminalStatus(status) then Some(now) else order.terminalMarkedAt)];
      return true;
    }
  }

  // Repeating a snapshot

  lemma RepeatedObservation(o: TrackedOrder, s: Snapshot, source: string, now: real, source': string, now': real)
    ensures Observed(Observed(o, s, source, now).0, s, source', now') == (Observed(o, s, source, now).0, None)
  {
    hide NormalizeStatus;
    assert Attach(Attach(o, s), s) == Attach(o, s);
  }

  lemma FirstIndexIs(tracked: seq<TrackedOrder>, p: TrackedOrder -> bool, i: nat)
    requires i < |tracked| && p(tracked[i]) && forall j :: 0 <= j < i ==> !p(tracked[j])
    ensures FirstIndex(tracked, p) == Some(i)
  {
  }

  lemma NoIndex(tracked: seq<TrackedOrder>, p: TrackedOrder -> bool)
    requires forall j :: 0 <= j < |tracked| ==> !p(tracked[j])
    ensures FirstIndex(tracked, p) == None
  {
  }

  predicate Matched(tracked: seq<TrackedOrder>, p: TrackedOrder -> bool) {
    exists i :: 0 <= i < |tracked| && p(tracked[i])
  }

  predicate OnlyMatch(tracked: seq<TrackedOrder>, p: TrackedOrder -> bool, i: nat) {
    i < |tracked| && p(tracked[i]) && forall j :: 0 <= j < |tracked| && p(tracked[j]) ==> j == i
  }

  lemma OnlyIndexExactly(tracked: seq<TrackedOrder>, p: TrackedOrder -> bool, i: nat)
    ensures OnlyIndex(tracked, p) == Some(i) <==> OnlyMatch(tracked, p, i)
  {
    var first := FirstIndex(tracked, p);
    if first.Some? {
      var later := tracked[first.value + 1..];
      assert forall j :: first.value < j < |tracked| ==> tracked[j] == later[j - first.value - 1];
      if OnlyMatch(tracked, p, i) {
        NoIndex(later, p);
      }
    }
  }

  // The first order that matches.
  predicate FirstMatch(tracked: seq<TrackedOrder>, p: TrackedOrder -> bool, i: nat) {
    i < |tracked| && p(tracked[i]) && forall j :: 0 <= j < i ==> !p(tracked[j])
  }

  // A snapshot goes to the first order with its exchange id if there is one, else to the first
  // with its client id, and else to the only order tracked for its exchange and symbol.
  lemma ResolutionExactly(tracked: seq<TrackedOrder>, s: Snapshot, i: nat)
    requires s.exchange != ""
    ensures
      var (r, byId) := (Resolve(tracked, s), HasExchangeId(s.exchange, s.exchangeOrderId));
      var (byClient, trades) := (HasClientId(s.exchange, s.clientOrderId), Trades(s.exchange, s.symbol));
      if s.exchangeOrderId != "" && Matched(tracked, byId) then r == Some(i) <==> FirstMatch(tracked, byId, i)
      else if s.clientOrderId != "" && Matched(tracked, byClient) then
        r == Some(i) <==> FirstMatch(tracked, byClient, i)
      else r == Some(i) <==> s.symbol != "" && OnlyMatch(tracked, trades, i)
  {
    hide OnlyIndex, OnlyMatch;
    OnlyIndexExactly(tracked, Trades(s.exchange, s.symbol), i);
  }

  // Replacing an order by one that the search treats alike changes no search.
  lemma SearchUnchanged(tracked: seq<TrackedOrder>, i: nat, o: TrackedOrder, p: TrackedOrder -> bool)
    requires i < |tracked| && p(o) == p(tracked[i])
    ensures FirstIndex(tracked[i := o], p) == FirstIndex(tracked, p)
  {
    var first := FirstIndex(tracked, p);
    if first.Some? {
      FirstIndexIs(tracked[i := o], p, first.value);
    } else {
      NoIndex(tracked[i := o], p);
    }
  }

  lemma OnlyUnchanged(tracked: seq<TrackedOrder>, i: nat, o: TrackedOrder, p: TrackedOrder -> bool)
    requires i < |tracked| && p(o) == p(tracked[i])
    ensures OnlyIndex(tracked[i := o], p) == OnlyIndex(tracked, p)
  {
    SearchUnchanged(tracked, i, o, p);
    var first := FirstIndex(tracked, p);
    if first.Some? {
      var k := first.value + 1;
      if i < k {
        assert tracked[i := o][k..] == tracked[k..];
      } else {
        assert tracked[i := o][k..] == tracked[k..][i - k := o];
        SearchUnchanged(tracked[k..], i - k, o, p);
      }
    }
  }

  // A search that found nothing finds an order that has just acquired the property.
  lemma SearchFindsNew(tracked: seq<TrackedOrder>, i: nat, o: TrackedOrder, p: TrackedOrder -> bool)
    requires i < |tracked| && FirstIndex(tracked, p).None? && p(o)
    ensures FirstIndex(tracked[i := o], p) == Some(i)
  {
    FirstIndexIs(tracked[i := o], p, i);
  }

  // The same snapshot resolves to the same order even after it attached its ids.
  lemma ResolutionIsStable(tracked: seq<TrackedOrder>, s: Snapshot, o: TrackedOrder)
    requires Resolve(tracked, s).Some?
    requires
      var attached := Attach(tracked[Resolve(tracked, s).value], s);
      && o.exchange == attached.exchange && o.symbol == attached.symbol
      && o.exchangeOrderId == attached.exchangeOrderId && o.clientOrderId == attached.clientOrderId
    ensures Resolve(tracked[Resolve(tracked, s).value := o], s) == Resolve(tracked, s)
  {
    hide FirstIndex, OnlyIndex;
    var i := Resolve(tracked, s).value;
    var before := tracked[i];
    var byExchangeId := HasExchangeId(s.exchange, s.exchangeOrderId);
    var byClientId := HasClientId(s.exchange, s.clientOrderId);
    var after := tracked[i := o];
    if byExchangeId(o) == byExchangeId(before) {
      SearchUnchanged(tracked, i, o, byExchangeId);
      if byClientId(o) == byClientId(before) {
        SearchUnchanged(tracked, i, o, byClientId);
        OnlyUnchanged(tracked, i, o, Trades(s.exchange, s.symbol));
      } else if s.clientOrderId != "" && FirstIndex(tracked, byClientId).None? {
        SearchFindsNew(tracked, i, o, byClientId);
      }
    } else if s.exchangeOrderId != "" && FirstIndex(tracked, byExchangeId).None? {
      SearchFindsNew(tracked, i, o, byExchangeId);
    }
  }

  // Applying one snapshot twice in a row resolves to one order, publishes at most one event, and
  // the second application changes nothing.
  lemma RepeatedSnapshot(st: State, s: Snapshot, source: string, now: real, source': string, now': real)
    ensures
      var once := Observing(st, s, source, now);
      && Observing(once, s, source', now') == once
      && Resolve(once.tracked, s) == Resolve(st.tracked, s)
      && |once.published| <= |st.published| + 1
  {
    hide Resolve, Observed;
    if Resolve(st.tracked, s).Some? {
      var i := Resolve(st.tracked, s).value;
      var o := Observed(st.tracked[i], s, source, now).0;
      ObservedKeepsAddress(st.tracked[i], s, source, now);
      ResolutionIsStable(st.tracked, s, o);
      RepeatedObservation(st.tracked[i], s, source, now, source', now');
    }
  }

  lemma ObservedKeepsAddress(o: TrackedOrder, s: Snapshot, source: string, now: real)
    ensures
      var (after, attached) := (Observed(o, s, source, now).0, Attach(o, s));
      && after.exchange == attached.exchange && after.symbol == attached.symbol
      && after.exchangeOrderId == attached.exchangeOrderId && after.clientOrderId == attached.clientOrderId
  {
  }
}
