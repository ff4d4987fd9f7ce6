/** Over a run of the order-management worker, the order records and the positions tell the
    same story: `services/workers/oms_lifecycle.py` with `services/oms/fill_reconciliation.py`. */
module OrderAndPositionViews {
  import opened Basics
  import opened Sums
  import opened OrderStatus
  import R = FillReconciliation
  import P = PositionEngine
  import opened OmsLifecycle

  predicate Concerns(e: Envelope, o: string) {
    Effective(e) && e.payload.value.orderId == o
  }

  // Order logs and order records

  function OrderLog(es: seq<Envelope>, o: string): seq<R.Event> {
    if es == [] then []
    else
      var (rest, last) := (OrderLog(es[..|es| - 1], o), es[|es| - 1]);
      if Concerns(last, o) then rest + [ToEvent(last)] else rest
  }

  // The quantity of the first envelope of an order, which becomes the requested quantity.
  function FirstQuantity(es: seq<Envelope>, o: string): real {
    if es == [] then 0.0
    else if OrderLog(es[..|es| - 1], o) != [] then FirstQuantity(es[..|es| - 1], o)
    else if Concerns(es[|es| - 1], o) then Abs(es[|es| - 1].payload.value.quantity.value)
    else 0.0
  }

  // The record of an order at its first envelope, apart from the symbol and mode it names.
  function FirstRecord(es: seq<Envelope>, o: string): R.Order {
    R.Order(o, "", "", FirstQuantity(es, o), New, 0.0, None)
  }

  // The same order but for the symbol and mode, which reconciliation does not read.
  predicate SameAccount(a: R.Order, b: R.Order) {
    a.(symbol := b.symbol, mode := b.mode) == b
  }

  lemma ReconciliationIgnoresTerms(a: R.Order, b: R.Order, events: seq<R.Event>)
    requires SameAccount(a, b)
    ensures R.Reconciled(a, events, None) == R.Reconciled(b, events, None)
  {
    hide R.Kept, R.FilledQuantity, R.AveragePrice, R.DeriveStatus, Join, R.EventStatuses;
  }

  lemma {:induction false} RunKeepsLogs(es: seq<Envelope>, o: string)
    ensures LogOf(Run(es), o) == OrderLog(es, o)
    ensures o in Run(es).orders <==> OrderLog(es, o) != []
  {
    if es != [] {
      RunKeepsLogs(es[..|es| - 1], o);
      AdvanceOneOrder(Run(es[..|es| - 1]), es[|es| - 1], o);
    }
  }

  // What one envelope does to one order.
  lemma AdvanceOneOrder(st: State, e: Envelope, o: string)
    ensures
      var next := Advance(st, e);
      if Concerns(e, o) then
        && LogOf(next, o) == LogOf(st, o) + [ToEvent(e)]
        && o in next.orders && next.orders[o] == UpdatedOrder(st, e)
        && next.orderIds == (if o in st.orders then st.orderIds else st.orderIds + [o])
      else
        && LogOf(next, o) == LogOf(st, o)
        && (o in next.orders <==> o in st.orders)
        && (o in st.orders ==> next.orders[o] == st.orders[o])
        && (!Effective(e) ==> next.orderIds == st.orderIds)
  {
    hide P.ApplyFill, UpdatedOrder, ToEvent, ToPositionFill;
  }

  // Over every run, whatever the envelopes say about symbol, side and mode and even when the
  // position engine refuses their fills, each order record is the reconciler's account of the
  // order's own log.
  lemma {:induction false} RunTracksOrders(es: seq<Envelope>, o: string)
    requires o in Run(es).orders
    ensures SameAccount(Run(es).orders[o], R.Tracked(FirstRecord(es, o), OrderLog(es, o)))
  {
    hide R.Reconciled, Advance, ToEvent;
    var (rest, last) := (es[..|es| - 1], es[|es| - 1]);
    RunKeepsLogs(rest, o);
    RunKeepsLogs(es, o);
    AdvanceOneOrder(Run(rest), last, o);
    if o in Run(rest).orders {
      RunTracksOrders(rest, o);
    }
    if Concerns(last, o) {
      assert SameAccount(ExistingOrder(Run(rest), last.payload.value),
                         R.Tracked(FirstRecord(es, o), OrderLog(rest, o)));
      UpdateTracks(Run(rest), last, FirstRecord(es, o));
    }
  }

  lemma {:induction false} TrackedKeepsIdentity(order: R.Order, events: seq<R.Event>)
    ensures R.Tracked(order, events).orderId == order.orderId
  {
    hide R.Reconciled;
    if events != [] {
      TrackedKeepsIdentity(order, events[..|events| - 1]);
    }
  }

  lemma UpdateTracks(st: State, e: Envelope, first: R.Order)
    requires Concerns(e, first.orderId)
    requires SameAccount(ExistingOrder(st, e.payload.value), R.Tracked(first, LogOf(st, first.orderId)))
    ensures SameAccount(UpdatedOrder(st, e), R.Tracked(first, LogOf(st, first.orderId) + [ToEvent(e)]))
  {
    hide R.Reconciled, ToEvent, ExistingOrder;
    var before := R.Tracked(first, LogOf(st, first.orderId));
    var log := LogOf(st, first.orderId) + [ToEvent(e)];
    assert log[..|log| - 1] == LogOf(st, first.orderId);
    ReconciliationIgnoresTerms(ExistingOrder(st, e.payload.value), before, log);
    assert UpdatedOrder(st, e).orderId == first.orderId && before.orderId == first.orderId by {
      TrackedKeepsIdentity(first, LogOf(st, first.orderId));
    }
  }

  lemma {:induction false} OrderLogConcat(es: seq<Envelope>, more: seq<Envelope>, o: string)
    ensures OrderLog(es + more, o) == OrderLog(es, o) + OrderLog(more, o)
    ensures OrderLog(es, o) != [] ==> FirstQuantity(es + more, o) == FirstQuantity(es, o)
  {
    if more == [] {
      assert es + more == es;
    } else {
      OrderLogConcat(es, more[..|more| - 1], o);
      assert (es + more)[..|es + more| - 1] == es + more[..|more| - 1];
    }
  }

  // Over every run of the worker an order's requested quantity is fixed, its filled quantity never
  // decreases, and once that reaches the requested quantity the order is Filled for good; with
  // every Filled claim backed by quantity its status never falls.
  lemma {:induction false} WorkerOrdersProgress(es: seq<Envelope>, more: seq<Envelope>, o: string)
    requires o in Run(es).orders
    ensures o in Run(es + more).orders
    ensures
      var (before, after) := (Run(es).orders[o], Run(es + more).orders[o]);
      && after.requestedQuantity == before.requestedQuantity
      && before.filledQuantity <= after.filledQuantity
      && (before.requestedQuantity > EPSILON && before.filledQuantity >= before.requestedQuantity - EPSILON ==>
            before.status.Filled? && after.status.Filled?)
      && (R.ClaimsBacked(FirstRecord(es, o), OrderLog(es + more, o)) ==>
            Priority(before.status) <= Priority(after.status))
  {
    hide R.Tracked, R.ClaimsBacked, Run, Priority, FirstQuantity;
    var (first, log, added) := (FirstRecord(es, o), OrderLog(es, o), OrderLog(more, o));
    OrderLogConcat(es, more, o);
    RunKeepsLogs(es, o);
    RunKeepsLogs(es + more, o);
    RunTracksOrders(es, o);
    RunTracksOrders(es + more, o);
    R.TrackedQuantity(first, log);
    R.TrackedQuantity(first, log + added);
    R.FilledQuantityNeverDecreases(first, log, added);
    if R.ClaimsBacked(first, log + added) {
      R.StatusNeverFalls(first, log, added);
    }
  }

  // Deliveries and redeliveries

  // A fill with this order and timestamp was delivered before.
  predicate Delivered(es: seq<Envelope>, o: string, at: string) {
    exists d :: d in es && IsFill(d) && d.payload.value.orderId == o && d.emittedAt == at
  }

  lemma FillIdIsInjective(o: string, at: string, at': string)
    ensures FillId(o, at) == FillId(o, at') <==> at == at'
  {
    var prefix := "fill:" + o + ":";
    assert FillId(o, at) == prefix + at && FillId(o, at') == prefix + at';
    assert FillId(o, at)[|prefix|..] == at && FillId(o, at')[|prefix|..] == at';
  }

  lemma DeliveredOneMore(es: seq<Envelope>, o: string, at: string)
    requires es != []
    ensures
      var last := es[|es| - 1];
      Delivered(es, o, at) <==>
        Delivered(es[..|es| - 1], o, at) || (IsFill(last) && last.payload.value.orderId == o && last.emittedAt == at)
  {
    assert es == es[..|es| - 1] + [es[|es| - 1]];
  }

  lemma IdsOneMore(fills: seq<R.Fill>, fill: R.Fill)
    ensures R.Ids(fills + [fill]) == R.Ids(fills) + {fill.fillId}
  {
  }

  // The reconciler has seen an id exactly when that delivery happened.
  lemma {:induction false} SeenIsDelivered(es: seq<Envelope>, o: string, at: string)
    ensures FillId(o, at) in R.Ids(R.QueueFills(o, OrderLog(es, o))) <==> Delivered(es, o, at)
  {
    hide FillId, R.Ids, Delivered;
    if es == [] {
      R.IdsOfCons([]);
      NothingDelivered(o, at);
    } else {
      var (rest, last) := (es[..|es| - 1], es[|es| - 1]);
      SeenIsDelivered(rest, o, at);
      DeliveredOneMore(es, o, at);
      if Concerns(last, o) {
        var log := OrderLog(es, o);
        assert log[..|log| - 1] == OrderLog(rest, o);
        if IsFill(last) {
          IdsOneMore(R.QueueFills(o, OrderLog(rest, o)), R.NormalizeFill(ToEvent(last).fill.value));
          FillIdIsInjective(o, at, last.emittedAt);
        }
      }
    }
  }

  lemma NothingDelivered(o: string, at: string)
    ensures !Delivered([], o, at)
  {
  }

  function Redelivered(es: seq<Envelope>, s: string): real {
    if es == [] then 0.0
    else
      var (rest, last) := (es[..|es| - 1], es[|es| - 1]);
      Redelivered(rest, s)
      + if IsFill(last) && last.payload.value.symbol == s && Delivered(rest, last.payload.value.orderId, last.emittedAt)
        then P.Signed(ToPositionFill(last)) else 0.0
  }

  // Signed holdings

  // The envelope that first delivered a fill id for an order.
  function DeliveryOf(es: seq<Envelope>, o: string, id: string): Option<Envelope> {
    if es == [] then None
    else
      var (earlier, last) := (DeliveryOf(es[..|es| - 1], o, id), es[|es| - 1]);
      if earlier.Some? then earlier
      else if Concerns(last, o) && IsFill(last) && FillId(o, last.emittedAt) == id then Some(last)
      else None
  }

  lemma {:induction false} DeliveryContent(es: seq<Envelope>, o: string, id: string)
    ensures id in R.Ids(R.QueueFills(o, OrderLog(es, o))) <==> DeliveryOf(es, o, id).Some?
    ensures DeliveryOf(es, o, id).Some? ==>
      var e := DeliveryOf(es, o, id).value; e in es && Concerns(e, o) && IsFill(e)
  {
    hide FillId, R.Ids;
    if es == [] {
      R.IdsOfCons([]);
    } else {
      var (rest, last) := (es[..|es| - 1], es[|es| - 1]);
      DeliveryContent(rest, o, id);
      if Concerns(last, o) {
        var log := OrderLog(es, o);
        assert log[..|log| - 1] == OrderLog(rest, o);
        if IsFill(last) {
          IdsOneMore(R.QueueFills(o, OrderLog(rest, o)), R.NormalizeFill(ToEvent(last).fill.value));
        }
      }
    }
  }

  lemma KeptIsDelivered(es: seq<Envelope>, o: string, f: R.Fill)
    requires f in R.Kept(o, OrderLog(es, o))
    ensures DeliveryOf(es, o, f.fillId).Some?
  {
    var fills := R.QueueFills(o, OrderLog(es, o));
    R.DedupedIsFixed({}, fills);
    assert f.fillId in R.Ids(R.Dedupe(fills));
    DeliveryContent(es, o, f.fillId);
  }

  function SignOf(side: string): real {
    if side == "BUY" then 1.0 else -1.0
  }

  // A kept fill, signed by the side of the envelope that first delivered it, if that named `s`.
  function SignedKept(es: seq<Envelope>, o: string, s: string): R.Fill -> real {
    (f: R.Fill) =>
      var e := DeliveryOf(es, o, f.fillId);
      if e.Some? && e.value.payload.Some? && e.value.payload.value.symbol == s
      then SignOf(e.value.payload.value.action) * R.CountedQuantity(f) else 0.0
  }

  // What an order contributes to a symbol's position, by the fills the reconciler keeps.
  function Holding(es: seq<Envelope>, s: string): string -> real {
    (o: string) => SumOf(R.Kept(o, OrderLog(es, o)), SignedKept(es, o, s))
  }

  predicate NewFill(es: seq<Envelope>, o: string)
    requires es != []
  {
    var last := es[|es| - 1];
    Concerns(last, o) && IsFill(last) && !Delivered(es[..|es| - 1], o, last.emittedAt)
  }

  // The last envelope adds its fill to what is kept, unless it was delivered before.
  lemma KeptOneMore(es: seq<Envelope>, o: string)
    requires es != []
    ensures
      var kept := R.Kept(o, OrderLog(es[..|es| - 1], o));
      R.Kept(o, OrderLog(es, o)) ==
        if NewFill(es, o) then kept + [R.NormalizeFill(ToEvent(es[|es| - 1]).fill.value)] else kept
  {
    hide FillId, R.Ids, Delivered;
    var (rest, last) := (es[..|es| - 1], es[|es| - 1]);
    if Concerns(last, o) {
      var log := OrderLog(es, o);
      assert log[..|log| - 1] == OrderLog(rest, o);
      if IsFill(last) {
        SeenIsDelivered(rest, o, last.emittedAt);
        var fills := R.QueueFills(o, OrderLog(rest, o));
        R.DedupeFromConcat({}, fills, [R.NormalizeFill(ToEvent(last).fill.value)]);
        assert {} + R.Ids(fills) == R.Ids(fills);
      }
    }
  }

  // The signed quantity that the last envelope adds to what is kept for a symbol.
  function NewlyKept(es: seq<Envelope>, s: string): real
    requires es != []
  {
    var last := es[|es| - 1];
    if IsFill(last) && last.payload.value.symbol == s && NewFill(es, last.payload.value.orderId)
    then P.Signed(ToPositionFill(last)) else 0.0
  }

  // The fills kept before are signed as before.
  lemma SignsPersist(es: seq<Envelope>, o: string, s: string)
    requires es != []
    ensures
      var (rest, kept) := (es[..|es| - 1], R.Kept(o, OrderLog(es[..|es| - 1], o)));
      SumOf(kept, SignedKept(es, o, s)) == SumOf(kept, SignedKept(rest, o, s))
  {
    hide R.Kept;
    var (rest, kept) := (es[..|es| - 1], R.Kept(o, OrderLog(es[..|es| - 1], o)));
    forall i | 0 <= i < |kept| ensures SignedKept(es, o, s)(kept[i]) == SignedKept(rest, o, s)(kept[i]) {
      KeptIsDelivered(rest, o, kept[i]);
    }
    SumOfPointwise(kept, SignedKept(es, o, s), kept, SignedKept(rest, o, s));
  }

  lemma NewFillIsSigned(es: seq<Envelope>, o: string, s: string)
    requires es != [] && NewFill(es, o)
    ensures SignedKept(es, o, s)(R.NormalizeFill(ToEvent(es[|es| - 1]).fill.value)) == NewlyKept(es, s)
  {
    hide Delivered, R.Ids;
    var (rest, last) := (es[..|es| - 1], es[|es| - 1]);
    SeenIsDelivered(rest, o, last.emittedAt);
    DeliveryContent(rest, o, FillId(o, last.emittedAt));
  }

  lemma HoldingOneMore(es: seq<Envelope>, s: string, o: string)
    requires es != []
    ensures Holding(es, s)(o) == Holding(es[..|es| - 1], s)(o)
              + if Concerns(es[|es| - 1], o) then NewlyKept(es, s) else 0.0
  {
    hide R.Kept, SignedKept, Delivered;
    KeptOneMore(es, o);
    SignsPersist(es, o, s);
    if NewFill(es, o) {
      var (kept, fill) := (R.Kept(o, OrderLog(es[..|es| - 1], o)), R.NormalizeFill(ToEvent(es[|es| - 1]).fill.value));
      SumOfConcat(kept, [fill], SignedKept(es, o, s));
      SumOfOne(fill, SignedKept(es, o, s));
      NewFillIsSigned(es, o, s);
    }
  }

  lemma {:induction false} HoldingsOneMore(es: seq<Envelope>, s: string)
    requires es != []
    ensures SumOf(Run(es).orderIds, Holding(es, s))
            == SumOf(Run(es[..|es| - 1]).orderIds, Holding(es[..|es| - 1], s)) + NewlyKept(es, s)
  {
    hide Holding, NewlyKept, Advance;
    var (rest, last) := (es[..|es| - 1], es[|es| - 1]);
    var (before, after, ids) := (Holding(rest, s), Holding(es, s), Run(rest).orderIds);
    forall o ensures after(o) == before(o) + if Concerns(last, o) then NewlyKept(es, s) else 0.0 {
      HoldingOneMore(es, s, o);
    }
    if !Effective(last) {
      AdvanceOneOrder(Run(rest), last, "");
      SumOfPointwise(ids, before, ids, after);
      NothingNew(es, s);
    } else {
      var o := last.payload.value.orderId;
      AdvanceOneOrder(Run(rest), last, o);
      SumOfOneChanged(ids, before, after, o, NewlyKept(es, s));
      if o !in ids {
        NothingHeld(rest, s, o);
        SumOfConcat(ids, [o], after);
        SumOfOne(o, after);
      }
    }
  }

  lemma NothingNew(es: seq<Envelope>, s: string)
    requires es != [] && !Effective(es[|es| - 1])
    ensures NewlyKept(es, s) == 0.0
  {
  }

  lemma NothingHeld(es: seq<Envelope>, s: string, o: string)
    requires o !in Run(es).orders
    ensures Holding(es, s)(o) == 0.0
  {
    RunKeepsLogs(es, o);
    assert OrderLog(es, o) == [];
  }

  // Everything delivered for a symbol is either kept for one of its orders or was redelivered.
  lemma {:induction false} TradedIsKeptOrRedelivered(mode: string, es: seq<Envelope>, s: string)
    requires Clean(mode, es)
    ensures P.NetTraded(mode, s, FillsOf(es, s)) == SumOf(Run(es).orderIds, Holding(es, s)) + Redelivered(es, s)
  {
    hide Clean, Run, Holding, Delivered, P.Booked;
    if es == [] {
      EmptyRun();
    } else {
      CleanParts(mode, es);
      TradedIsKeptOrRedelivered(mode, es[..|es| - 1], s);
      HoldingsOneMore(es, s);
      TradedOneMore(mode, es, s);
    }
  }

  lemma EmptyRun()
    ensures Run([]).orderIds == []
  {
  }

  lemma TradedOneMore(mode: string, es: seq<Envelope>, s: string)
    requires Clean(mode, es) && es != []
    ensures
      var (rest, last) := (es[..|es| - 1], es[|es| - 1]);
      P.NetTraded(mode, s, FillsOf(es, s)) == P.NetTraded(mode, s, FillsOf(rest, s))
        + if IsFill(last) && last.payload.value.symbol == s then P.Signed(ToPositionFill(last)) else 0.0
  {
    hide Clean, P.Booked;
    var (rest, last) := (es[..|es| - 1], es[|es| - 1]);
    CleanParts(mode, es);
    if IsFill(last) && last.payload.value.symbol == s {
      assert FillsOf(es, s)[..|FillsOf(es, s)| - 1] == FillsOf(rest, s);
    }
  }

  // The theorem

  function PositionQuantity(st: State, s: string): real {
    if s in st.positions then st.positions[s].quantity else 0.0
  }

  function ForgottenQuantity(mode: string, es: seq<Envelope>, s: string): real {
    P.DustQuantity(P.EmptyPosition(mode, s, ""), FillsOf(es, s))
  }

  // Over every clean run: position quantity = what the reconciler keeps for the symbol's orders,
  // plus redelivered fills (dropped there, applied here), less forgotten dust.
  lemma {:induction false} ViewsDifferByRedeliveries(mode: string, es: seq<Envelope>, s: string)
    requires Clean(mode, es)
    ensures PositionQuantity(Run(es), s)
            == SumOf(Run(es).orderIds, Holding(es, s)) + Redelivered(es, s) - ForgottenQuantity(mode, es, s)
  {
    hide Holding, Clean, P.Replay, P.NetTraded, P.DustQuantity, Redelivered;
    RunReplaysPositions(mode, es, s);
    FlatPosition(mode, s);
    P.ReplayAgreesWithCashFlow(P.EmptyPosition(mode, s, ""), FillsOf(es, s), 0.0);
    TradedIsKeptOrRedelivered(mode, es, s);
  }

  lemma FlatPosition(mode: string, s: string)
    ensures P.Replay(P.EmptyPosition(mode, s, ""), []).quantity == 0.0
  {
  }

  // Fill envelopes of one order carry distinct timestamps.
  predicate DistinctDeliveries(es: seq<Envelope>) {
    forall i :: 0 <= i < |es| && IsFill(es[i]) ==> !Delivered(es[..i], es[i].payload.value.orderId, es[i].emittedAt)
  }

  lemma {:induction false} NothingRedelivered(es: seq<Envelope>, s: string)
    requires DistinctDeliveries(es)
    ensures Redelivered(es, s) == 0.0
  {
    hide Delivered;
    if es != [] {
      var rest := es[..|es| - 1];
      assert forall i :: 0 <= i < |rest| ==> rest[..i] == es[..i];
      NothingRedelivered(rest, s);
    }
  }

  // With distinct timestamps the order view and the position view agree, dust aside: a symbol's
  // position is the signed sum of the fills the reconciler keeps.
  lemma {:induction false} ViewsAgree(mode: string, es: seq<Envelope>, s: string)
    requires Clean(mode, es) && DistinctDeliveries(es)
    ensures PositionQuantity(Run(es), s) == SumOf(Run(es).orderIds, Holding(es, s)) - ForgottenQuantity(mode, es, s)
  {
    hide Holding, Clean, DistinctDeliveries, Run, PositionQuantity, ForgottenQuantity;
    ViewsDifferByRedeliveries(mode, es, s);
    NothingRedelivered(es, s);
  }

  // Without dust closes nothing is forgotten, so the agreement is exact.
  lemma {:induction false} NothingForgotten(mode: string, es: seq<Envelope>, s: string)
    requires P.DustFree(P.EmptyPosition(mode, s, ""), FillsOf(es, s))
    ensures ForgottenQuantity(mode, es, s) == 0.0
  {
    P.DustFreeLosesNothing(P.EmptyPosition(mode, s, ""), FillsOf(es, s), 0.0);
  }

  // It takes distinct timestamps: one fill of one unit delivered twice leaves an order record of
  // one unit and a position of two.
  lemma RedeliveryDoublesPosition()
    ensures
      var fill := Envelope(R.OrderFilled, "t", Some(Payload("o", "s", "MOCK", "BUY", Some(1.0), 10.0, 0.0)));
      var st := Run([fill, fill]);
      && "o" in st.orders && st.orders["o"].filledQuantity == 1.0
      && "s" in st.positions && st.positions["s"].quantity == 2.0
  {
    var p := Payload("o", "s", "MOCK", "BUY", Some(1.0), 10.0, 0.0);
    var fill := Envelope(R.OrderFilled, "t", Some(p));
    var (once, twice) := ([fill], [fill, fill]);
    assert once[..0] == [] && twice[..1] == once;
    SingleFillKept(fill, "o");
    assert R.Kept("o", OrderLog(twice, "o")) == R.Kept("o", OrderLog(once, "o")) by {
      KeptOneMore(twice, "o");
      assert fill in once;
    }
    RunKeepsLogs(twice, "o");
    RunTracksOrders(twice, "o");
    R.TrackedQuantity(FirstRecord(twice, "o"), OrderLog(twice, "o"));
    DoubledPosition(fill, twice);
  }

  lemma SingleFillKept(fill: Envelope, o: string)
    requires Concerns(fill, o) && IsFill(fill)
    ensures R.FilledQuantity(R.Kept(o, OrderLog([fill], o))) == Abs(fill.payload.value.quantity.value)
  {
    var once := [fill];
    assert once[..0] == [];
    R.OneFillLog(o, fill.eventType, ToEvent(fill).fill.value);
  }

  lemma DoubledPosition(fill: Envelope, twice: seq<Envelope>)
    requires Effective(fill) && IsFill(fill) && twice == [fill, fill]
    requires fill.payload.value == Payload("o", "s", "MOCK", "BUY", Some(1.0), 10.0, 0.0)
    ensures "s" in Run(twice).positions && Run(twice).positions["s"].quantity == 2.0
  {
    hide P.Replay, Run;
    var f := ToPositionFill(fill);
    var once := [fill];
    assert once[..0] == [] && twice[..1] == once;
    assert FillsOf(once, "s") == [] + [f];
    assert FillsOf(twice, "s") == [f, f];
    RunReplaysPositions("MOCK", twice, "s");
    TwoUnits(f);
  }

  lemma TwoUnits(f: P.PositionFill)
    requires P.Booked("MOCK", "s", f) && P.Signed(f) == 1.0
    ensures P.Replay(P.EmptyPosition("MOCK", "s", ""), [f, f]).quantity == 2.0
  {
    hide P.Step, P.Booked, P.Signed;
    var empty := P.EmptyPosition("MOCK", "s", "");
    var (once, twice) := ([f], [f, f]);
    assert once[..0] == [] && twice[..1] == once;
    OneUnit(empty, f);
    OneUnit(P.Step(empty, f), f);
    assert P.Replay(empty, once) == P.Step(P.Replay(empty, []), f);
    assert P.Replay(empty, twice) == P.Step(P.Replay(empty, once), f);
  }

  lemma OneUnit(p: P.PositionState, f: P.PositionFill)
    requires p.mode == "MOCK" && p.symbol == "s" && (p.quantity == 0.0 || p.quantity == 1.0)
    requires P.Booked("MOCK", "s", f) && P.Signed(f) == 1.0
    ensures
      var next := P.Step(p, f);
      next.mode == "MOCK" && next.symbol == "s" && next.quantity == p.quantity + 1.0
  {
    hide P.ApplyFill, P.Step;
    P.StepMovesQuantity(p, f);
    assert [f][..0] == [];
    P.ReplayKeepsScope(p, [f]);
  }

  // Orders that keep their terms

  // The symbol and side an order trades.
  datatype Terms = Terms(symbol: string, side: string)

  // Every envelope of an order names the order's own symbol and side.
  predicate KeepsTerms(es: seq<Envelope>, terms: string -> Terms) {
    forall e :: e in es && Effective(e) ==>
      && e.payload.value.symbol == terms(e.payload.value.orderId).symbol
      && (IsFill(e) ==> e.payload.value.action == terms(e.payload.value.orderId).side)
  }

  // The sign with which an order's quantity counts towards a symbol.
  function TermsFactor(terms: string -> Terms, s: string): string -> real {
    (o: string) => if terms(o).symbol == s then SignOf(terms(o).side) else 0.0
  }

  // What the order records themselves say about a symbol.
  function RecordedHolding(st: State, terms: string -> Terms, s: string): string -> real {
    (o: string) => if o in st.orders then TermsFactor(terms, s)(o) * st.orders[o].filledQuantity else 0.0
  }

  function KeptQuantity(es: seq<Envelope>, o: string): real {
    R.FilledQuantity(R.Kept(o, OrderLog(es, o)))
  }

  // A kept quantity is nothing or more than EPSILON, so the record shows it in full.
  lemma {:induction false} KeptIsVisible(mode: string, es: seq<Envelope>, o: string)
    requires Clean(mode, es)
    ensures KeptQuantity(es, o) == 0.0 || KeptQuantity(es, o) > EPSILON
  {
    hide Clean, R.Kept, Delivered;
    if es == [] {
      NothingKept(o);
    } else {
      var kept := R.Kept(o, OrderLog(es[..|es| - 1], o));
      CleanParts(mode, es);
      KeptIsVisible(mode, es[..|es| - 1], o);
      KeptOneMore(es, o);
      if NewFill(es, o) {
        var fill := R.NormalizeFill(ToEvent(es[|es| - 1]).fill.value);
        SumOfConcat(kept, [fill], R.CountedQuantity);
        SumOfOne(fill, R.CountedQuantity);
      }
    }
  }

  lemma NothingKept(o: string)
    ensures KeptQuantity([], o) == 0.0
  {
  }

  lemma {:induction false} RecordShowsKept(mode: string, es: seq<Envelope>, o: string)
    requires Clean(mode, es) && o in Run(es).orders
    ensures Run(es).orders[o].filledQuantity == KeptQuantity(es, o)
  {
    hide Clean, Run, R.Kept, R.FilledQuantity, R.Tracked;
    RunTracksOrders(es, o);
    KeptIsVisible(mode, es, o);
    R.TrackedQuantity(FirstRecord(es, o), OrderLog(es, o));
  }

  lemma {:induction false} ScaledSum<T>(xs: seq<T>, f: T -> real, g: T -> real, k: real)
    requires forall i :: 0 <= i < |xs| ==> g(xs[i]) == k * f(xs[i])
    ensures SumOf(xs, g) == k * SumOf(xs, f)
  {
    if xs != [] {
      ScaledSum(xs[..|xs| - 1], f, g, k);
      assert k * (SumOf(xs[..|xs| - 1], f) + f(xs[|xs| - 1])) == k * SumOf(xs[..|xs| - 1], f) + k * f(xs[|xs| - 1]);
    }
  }

  // An order that keeps its terms holds its kept quantity, with its sign, in its own symbol.
  lemma HoldingByTerms(es: seq<Envelope>, terms: string -> Terms, s: string, o: string)
    requires KeepsTerms(es, terms)
    ensures Holding(es, s)(o) == TermsFactor(terms, s)(o) * KeptQuantity(es, o)
  {
    hide R.Kept, R.CountedQuantity, TermsFactor, SignedKept, KeepsTerms;
    var kept := R.Kept(o, OrderLog(es, o));
    forall i | 0 <= i < |kept|
      ensures SignedKept(es, o, s)(kept[i]) == TermsFactor(terms, s)(o) * R.CountedQuantity(kept[i])
    {
      KeptIsDelivered(es, o, kept[i]);
      SignedByTerms(es, terms, s, o, kept[i]);
    }
    ScaledSum(kept, R.CountedQuantity, SignedKept(es, o, s), TermsFactor(terms, s)(o));
  }

  lemma SignedByTerms(es: seq<Envelope>, terms: string -> Terms, s: string, o: string, f: R.Fill)
    requires KeepsTerms(es, terms) && DeliveryOf(es, o, f.fillId).Some?
    ensures SignedKept(es, o, s)(f) == TermsFactor(terms, s)(o) * R.CountedQuantity(f)
  {
    hide R.CountedQuantity, DeliveryOf, R.Ids, R.QueueFills;
    DeliveryContent(es, o, f.fillId);
  }

  lemma RecordedByTerms(mode: string, es: seq<Envelope>, terms: string -> Terms, s: string, o: string)
    requires Clean(mode, es) && KeepsTerms(es, terms)
    ensures Holding(es, s)(o) == RecordedHolding(Run(es), terms, s)(o)
  {
    hide Clean, KeepsTerms, Run, KeptQuantity, Holding, TermsFactor, Lists;
    if o in Run(es).orders {
      RecordShowsKept(mode, es, o);
      HoldingByTerms(es, terms, s, o);
    } else {
      NothingHeld(es, s, o);
    }
  }

  // With distinct timestamps and orders that keep one symbol and side, a symbol's position is the
  // signed sum of the filled quantities recorded for its orders, dust aside.
  lemma {:induction false} RecordedViewsAgree(mode: string, es: seq<Envelope>, terms: string -> Terms, s: string)
    requires Clean(mode, es) && KeepsTerms(es, terms) && DistinctDeliveries(es)
    ensures PositionQuantity(Run(es), s)
            == SumOf(Run(es).orderIds, RecordedHolding(Run(es), terms, s)) - ForgottenQuantity(mode, es, s)
  {
    hide Clean, KeepsTerms, DistinctDeliveries, Run, Holding, RecordedHolding, PositionQuantity, ForgottenQuantity;
    ViewsAgree(mode, es, s);
    var ids := Run(es).orderIds;
    forall i | 0 <= i < |ids| ensures Holding(es, s)(ids[i]) == RecordedHolding(Run(es), terms, s)(ids[i]) {
      RecordedByTerms(mode, es, terms, s, ids[i]);
    }
    SumOfPointwise(ids, Holding(es, s), ids, RecordedHolding(Run(es), terms, s));
  }
}
