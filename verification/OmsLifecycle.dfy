/** The order-management worker of `services/workers/oms_lifecycle.py` (in-memory store path): it
    threads the reconciler, the position engine and the portfolio snapshot over an event stream. */
module OmsLifecycle {
  import opened Basics
  import opened Sums
  import opened OrderStatus
  import R = FillReconciliation
  import P = PositionEngine
  import S = PortfolioSnapshot

  // Identifiers are trimmed; `price` and `fee` are the values after the payload's defaults.
  datatype Payload = Payload(
    orderId: string, symbol: string, mode: string, action: string,
    quantity: Option<real>, price: real, fee: real)

  // `emittedAt` is the envelope's timestamp, or the clock reading that stands in for a missing one.
  datatype Envelope = Envelope(eventType: R.EventType, emittedAt: string, payload: Option<Payload>)

  datatype WorkerError =
    | QuantityMissingOrZero
    | PositionRefused(position: P.PositionError)
    | SnapshotRefused(snapshot: S.SnapshotError)

  datatype Outcome = Ignored | Raised(error: WorkerError) | Handled(order: R.Order, snapshot: S.Snapshot)

  // The worker's dictionaries, with the insertion order of those it iterates over.
  datatype State = State(
    orders: map<string, R.Order>, orderIds: seq<string>, logs: map<string, seq<R.Event>>,
    positions: map<string, P.PositionState>, symbols: seq<string>, marks: map<string, real>)

  const INITIAL := State(map[], [], map[], map[], [], map[])

  // Envelopes as events and fills

  predicate Addressed(e: Envelope) {
    e.payload.Some? && e.payload.value.orderId != "" && e.payload.value.symbol != ""
  }

  // Envelopes that get past the quantity check and so change the state.
  predicate Effective(e: Envelope) {
    Addressed(e) && e.payload.value.quantity.Some? && e.payload.value.quantity.value != 0.0
  }

  predicate IsFill(e: Envelope) {
    Effective(e) && (e.eventType.OrderFilled? || e.eventType.OrderPartiallyFilled?)
  }

  function FillId(orderId: string, filledAt: string): string {
    "fill:" + orderId + ":" + filledAt
  }

  function ToEvent(e: Envelope): R.Event
    requires Effective(e)
  {
    if !IsFill(e) then R.Event(e.eventType, None, None)
    else
      var p := e.payload.value;
      var id := FillId(p.orderId, e.emittedAt);
      R.Event(e.eventType, None, Some(R.Fill(id, p.orderId, Abs(p.quantity.value), p.price, p.fee, "runtime_worker")))
  }

  function ToPositionFill(e: Envelope): P.PositionFill
    requires IsFill(e)
  {
    var (p, fill) := (e.payload.value, ToEvent(e).fill.value);
    P.PositionFill(p.orderId, p.mode, p.symbol, p.action, fill.quantity, fill.price, fill.fee, e.emittedAt)
  }

  // One envelope

  function LogOf(st: State, orderId: string): seq<R.Event> {
    if orderId in st.logs then st.logs[orderId] else []
  }

  function ExistingOrder(st: State, p: Payload): R.Order
    requires p.quantity.Some?
  {
    if p.orderId in st.orders then st.orders[p.orderId]
    else R.Order(p.orderId, p.symbol, p.mode, Abs(p.quantity.value), New, 0.0, None)
  }

  function UpdatedOrder(st: State, e: Envelope): R.Order
    requires Effective(e)
  {
    var p := e.payload.value;
    var existing := ExistingOrder(st, p);
    var r := R.Reconciled(existing, LogOf(st, p.orderId) + [ToEvent(e)], None);
    R.Order(p.orderId, p.symbol, p.mode, existing.requestedQuantity, r.status, r.filledQuantity, r.averagePrice)
  }

  function RecordOrder(st: State, e: Envelope): State
    requires Effective(e)
  {
    var id := e.payload.value.orderId;
    st.(orders := st.orders[id := UpdatedOrder(st, e)],
        orderIds := if id in st.orders then st.orderIds else st.orderIds + [id],
        logs := st.logs[id := LogOf(st, id) + [ToEvent(e)]])
  }

  function PositionOf(st: State, symbol: string): Option<P.PositionState> {
    if symbol in st.positions then Some(st.positions[symbol]) else None
  }

  function RecordPosition(st: State, symbol: string, position: P.PositionState, mark: real): State {
    st.(positions := st.positions[symbol := position],
        symbols := if symbol in st.positions then st.symbols else st.symbols + [symbol],
        marks := st.marks[symbol := mark])
  }

  // The state after an envelope, also when handling it raises half way.
  function Advance(st: State, e: Envelope): State {
    if !Effective(e) then st
    else
      var recorded := RecordOrder(st, e);
      if !IsFill(e) then recorded
      else
        var fill := ToPositionFill(e);
        match P.ApplyFill(PositionOf(st, fill.symbol), fill)
        case Ok(update) => RecordPosition(recorded, fill.symbol, update.current, fill.price)
        case Err(_) => recorded
  }

  function PositionList(st: State): seq<P.PositionState>
    requires forall i :: 0 <= i < |st.symbols| ==> st.symbols[i] in st.positions
  {
    seq(|st.symbols|, i requires 0 <= i < |st.symbols| => st.positions[st.symbols[i]])
  }

  // `keys` lists the keys of a dictionary, each once.
  ghost predicate Lists(keys: seq<string>, domain: set<string>) {
    && (forall k :: k in keys <==> k in domain)
    && (forall i, j :: 0 <= i < j < |keys| ==> keys[i] != keys[j])
  }

  ghost predicate Indexed(st: State) {
    Lists(st.symbols, st.positions.Keys) && Lists(st.orderIds, st.orders.Keys)
  }

  lemma ListsOneMore(keys: seq<string>, domain: set<string>, k: string)
    requires Lists(keys, domain)
    ensures Lists(if k in domain then keys else keys + [k], domain + {k})
  {
  }

  lemma AdvanceKeepsIndexed(st: State, e: Envelope)
    requires Indexed(st)
    ensures Indexed(Advance(st, e))
  {
    hide P.ApplyFill, UpdatedOrder, ToEvent, ToPositionFill, Lists;
    if Effective(e) {
      ListsOneMore(st.orderIds, st.orders.Keys, e.payload.value.orderId);
      assert RecordOrder(st, e).orders.Keys == st.orders.Keys + {e.payload.value.orderId};
      if IsFill(e) {
        var k := ToPositionFill(e).symbol;
        ListsOneMore(st.symbols, st.positions.Keys, k);
        assert forall p, m :: RecordPosition(RecordOrder(st, e), k, p, m).positions.Keys == st.positions.Keys + {k};
      }
    }
  }

  function OutcomeOf(st: State, e: Envelope, balance: real, now: string): Outcome
    requires Indexed(st)
  {
    AdvanceKeepsIndexed(st, e);
    var next := Advance(st, e);
    if !Addressed(e) then Ignored
    else if !Effective(e) then Raised(QuantityMissingOrZero)
    else if IsFill(e) && P.ApplyFill(PositionOf(st, ToPositionFill(e).symbol), ToPositionFill(e)).Err? then
      Raised(PositionRefused(P.ApplyFill(PositionOf(st, ToPositionFill(e).symbol), ToPositionFill(e)).error))
    else
      var positions := PositionList(next);
      match S.Built(e.payload.value.mode, balance, 0.0, positions, next.marks, Some(SumOf(positions, S.Realized)), now)
      case Ok(snapshot) => Handled(UpdatedOrder(st, e), snapshot)
      case Err(error) => Raised(SnapshotRefused(error))
  }

  class Worker {
    const baseBalance: real
    var orders: map<string, R.Order>
    var orderIds: seq<string>
    var logs: map<string, seq<R.Event>>
    var positions: map<string, P.PositionState>
    var symbols: seq<string>
    var marks: map<string, real>

    ghost function View(): State
      reads this
    {
      State(orders, orderIds, logs, positions, symbols, marks)
    }

    constructor (baseBalance: real)
      ensures View() == INITIAL && this.baseBalance == baseBalance
    {
      this.baseBalance := baseBalance;
      orders, orderIds, logs, positions, symbols, marks := map[], [], map[], map[], [], map[];
    }

    method RecordOrderEvent(e: Envelope) returns (updated: R.Order)
      requires Effective(e)
      modifies this`orders, this`orderIds, this`logs
      ensures View() == RecordOrder(old(View()), e)
      ensures updated == UpdatedOrder(old(View()), e)
    {
      hide R.Reconciled;
      var p := e.payload.value;
      var existing := if p.orderId in orders then orders[p.orderId]
        else R.Order(p.orderId, p.symbol, p.mode, Abs(p.quantity.value), New, 0.0, None);
      var events := (if p.orderId in logs then logs[p.orderId] else []) + [ToEvent(e)];
      logs := logs[p.orderId := events];
      var r := R.Reconcile(existing, events, None);
      updated := R.Order(p.orderId, p.symbol, p.mode, existing.requestedQuantity,
                         r.status, r.filledQuantity, r.averagePrice);
      orderIds := if p.orderId in orders then orderIds else orderIds + [p.orderId];
      orders := orders[p.orderId := updated];
    }

    method RecordFill(fill: P.PositionFill) returns (error: Option<P.PositionError>)
      modifies this`positions, this`symbols, this`marks
      ensures
        match P.ApplyFill(PositionOf(old(View()), fill.symbol), fill)
        case Ok(update) => error.None? && View() == RecordPosition(old(View()), fill.symbol, update.current, fill.price)
        case Err(refusal) => error == Some(refusal) && View() == old(View())
    {
      hide P.ApplyFill;
      var current := if fill.symbol in positions then Some(positions[fill.symbol]) else None;
      var applied := P.ApplyFill(current, fill);
      if applied.Err? {
        return Some(applied.error);
      }
      symbols := if fill.symbol in positions then symbols else symbols + [fill.symbol];
      positions := positions[fill.symbol := applied.value.current];
      marks := marks[fill.symbol := fill.price];
      return None;
    }

    method RunOnce(e: Envelope, now: string) returns (outcome: Outcome)
      requires Indexed(View())
      modifies this
      ensures View() == Advance(old(View()), e) && Indexed(View())
      ensures outcome == OutcomeOf(old(View()), e, baseBalance, now)
    {
      hide P.ApplyFill, UpdatedOrder, S.Built, RecordOrder;
      AdvanceKeepsIndexed(View(), e);
      if e.payload.None? || e.payload.value.orderId == "" || e.payload.value.symbol == "" {
        return Ignored;
      }
      if e.payload.value.quantity.None? || Abs(e.payload.value.quantity.value) <= 0.0 {
        return Raised(QuantityMissingOrZero);
      }
      RecordingKeepsPositions(View(), e);
      var updated := RecordOrderEvent(e);
      if IsFill(e) {
        var error := RecordFill(ToPositionFill(e));
        if error.Some? {
          return Raised(PositionRefused(error.value));
        }
      }
      var list := seq(|symbols|, i requires 0 <= i < |symbols| && symbols[i] in positions reads this =>
        positions[symbols[i]]);
      assert list == PositionList(View());
      var realized := SumOf(list, S.Realized);
      var built := S.BuildSnapshot(e.payload.value.mode, baseBalance, 0.0, list, marks, Some(realized), now);
      match built
      case Ok(snapshot) => return Handled(updated, snapshot);
      case Err(error) => return Raised(SnapshotRefused(error));
    }
  }

  lemma RecordingKeepsPositions(st: State, e: Envelope)
    requires Effective(e)
    ensures
      var next := RecordOrder(st, e);
      next.positions == st.positions && next.symbols == st.symbols && next.marks == st.marks
  {
  }

  // Whole runs

  function Run(es: seq<Envelope>): (st: State)
    ensures Indexed(st)
  {
    if es == [] then INITIAL
    else
      var before := Run(es[..|es| - 1]);
      AdvanceKeepsIndexed(before, es[|es| - 1]);
      Advance(before, es[|es| - 1])
  }

  // The fills of one symbol, in delivery order.
  function FillsOf(es: seq<Envelope>, symbol: string): seq<P.PositionFill> {
    if es == [] then []
    else
      var (rest, last) := (FillsOf(es[..|es| - 1], symbol), es[|es| - 1]);
      if IsFill(last) && last.payload.value.symbol == symbol then rest + [ToPositionFill(last)] else rest
  }

  // A single-mode run whose fills the position engine can book.
  predicate Clean(mode: string, es: seq<Envelope>) {
    forall e :: e in es && Effective(e) ==>
      && e.payload.value.mode == mode
      && (IsFill(e) ==> P.Booked(mode, e.payload.value.symbol, ToPositionFill(e)))
  }

  // The position of a symbol is the replay of its fills, marked at the last of their prices.
  predicate Replays(mode: string, es: seq<Envelope>, st: State, s: string) {
    var fills := FillsOf(es, s);
    && (s in st.positions <==> fills != [])
    && (s in st.marks <==> fills != [])
    && (fills != [] ==>
          && st.positions[s] == P.Replay(P.EmptyPosition(mode, s, ""), fills)
          && st.marks[s] == fills[|fills| - 1].price)
  }

  lemma ReplayAppend(p: P.PositionState, fills: seq<P.PositionFill>, fill: P.PositionFill)
    ensures P.Replay(p, fills + [fill]) == P.Step(P.Replay(p, fills), fill)
  {
    assert (fills + [fill])[..|fills|] == fills;
  }

  lemma {:induction false} BookedFillApplies(mode: string, es: seq<Envelope>, st: State, fill: P.PositionFill)
    requires Replays(mode, es, st, fill.symbol) && P.Booked(mode, fill.symbol, fill)
    ensures
      var r := P.ApplyFill(PositionOf(st, fill.symbol), fill);
      r.Ok? && r.value.current == P.Replay(P.EmptyPosition(mode, fill.symbol, ""), FillsOf(es, fill.symbol) + [fill])
  {
    var empty := P.EmptyPosition(mode, fill.symbol, "");
    var fills := FillsOf(es, fill.symbol);
    ReplayAppend(empty, fills, fill);
    P.ReplayKeepsScope(empty, fills);
    if fill.symbol in st.positions {
      P.AcceptedFill(st.positions[fill.symbol], fill);
    } else {
      P.FirstFillMeetsEmptyPosition(fill, "");
    }
  }

  lemma CleanParts(mode: string, es: seq<Envelope>)
    requires Clean(mode, es) && es != []
    ensures Clean(mode, es[..|es| - 1])
    ensures
      var last := es[|es| - 1];
      IsFill(last) ==>
        && last.payload.value.symbol == ToPositionFill(last).symbol
        && P.Booked(mode, ToPositionFill(last).symbol, ToPositionFill(last))
  {
    assert es[|es| - 1] in es;
  }

  function MarkOf(st: State, symbol: string): Option<real> {
    if symbol in st.marks then Some(st.marks[symbol]) else None
  }

  // What one envelope does to one symbol.
  lemma AdvanceOneSymbol(st: State, e: Envelope, s: string)
    ensures
      var next := Advance(st, e);
      if IsFill(e) && e.payload.value.symbol == s && P.ApplyFill(PositionOf(st, s), ToPositionFill(e)).Ok? then
        && PositionOf(next, s) == Some(P.ApplyFill(PositionOf(st, s), ToPositionFill(e)).value.current)
        && MarkOf(next, s) == Some(ToPositionFill(e).price)
      else
        PositionOf(next, s) == PositionOf(st, s) && MarkOf(next, s) == MarkOf(st, s)
  {
    hide P.ApplyFill, UpdatedOrder;
  }

  lemma {:induction false} RunReplaysPositions(mode: string, es: seq<Envelope>, s: string)
    requires Clean(mode, es)
    ensures Replays(mode, es, Run(es), s)
  {
    hide P.ApplyFill, P.Replay, P.Booked, ToPositionFill, Clean, Advance;
    if es != [] {
      var (rest, last) := (es[..|es| - 1], es[|es| - 1]);
      CleanParts(mode, es);
      RunReplaysPositions(mode, rest, s);
      AdvanceOneSymbol(Run(rest), last, s);
      assert PositionOf(Run(es), s).Some? <==> s in Run(es).positions;
      assert MarkOf(Run(es), s).Some? <==> s in Run(es).marks;
      if IsFill(last) && last.payload.value.symbol == s {
        BookedFillApplies(mode, rest, Run(rest), ToPositionFill(last));
      }
    }
  }

  // Profit and loss of a whole run

  function LastPrice(es: seq<Envelope>, s: string): real {
    var fills := FillsOf(es, s);
    if fills == [] then 0.0 else fills[|fills| - 1].price
  }

  function LastPrices(es: seq<Envelope>): string -> real {
    s => LastPrice(es, s)
  }

  // The signed cash flow of one envelope's fill, marked at its symbol's price, after its fee.
  function FlowAt(mode: string, prices: string -> real): Envelope -> real {
    (e: Envelope) =>
      if IsFill(e)
      then P.FillCashFlow(mode, e.payload.value.symbol, ToPositionFill(e), prices(e.payload.value.symbol))
      else 0.0
  }

  function SymbolFlow(mode: string, es: seq<Envelope>, prices: string -> real): string -> real {
    (s: string) => P.CashFlow(mode, s, FillsOf(es, s), prices(s))
  }

  function SymbolDust(mode: string, es: seq<Envelope>, prices: string -> real): string -> real {
    (s: string) => P.DustValue(P.EmptyPosition(mode, s, ""), FillsOf(es, s), prices(s))
  }

  function SymbolValue(mode: string, es: seq<Envelope>, prices: string -> real): string -> real {
    (s: string) => P.MarkedValue(P.Replay(P.EmptyPosition(mode, s, ""), FillsOf(es, s)), prices(s))
  }

  lemma FlowOfOneMore(mode: string, es: seq<Envelope>, prices: string -> real, s: string)
    requires es != []
    ensures
      var (rest, last) := (es[..|es| - 1], es[|es| - 1]);
      SymbolFlow(mode, es, prices)(s) == SymbolFlow(mode, rest, prices)(s)
        + if IsFill(last) && last.payload.value.symbol == s then FlowAt(mode, prices)(last) else 0.0
  {
    var (rest, last) := (es[..|es| - 1], es[|es| - 1]);
    hide P.FillCashFlow, ToPositionFill;
    if IsFill(last) && last.payload.value.symbol == s {
      var fills := FillsOf(es, s);
      assert fills == FillsOf(rest, s) + [ToPositionFill(last)];
      assert fills[..|fills| - 1] == FillsOf(rest, s);
      assert P.CashFlow(mode, s, fills, prices(s))
          == P.CashFlow(mode, s, FillsOf(rest, s), prices(s))
             + P.FillCashFlow(mode, s, ToPositionFill(last), prices(s));
    } else {
      assert FillsOf(es, s) == FillsOf(rest, s);
    }
  }

  // Summing per symbol and summing along the stream are the same.
  lemma {:induction false} FlowsRegroup(mode: string, es: seq<Envelope>, symbols: seq<string>, prices: string -> real)
    requires forall i, j :: 0 <= i < j < |symbols| ==> symbols[i] != symbols[j]
    requires forall e :: e in es && IsFill(e) ==> e.payload.value.symbol in symbols
    ensures SumOf(symbols, SymbolFlow(mode, es, prices)) == SumOf(es, FlowAt(mode, prices))
  {
    if es == [] {
      SumOfZeros(symbols, SymbolFlow(mode, es, prices));
    } else {
      var (rest, last) := (es[..|es| - 1], es[|es| - 1]);
      FlowsRegroup(mode, rest, symbols, prices);
      assert last in es;
      var (before, after) := (SymbolFlow(mode, rest, prices), SymbolFlow(mode, es, prices));
      forall s
        ensures after(s) == before(s)
          + if IsFill(last) && last.payload.value.symbol == s then FlowAt(mode, prices)(last) else 0.0
      {
        FlowOfOneMore(mode, es, prices, s);
      }
      if IsFill(last) {
        SumOfOneChanged(symbols, before, after, last.payload.value.symbol, FlowAt(mode, prices)(last));
      } else {
        SumOfPointwise(symbols, before, symbols, after);
      }
    }
  }

  lemma {:induction false} FilledSymbols(es: seq<Envelope>, e: Envelope)
    requires e in es && IsFill(e)
    ensures FillsOf(es, e.payload.value.symbol) != []
  {
    if e != es[|es| - 1] {
      FilledSymbols(es[..|es| - 1], e);
    }
  }

  // The marked value of all positions is the marked cash flow of the stream, less dust.
  lemma {:induction false} ValueOfPositions(mode: string, es: seq<Envelope>)
    requires Clean(mode, es)
    ensures
      var (st, prices) := (Run(es), LastPrices(es));
      SumOf(st.symbols, SymbolValue(mode, es, prices))
      == SumOf(es, FlowAt(mode, prices)) - SumOf(st.symbols, SymbolDust(mode, es, prices))
  {
    hide P.Replay, P.CashFlow, P.DustValue, Run, Advance;
    var (st, prices) := (Run(es), LastPrices(es));
    forall s | s in st.symbols
      ensures SymbolValue(mode, es, prices)(s) == SymbolFlow(mode, es, prices)(s) - SymbolDust(mode, es, prices)(s)
    {
      P.ReplayAgreesWithCashFlow(P.EmptyPosition(mode, s, ""), FillsOf(es, s), prices(s));
    }
    SumOfDifference(st.symbols, SymbolFlow(mode, es, prices), SymbolDust(mode, es, prices),
                    SymbolValue(mode, es, prices));
    forall e | e in es && IsFill(e) ensures e.payload.value.symbol in st.symbols {
      RunReplaysPositions(mode, es, e.payload.value.symbol);
      FilledSymbols(es, e);
    }
    FlowsRegroup(mode, es, st.symbols, prices);
  }

  // What the snapshot engine is given: settled positions of the run's mode, each with its mark.
  lemma {:induction false} PositionListIsMarked(mode: string, es: seq<Envelope>, i: nat)
    requires Clean(mode, es) && i < |Run(es).symbols|
    ensures
      var (st, s) := (Run(es), Run(es).symbols[i]);
      var p := PositionList(st)[i];
      && P.Settled(p) && S.Problem(mode, p, st.marks).None?
      && S.MarkedAt(st.marks)(p) == SymbolValue(mode, es, LastPrices(es))(s)
  {
    var (st, s) := (Run(es), Run(es).symbols[i]);
    RunReplaysPositions(mode, es, s);
    var empty := P.EmptyPosition(mode, s, "");
    P.ReplayStaysSettled(empty, FillsOf(es, s));
    P.ReplayKeepsScope(empty, FillsOf(es, s));
  }

  lemma {:induction false} SnapshotOfRun(mode: string, es: seq<Envelope>)
    requires Clean(mode, es)
    ensures
      var st := Run(es);
      var list := PositionList(st);
      && S.FirstProblem(mode, list, st.marks).None?
      && SumOf(list, S.UnrealizedAt(st.marks)) + SumOf(list, S.Realized)
         == SumOf(st.symbols, SymbolValue(mode, es, LastPrices(es)))
  {
    var st := Run(es);
    var list := PositionList(st);
    forall i | 0 <= i < |list|
      ensures P.Settled(list[i]) && S.Problem(mode, list[i], st.marks).None?
      ensures S.MarkedAt(st.marks)(list[i]) == SymbolValue(mode, es, LastPrices(es))(st.symbols[i])
    {
      PositionListIsMarked(mode, es, i);
    }
    S.PnlIsMarkedValue(list, st.marks);
    SumOfPointwise(list, S.MarkedAt(st.marks), st.symbols, SymbolValue(mode, es, LastPrices(es)));
  }

  lemma CleanFillIsNotRefused(mode: string, es: seq<Envelope>)
    requires Clean(mode, es) && es != [] && IsFill(es[|es| - 1])
    ensures
      var fill := ToPositionFill(es[|es| - 1]);
      P.ApplyFill(PositionOf(Run(es[..|es| - 1]), fill.symbol), fill).Ok?
  {
    CleanParts(mode, es);
    var fill := ToPositionFill(es[|es| - 1]);
    RunReplaysPositions(mode, es[..|es| - 1], fill.symbol);
    BookedFillApplies(mode, es[..|es| - 1], Run(es[..|es| - 1]), fill);
  }

  predicate DustFreeRun(mode: string, es: seq<Envelope>) {
    forall s :: s in Run(es).symbols ==> P.DustFree(P.EmptyPosition(mode, s, ""), FillsOf(es, s))
  }

  // Over every single-mode run of bookable fills each effective envelope is handled, its snapshot
  // builds, and total profit is the cash flow of all fills so far at their symbols' last prices
  // after fees, less forgotten dust; with no dust closes it is exactly that cash flow.
  lemma {:induction false} PnlTheorem(mode: string, es: seq<Envelope>, balance: real, now: string)
    requires Clean(mode, es) && es != [] && Effective(es[|es| - 1])
    ensures
      var (outcome, prices) := (OutcomeOf(Run(es[..|es| - 1]), es[|es| - 1], balance, now), LastPrices(es));
      && outcome.Handled?
      && outcome.snapshot.totalBalance == balance + outcome.snapshot.unrealizedPnl
      && outcome.snapshot.unrealizedPnl + outcome.snapshot.realizedPnlTotal
         == SumOf(es, FlowAt(mode, prices)) - SumOf(Run(es).symbols, SymbolDust(mode, es, prices))
      && (DustFreeRun(mode, es) ==>
            outcome.snapshot.unrealizedPnl + outcome.snapshot.realizedPnlTotal == SumOf(es, FlowAt(mode, prices)))
  {
    hide P.ApplyFill, UpdatedOrder, RecordOrder, ToPositionFill, SymbolValue, FlowAt, SumOf, P.DustFree, P.DustValue;
    SnapshotOfRun(mode, es);
    ValueOfPositions(mode, es);
    assert es[|es| - 1] in es;
    if IsFill(es[|es| - 1]) {
      CleanFillIsNotRefused(mode, es);
    }
    if DustFreeRun(mode, es) {
      forall s | s in Run(es).symbols ensures SymbolDust(mode, es, LastPrices(es))(s) == 0.0 {
        P.DustFreeLosesNothing(P.EmptyPosition(mode, s, ""), FillsOf(es, s), LastPrices(es)(s));
      }
      SumOfZeros(Run(es).symbols, SymbolDust(mode, es, LastPrices(es)));
    }
  }
}
