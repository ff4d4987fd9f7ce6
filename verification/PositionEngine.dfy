/** The netted average-cost ledger of `services/oms/position_engine.py`, and its agreement
    with a plain cash-flow ledger. */
module PositionEngine {
  import opened Basics

  datatype PositionStatus = Open | Closed

  datatype PositionState = PositionState(
    mode: string, symbol: string, quantity: real, averageEntryPrice: real,
    realizedPnl: real, status: PositionStatus, updatedAt: string)

  // `filledAt` is the fill's own timestamp, or the clock reading that stands in for a missing one.
  datatype PositionFill = PositionFill(
    orderId: string, mode: string, symbol: string, side: string,
    quantity: real, price: real, fee: real, filledAt: string)

  datatype PositionUpdate = PositionUpdate(previous: PositionState, current: PositionState, realizedPnlDelta: real)

  datatype PositionError = QuantityNotPositive | UnsupportedSide | ModeMismatch | SymbolMismatch

  // The engine

  function SignedQuantity(fill: PositionFill): Result<real, PositionError> {
    var quantity := Abs(fill.quantity);
    if quantity <= EPSILON then Err(QuantityNotPositive)
    else if fill.side == "BUY" then Ok(quantity)
    else if fill.side == "SELL" then Ok(-quantity)
    else Err(UnsupportedSide)
  }

  predicate SameDirection(left: real, right: real) {
    (left > 0.0 && right > 0.0) || (left < 0.0 && right < 0.0)
  }

  function EmptyPosition(mode: string, symbol: string, at: string): PositionState {
    PositionState(mode, symbol, 0.0, 0.0, 0.0, Closed, at)
  }

  // Quantity, average entry price and realized profit before fees.
  datatype Netting = Netting(quantity: real, average: real, realized: real)

  function Net(quantity: real, average: real, signed: real, price: real): Netting
    requires Abs(signed) > EPSILON
  {
    if Abs(quantity) <= EPSILON then
      Netting(signed, if Abs(signed) > EPSILON then price else 0.0, 0.0)
    else if SameDirection(quantity, signed) then
      var total := quantity + signed;
      Netting(total, (Abs(quantity) * average + Abs(signed) * price) / Abs(total), 0.0)
    else
      var closing := Min(Abs(quantity), Abs(signed));
      var realized := if quantity > 0.0 then (price - average) * closing else (average - price) * closing;
      var remaining := Abs(signed) - closing;
      if remaining > EPSILON then
        Netting(remaining * (if signed > 0.0 then 1.0 else -1.0), price, realized)
      else
        var total := quantity + signed;
        if Abs(total) <= EPSILON then Netting(0.0, 0.0, realized) else Netting(total, average, realized)
  }

  function ApplyFill(position: Option<PositionState>, fill: PositionFill): Result<PositionUpdate, PositionError> {
    match SignedQuantity(fill)
    case Err(error) => Err(error)
    case Ok(signed) =>
      var previous := match position
        case None => EmptyPosition(fill.mode, fill.symbol, fill.filledAt)
        case Some(p) => p;
      if previous.mode != fill.mode then Err(ModeMismatch)
      else if previous.symbol != fill.symbol then Err(SymbolMismatch)
      else
        var net := Net(previous.quantity, previous.averageEntryPrice, signed, fill.price);
        var realizedDelta := net.realized - Abs(fill.fee);
        var current := PositionState(
          fill.mode, fill.symbol, net.quantity, net.average, previous.realizedPnl + realizedDelta,
          if Abs(net.quantity) > EPSILON then Open else Closed, fill.filledAt);
        Ok(PositionUpdate(previous, current, realizedDelta))
  }

  // The reference: a ledger of signed cash flows

  // A fill that belongs to the ledger of one mode and symbol.
  predicate Booked(mode: string, symbol: string, fill: PositionFill) {
    && Abs(fill.quantity) > EPSILON && (fill.side == "BUY" || fill.side == "SELL")
    && fill.mode == mode && fill.symbol == symbol
  }

  function Signed(fill: PositionFill): real {
    if fill.side == "BUY" then Abs(fill.quantity) else -Abs(fill.quantity)
  }

  // What buying and selling at these prices is worth at mark `m`, after fees.
  function CashFlow(mode: string, symbol: string, fills: seq<PositionFill>, m: real): real {
    if fills == [] then 0.0
    else CashFlow(mode, symbol, fills[..|fills| - 1], m) + FillCashFlow(mode, symbol, fills[|fills| - 1], m)
  }

  function FillCashFlow(mode: string, symbol: string, fill: PositionFill, m: real): real {
    if Booked(mode, symbol, fill) then Signed(fill) * (m - fill.price) - Abs(fill.fee) else 0.0
  }

  function NetTraded(mode: string, symbol: string, fills: seq<PositionFill>): real {
    if fills == [] then 0.0
    else
      var last := fills[|fills| - 1];
      NetTraded(mode, symbol, fills[..|fills| - 1]) + if Booked(mode, symbol, last) then Signed(last) else 0.0
  }

  // Realized profit plus the open quantity marked at `m`.
  function MarkedValue(p: PositionState, m: real): real {
    p.realizedPnl + p.quantity * (m - p.averageEntryPrice)
  }

  // The quantity a fill makes the engine forget: a leftover it rounds to zero.
  function Dust(quantity: real, signed: real): real {
    if Abs(quantity) <= EPSILON then quantity
    else if !SameDirection(quantity, signed) && Abs(quantity + signed) <= EPSILON then quantity + signed
    else 0.0
  }

  // The price at which a forgotten quantity was held: the old average, unless the fill overshot.
  function DustReference(p: PositionState, signed: real, price: real): real {
    if Abs(p.quantity) <= EPSILON || Abs(signed) <= Abs(p.quantity) then p.averageEntryPrice else price
  }

  // One step: value and quantity move by the fill's cash flow, less forgotten dust

  lemma SharedAverage(a: real, x: real, b: real, y: real, m: real)
    requires a + b != 0.0
    ensures (a + b) * (m - (a * x + b * y) / (a + b)) == a * (m - x) + b * (m - y)
  {
    assert (a + b) * ((a * x + b * y) / (a + b)) == a * x + b * y;
  }

  lemma AddingAverages(q: real, avg: real, s: real, price: real, m: real)
    requires SameDirection(q, s) && Abs(q) > EPSILON && Abs(s) > EPSILON
    ensures var net := Net(q, avg, s, price); net.quantity * (m - net.average) == q * (m - avg) + s * (m - price)
  {
    var net := Net(q, avg, s, price);
    SharedAverage(Abs(q), avg, Abs(s), price, m);
    if q < 0.0 {
      assert net.quantity == -(Abs(q) + Abs(s));
      assert net.average == (Abs(q) * avg + Abs(s) * price) / (Abs(q) + Abs(s));
      assert net.quantity * (m - net.average) == -((Abs(q) + Abs(s)) * (m - net.average));
      assert Abs(q) * (m - avg) == -(q * (m - avg)) && Abs(s) * (m - price) == -(s * (m - price));
    }
  }

  // A reduction: the closed part earns price - average, the rest keeps its average.
  lemma ReducingRealizes(q: real, avg: real, s: real, price: real, m: real)
    requires !SameDirection(q, s) && EPSILON < Abs(s) <= Abs(q)
    ensures Net(q, avg, s, price).realized == s * (avg - price)
    ensures s * (avg - price) + (q + s) * (m - avg) == q * (m - avg) + s * (m - price)
  {
  }

  // An overshoot: all of q is closed and the excess is held at the fill price.
  lemma FlippingRealizes(q: real, avg: real, s: real, price: real, m: real)
    requires !SameDirection(q, s) && EPSILON < Abs(q) < Abs(s)
    ensures Net(q, avg, s, price).realized == q * (price - avg)
    ensures q * (price - avg) + (q + s) * (m - price) == q * (m - avg) + s * (m - price)
  {
  }

  lemma NettingMovesValue(p: PositionState, s: real, price: real, m: real)
    requires Abs(s) > EPSILON
    ensures
      var net := Net(p.quantity, p.averageEntryPrice, s, price);
      net.realized + net.quantity * (m - net.average)
      == p.quantity * (m - p.averageEntryPrice) + s * (m - price)
         - Dust(p.quantity, s) * (m - DustReference(p, s, price))
  {
    var q, avg := p.quantity, p.averageEntryPrice;
    if Abs(q) <= EPSILON {
    } else if SameDirection(q, s) {
      AddingAverages(q, avg, s, price, m);
    } else if Abs(s) <= Abs(q) {
      ReducingRealizes(q, avg, s, price, m);
    } else {
      FlippingRealizes(q, avg, s, price, m);
    }
  }

  // A fill is applied exactly when it is bookable for the position's mode and symbol, and the
  // update then reports the old position, the new one and the profit between them.
  lemma AcceptedFill(p: PositionState, fill: PositionFill)
    ensures ApplyFill(Some(p), fill).Ok? <==> Booked(p.mode, p.symbol, fill)
    ensures ApplyFill(None, fill).Ok? <==> Booked(fill.mode, fill.symbol, fill)
    ensures ApplyFill(Some(p), fill).Ok? ==>
      var u := ApplyFill(Some(p), fill).value;
      && u.previous == p && u.current.updatedAt == fill.filledAt
      && u.realizedPnlDelta == u.current.realizedPnl - p.realizedPnl
  {
    hide Net;
  }

  // A first fill behaves as if it met the empty position of its own mode and symbol.
  lemma FirstFillMeetsEmptyPosition(fill: PositionFill, at: string)
    requires Booked(fill.mode, fill.symbol, fill)
    ensures ApplyFill(None, fill).Ok?
    ensures ApplyFill(None, fill).value.current == Step(EmptyPosition(fill.mode, fill.symbol, at), fill)
  {
  }

  // Whole fill sequences

  function Step(p: PositionState, fill: PositionFill): PositionState {
    match ApplyFill(Some(p), fill)
    case Ok(update) => update.current
    case Err(_) => p
  }

  function Replay(p: PositionState, fills: seq<PositionFill>): PositionState {
    if fills == [] then p else Step(Replay(p, fills[..|fills| - 1]), fills[|fills| - 1])
  }

  // The quantity one fill makes the engine forget, its marked value, and the bound on that value.
  function FillDust(p: PositionState, fill: PositionFill): real {
    if Booked(p.mode, p.symbol, fill) then Dust(p.quantity, Signed(fill)) else 0.0
  }

  function FillDustValue(p: PositionState, fill: PositionFill, m: real): real {
    FillDust(p, fill) * (m - DustReference(p, Signed(fill), fill.price))
  }

  function FillDustBound(p: PositionState, fill: PositionFill, m: real): real {
    if FillDust(p, fill) == 0.0 then 0.0 else EPSILON * Abs(m - DustReference(p, Signed(fill), fill.price))
  }

  // The same three, summed along a replay.
  function DustQuantity(p: PositionState, fills: seq<PositionFill>): real {
    if fills == [] then 0.0
    else
      var rest := fills[..|fills| - 1];
      DustQuantity(p, rest) + FillDust(Replay(p, rest), fills[|fills| - 1])
  }

  function DustValue(p: PositionState, fills: seq<PositionFill>, m: real): real {
    if fills == [] then 0.0
    else
      var rest := fills[..|fills| - 1];
      DustValue(p, rest, m) + FillDustValue(Replay(p, rest), fills[|fills| - 1], m)
  }

  function DustBound(p: PositionState, fills: seq<PositionFill>, m: real): real {
    if fills == [] then 0.0
    else
      var rest := fills[..|fills| - 1];
      DustBound(p, rest, m) + FillDustBound(Replay(p, rest), fills[|fills| - 1], m)
  }

  lemma BookedStep(p: PositionState, fill: PositionFill)
    requires Booked(p.mode, p.symbol, fill)
    ensures
      var net := Net(p.quantity, p.averageEntryPrice, Signed(fill), fill.price);
      var next := Step(p, fill);
      && next.quantity == net.quantity
      && next.averageEntryPrice == net.average
      && next.realizedPnl == p.realizedPnl + (net.realized - Abs(fill.fee))
  {
  }

  lemma RefusedStep(p: PositionState, fill: PositionFill)
    requires !Booked(p.mode, p.symbol, fill)
    ensures Step(p, fill) == p
  {
    AcceptedFill(p, fill);
  }

  lemma StepMovesQuantity(p: PositionState, fill: PositionFill)
    ensures Step(p, fill).quantity
            == p.quantity + (if Booked(p.mode, p.symbol, fill) then Signed(fill) else 0.0) - FillDust(p, fill)
  {
    AcceptedFill(p, fill);
  }

  lemma {:induction false} StepMovesValue(p: PositionState, fill: PositionFill, m: real)
    ensures MarkedValue(Step(p, fill), m)
            == MarkedValue(p, m) + FillCashFlow(p.mode, p.symbol, fill, m) - FillDustValue(p, fill, m)
  {
    hide Net, Step, Dust, DustReference;
    if Booked(p.mode, p.symbol, fill) {
      BookedStep(p, fill);
      NettingMovesValue(p, Signed(fill), fill.price, m);
    } else {
      RefusedStep(p, fill);
    }
  }

  lemma StepDustIsBounded(p: PositionState, fill: PositionFill, m: real)
    ensures Abs(FillDustValue(p, fill, m)) <= FillDustBound(p, fill, m)
  {
    hide DustReference;
    assert Abs(FillDust(p, fill)) <= EPSILON;
    ScaledBound(FillDust(p, fill), EPSILON, m - DustReference(p, Signed(fill), fill.price));
  }

  lemma {:induction false} ReplayKeepsScope(p: PositionState, fills: seq<PositionFill>)
    ensures Replay(p, fills).mode == p.mode && Replay(p, fills).symbol == p.symbol
  {
    if fills != [] {
      ReplayKeepsScope(p, fills[..|fills| - 1]);
    }
  }

  // For every fill sequence, from any position and at any mark, the branching average-cost
  // arithmetic agrees with the cash-flow ledger up to forgotten dust.
  lemma {:induction false} ReplayAgreesWithCashFlow(p: PositionState, fills: seq<PositionFill>, m: real)
    ensures MarkedValue(Replay(p, fills), m)
            == MarkedValue(p, m) + CashFlow(p.mode, p.symbol, fills, m) - DustValue(p, fills, m)
    ensures Replay(p, fills).quantity
            == p.quantity + NetTraded(p.mode, p.symbol, fills) - DustQuantity(p, fills)
    ensures Abs(DustValue(p, fills, m)) <= DustBound(p, fills, m)
  {
    hide Step, MarkedValue, FillDustValue, FillDustBound, FillCashFlow;
    if fills != [] {
      var rest := fills[..|fills| - 1];
      ReplayAgreesWithCashFlow(p, rest, m);
      ReplayKeepsScope(p, rest);
      StepMovesValue(Replay(p, rest), fills[|fills| - 1], m);
      StepMovesQuantity(Replay(p, rest), fills[|fills| - 1]);
      StepDustIsBounded(Replay(p, rest), fills[|fills| - 1], m);
    }
  }

  // No fill rounds a leftover away.
  predicate DustFree(p: PositionState, fills: seq<PositionFill>) {
    forall i :: 0 <= i < |fills| ==> FillDust(Replay(p, fills[..i]), fills[i]) == 0.0
  }

  lemma {:induction false} DustFreeLosesNothing(p: PositionState, fills: seq<PositionFill>, m: real)
    requires DustFree(p, fills)
    ensures DustValue(p, fills, m) == 0.0 && DustQuantity(p, fills) == 0.0
  {
    if fills != [] {
      var rest := fills[..|fills| - 1];
      assert forall i :: 0 <= i < |rest| ==> fills[..i] == rest[..i];
      DustFreeLosesNothing(p, rest, m);
    }
  }

  // What every reachable position satisfies.
  predicate Settled(p: PositionState) {
    && (p.quantity == 0.0 || Abs(p.quantity) > EPSILON)
    && (p.status.Open? <==> p.quantity != 0.0)
    && (p.quantity == 0.0 ==> p.averageEntryPrice == 0.0)
  }

  lemma {:induction false} ReplayStaysSettled(p: PositionState, fills: seq<PositionFill>)
    requires Settled(p)
    ensures Settled(Replay(p, fills))
  {
    if fills != [] {
      ReplayStaysSettled(p, fills[..|fills| - 1]);
    }
  }

  // The ledger theorem from an empty position: exact without dust, and otherwise off by at
  // most EPSILON times the distance of the mark from the reference price of each dust close.
  lemma {:induction false} LedgerTheorem(mode: string, symbol: string, at: string, fills: seq<PositionFill>, m: real)
    ensures
      var empty := EmptyPosition(mode, symbol, at);
      var p := Replay(empty, fills);
      && Settled(p)
      && Abs(MarkedValue(p, m) - CashFlow(mode, symbol, fills, m)) <= DustBound(empty, fills, m)
      && (DustFree(empty, fills) ==>
            MarkedValue(p, m) == CashFlow(mode, symbol, fills, m) && p.quantity == NetTraded(mode, symbol, fills))
  {
    hide Replay, CashFlow, DustValue, DustBound, DustQuantity, NetTraded, DustFree;
    var empty := EmptyPosition(mode, symbol, at);
    assert MarkedValue(empty, m) == 0.0;
    ReplayStaysSettled(empty, fills);
    ReplayAgreesWithCashFlow(empty, fills, m);
    if DustFree(empty, fills) {
      DustFreeLosesNothing(empty, fills, m);
    }
  }
}
