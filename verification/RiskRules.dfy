/** The pre-trade limits of `services/oms/risk_rules.py`, and what passing them guarantees about
    the position engine while the order fills. */
module RiskRules {
  import opened Basics
  import opened PositionEngine

  datatype ProposedOrder = ProposedOrder(mode: string, symbol: string, side: string, quantity: real, price: real)

  // A zero daily loss or drawdown limit disables that check.
  datatype Config = Config(
    maxPositionAbs: real, maxSymbolNotional: real, maxLeverage: real, maxDailyLoss: real, maxDrawdownPct: real)

  datatype Account = Account(equity: real, totalExposure: real, realizedPnlToday: real, peakEquity: real)

  // Leverage without equity is infinite.
  datatype Measure = Finite(value: real) | Infinite

  datatype CheckName = PositionLimit | SymbolNotionalLimit | LeverageLimit | DailyLossLimit | MaxDrawdown

  datatype Check = Check(name: CheckName, passed: bool, value: Measure, limit: real)

  datatype Evaluation = Evaluation(
    allowed: bool, blockedBy: seq<CheckName>, projectedQuantity: real, projectedSymbolNotional: real,
    projectedTotalExposure: real, projectedLeverage: Measure, checks: seq<Check>)

  datatype RiskError =
    | ModeNotSet | SymbolNotSet | UnsupportedOrderSide | OrderQuantityNotPositive | OrderPriceNotPositive
    | PositionModeDiffers | PositionSymbolDiffers

  predicate ValidConfig(c: Config) {
    && c.maxPositionAbs > 0.0 && c.maxSymbolNotional > 0.0 && c.maxLeverage > 0.0
    && c.maxDailyLoss >= 0.0 && c.maxDrawdownPct >= 0.0
  }

  function OrderError(order: ProposedOrder): Option<RiskError> {
    if order.mode == "" then Some(ModeNotSet)
    else if order.symbol == "" then Some(SymbolNotSet)
    else if order.side != "BUY" && order.side != "SELL" then Some(UnsupportedOrderSide)
    else if Abs(order.quantity) <= EPSILON then Some(OrderQuantityNotPositive)
    else if order.price <= EPSILON then Some(OrderPriceNotPositive)
    else None
  }

  function InputError(order: ProposedOrder, position: Option<PositionState>): Option<RiskError> {
    if OrderError(order).Some? then OrderError(order)
    else if position.Some? && position.value.mode != order.mode then Some(PositionModeDiffers)
    else if position.Some? && position.value.symbol != order.symbol then Some(PositionSymbolDiffers)
    else None
  }

  function OrderSign(order: ProposedOrder): real {
    if order.side == "BUY" then 1.0 else -1.0
  }

  function CurrentQuantity(position: Option<PositionState>): real {
    if position.Some? then position.value.quantity else 0.0
  }

  // The position once the whole order has filled.
  function Projected(order: ProposedOrder, position: Option<PositionState>): real {
    CurrentQuantity(position) + OrderSign(order) * Abs(order.quantity)
  }

  function BlockedBy(checks: seq<Check>): (names: seq<CheckName>)
    ensures names == [] <==> forall c :: c in checks ==> c.passed
    ensures forall n :: n in names <==> exists c :: c in checks && !c.passed && c.name == n
  {
    if checks == [] then []
    else
      assert checks == [checks[0]] + checks[1..];
      (if checks[0].passed then [] else [checks[0].name]) + BlockedBy(checks[1..])
  }

  function Drawdown(account: Account): real {
    if account.peakEquity > EPSILON then (account.peakEquity - account.equity) / account.peakEquity else 0.0
  }

  function Checks(config: Config, projected: real, notional: real, leverage: Measure, account: Account): seq<Check> {
    var loss := Min(0.0, account.realizedPnlToday);
    [ Check(PositionLimit, Abs(projected) <= config.maxPositionAbs, Finite(Abs(projected)), config.maxPositionAbs),
      Check(SymbolNotionalLimit, notional <= config.maxSymbolNotional, Finite(notional), config.maxSymbolNotional),
      Check(LeverageLimit, leverage.Finite? && leverage.value <= config.maxLeverage, leverage, config.maxLeverage) ]
    + (if config.maxDailyLoss > 0.0
       then [Check(DailyLossLimit, loss >= -config.maxDailyLoss, Finite(Abs(loss)), config.maxDailyLoss)] else [])
    + (if config.maxDrawdownPct > 0.0 && account.peakEquity > 0.0
       then [Check(MaxDrawdown, Drawdown(account) <= config.maxDrawdownPct,
                   Finite(Drawdown(account)), config.maxDrawdownPct)]
       else [])
  }

  function Evaluate(config: Config, order: ProposedOrder, position: Option<PositionState>, account: Account):
    Result<Evaluation, RiskError>
    requires ValidConfig(config)
  {
    if InputError(order, position).Some? then Err(InputError(order, position).value)
    else
      var current := CurrentQuantity(position);
      var projected := Projected(order, position);
      var notional := Abs(projected) * order.price;
      var exposure := Max(0.0, Max(0.0, account.totalExposure) - Abs(current) * order.price + notional);
      var leverage :=
        if account.equity <= EPSILON then (if exposure > EPSILON then Infinite else Finite(0.0))
        else Finite(exposure / account.equity);
      var checks := Checks(config, projected, notional, leverage, account);
      Ok(Evaluation(BlockedBy(checks) == [], BlockedBy(checks), projected, notional, exposure, leverage, checks))
  }

  // The position limit did not block the order.
  predicate PassesPositionLimit(e: Evaluation) {
    PositionLimit !in e.blockedBy
  }

  // Exactly one check guards the position, whatever else is enabled.
  lemma PositionCheck(config: Config, projected: real, notional: real, leverage: Measure, account: Account)
    ensures PositionLimit !in BlockedBy(Checks(config, projected, notional, leverage, account))
            <==> Abs(projected) <= config.maxPositionAbs
  {
    hide BlockedBy;
    var checks := Checks(config, projected, notional, leverage, account);
    assert checks[0] in checks;
  }

  lemma PositionLimitMeaning(config: Config, order: ProposedOrder, position: Option<PositionState>, account: Account)
    requires ValidConfig(config) && Evaluate(config, order, position, account).Ok?
    ensures
      var e := Evaluate(config, order, position, account).value;
      PassesPositionLimit(e) <==>
        Abs(Projected(order, position)) <= config.maxPositionAbs
  {
    hide Checks, Max, Projected, InputError, BlockedBy;
    var e := Evaluate(config, order, position, account).value;
    PositionCheck(config, e.projectedQuantity, e.projectedSymbolNotional, e.projectedLeverage, account);
  }

  // Every booked fill is on the order's side.
  predicate OnSide(side: string, mode: string, symbol: string, fills: seq<PositionFill>) {
    forall f :: f in fills && Booked(mode, symbol, f) ==> f.side == side
  }

  // One more fill on the side of sign `sign`, from a quantity that is exact or has lost at most
  // EPSILON once and since then sits on the order's side of zero.
  predicate NearExact(quantity: real, exact: real, sign: real) {
    || quantity == exact
    || (Abs(quantity - exact) <= EPSILON && sign * quantity >= 0.0 && (quantity == 0.0 || Abs(quantity) > EPSILON))
  }

  lemma NearExactStep(quantity: real, exact: real, sign: real, signed: real)
    requires sign == 1.0 || sign == -1.0
    requires NearExact(quantity, exact, sign) && sign * signed > EPSILON
    ensures NearExact(quantity + signed - Dust(quantity, signed), exact + signed, sign)
  {
  }

  lemma {:induction false} SameSideReplay(p: PositionState, side: string, fills: seq<PositionFill>)
    requires OnSide(side, p.mode, p.symbol, fills) && (side == "BUY" || side == "SELL")
    ensures
      var sign := if side == "BUY" then 1.0 else -1.0;
      var traded := NetTraded(p.mode, p.symbol, fills);
      sign * traded >= 0.0 && NearExact(Replay(p, fills).quantity, p.quantity + traded, sign)
  {
    hide Step, NearExact;
    var sign := if side == "BUY" then 1.0 else -1.0;
    if fills == [] {
      ExactIsNear(p.quantity, sign);
    } else {
      var (rest, last) := (fills[..|fills| - 1], fills[|fills| - 1]);
      assert last in fills;
      SameSideReplay(p, side, rest);
      ReplayKeepsScope(p, rest);
      StepMovesQuantity(Replay(p, rest), last);
      if Booked(p.mode, p.symbol, last) {
        NearExactStep(Replay(p, rest).quantity, p.quantity + NetTraded(p.mode, p.symbol, rest), sign, Signed(last));
      }
    }
  }

  lemma ExactIsNear(quantity: real, sign: real)
    ensures NearExact(quantity, quantity, sign)
  {
  }

  // An order that passes the position limit from a position within it keeps the engine within
  // the limit, up to EPSILON, all along any partial fills on its side of at most its quantity.
  lemma {:induction false} PositionStaysWithinLimit(config: Config, order: ProposedOrder,
                                                    position: Option<PositionState>, account: Account, at: string,
                                                    fills: seq<PositionFill>)
    requires ValidConfig(config) && Evaluate(config, order, position, account).Ok?
    requires PassesPositionLimit(Evaluate(config, order, position, account).value)
    requires Abs(CurrentQuantity(position)) <= config.maxPositionAbs
    requires OnSide(order.side, order.mode, order.symbol, fills)
    requires Abs(NetTraded(order.mode, order.symbol, fills)) <= Abs(order.quantity)
    ensures
      var start := if position.Some? then position.value else EmptyPosition(order.mode, order.symbol, at);
      forall n :: 0 <= n <= |fills| ==> Abs(Replay(start, fills[..n]).quantity) <= config.maxPositionAbs + EPSILON
  {
    hide Evaluate, Replay, NetTraded, PassesPositionLimit, OnSide;
    var start := if position.Some? then position.value else EmptyPosition(order.mode, order.symbol, at);
    AcceptedInputs(config, order, position, account);
    PositionLimitMeaning(config, order, position, account);
    forall n | 0 <= n <= |fills|
      ensures Abs(Replay(start, fills[..n]).quantity) <= config.maxPositionAbs + EPSILON
    {
      PrefixTradesLess(order.side, order.mode, order.symbol, fills, n);
      SameSideReplay(start, order.side, fills[..n]);
    }
  }

  // Fills on one side trade at least as much as any prefix of them.
  lemma {:induction false} PrefixTradesLess(side: string, mode: string, symbol: string, fills: seq<PositionFill>,
                                            n: nat)
    requires OnSide(side, mode, symbol, fills) && (side == "BUY" || side == "SELL") && n <= |fills|
    ensures OnSide(side, mode, symbol, fills[..n])
    ensures Abs(NetTraded(mode, symbol, fills[..n])) <= Abs(NetTraded(mode, symbol, fills))
  {
    hide Replay, NearExact;
    if n == |fills| {
      assert fills[..n] == fills;
    } else {
      var rest := fills[..|fills| - 1];
      PrefixTradesLess(side, mode, symbol, rest, n);
      assert rest[..n] == fills[..n];
      SameSideReplay(EmptyPosition(mode, symbol, ""), side, rest);
    }
  }

  lemma AcceptedInputs(config: Config, order: ProposedOrder, position: Option<PositionState>, account: Account)
    requires ValidConfig(config) && Evaluate(config, order, position, account).Ok?
    ensures InputError(order, position).None?
  {
  }

  lemma DivisionBound(x: real, y: real, limit: real)
    requires y > 0.0
    ensures x / y <= limit <==> x <= limit * y
  {
    var ratio := x / y;
    assert x == ratio * y;
    assert (limit - ratio) * y == limit * y - x;
    if ratio > limit {
      assert (ratio - limit) * y > 0.0;
    } else {
      ProductSign(limit - ratio, y);
    }
  }

  lemma DrawdownBound(account: Account, limit: real)
    requires limit > 0.0
    ensures Drawdown(account) <= limit <==>
      (account.peakEquity > EPSILON ==> account.peakEquity - account.equity <= limit * account.peakEquity)
  {
    if account.peakEquity > EPSILON {
      DivisionBound(account.peakEquity - account.equity, account.peakEquity, limit);
    }
  }

  lemma AllChecks(config: Config, projected: real, notional: real, leverage: Measure, account: Account)
    requires ValidConfig(config)
    ensures BlockedBy(Checks(config, projected, notional, leverage, account)) == [] <==>
      && Abs(projected) <= config.maxPositionAbs
      && notional <= config.maxSymbolNotional
      && leverage.Finite? && leverage.value <= config.maxLeverage
      && (config.maxDailyLoss > 0.0 ==> account.realizedPnlToday >= -config.maxDailyLoss)
      && (config.maxDrawdownPct > 0.0 && account.peakEquity > 0.0 ==> Drawdown(account) <= config.maxDrawdownPct)
  {
    hide BlockedBy, Drawdown;
    var checks := Checks(config, projected, notional, leverage, account);
    assert (forall c :: c in checks ==> c.passed) <==> forall i :: 0 <= i < |checks| ==> checks[i].passed;
  }

  // An order is allowed exactly when every enabled limit holds of the projection; an account
  // without equity may only end up without exposure.
  lemma {:induction false} AllowedExactly(config: Config, order: ProposedOrder, position: Option<PositionState>,
                                          account: Account)
    requires ValidConfig(config) && Evaluate(config, order, position, account).Ok?
    ensures
      var e := Evaluate(config, order, position, account).value;
      e.allowed <==>
        && Abs(Projected(order, position)) <= config.maxPositionAbs
        && Abs(Projected(order, position)) * order.price <= config.maxSymbolNotional
        && e.projectedTotalExposure
             <= (if account.equity > EPSILON then config.maxLeverage * account.equity else EPSILON)
        && (config.maxDailyLoss > 0.0 ==> account.realizedPnlToday >= -config.maxDailyLoss)
        && (config.maxDrawdownPct > 0.0 && account.peakEquity > EPSILON ==>
              account.peakEquity - account.equity <= config.maxDrawdownPct * account.peakEquity)
  {
    hide Checks, Max, Abs, Projected, InputError, Drawdown;
    var e := Evaluate(config, order, position, account).value;
    AllChecks(config, e.projectedQuantity, e.projectedSymbolNotional, e.projectedLeverage, account);
    if account.equity > EPSILON {
      DivisionBound(e.projectedTotalExposure, account.equity, config.maxLeverage);
    }
    if config.maxDrawdownPct > 0.0 {
      DrawdownBound(account, config.maxDrawdownPct);
    }
  }

  // With an account exposure that includes the current position, the projection replaces exactly
  // that position's notional.
  lemma ExposureFollowsPosition(config: Config, order: ProposedOrder, position: Option<PositionState>, account: Account)
    requires ValidConfig(config) && Evaluate(config, order, position, account).Ok?
    requires account.totalExposure >= Abs(CurrentQuantity(position)) * order.price
    ensures
      var e := Evaluate(config, order, position, account).value;
      e.projectedTotalExposure - account.totalExposure
      == (Abs(e.projectedQuantity) - Abs(CurrentQuantity(position))) * order.price
  {
    hide Checks, BlockedBy;
    AcceptedInputs(config, order, position, account);
    var e := Evaluate(config, order, position, account).value;
    ProductSign(Abs(e.projectedQuantity), order.price);
    ProductSign(Abs(CurrentQuantity(position)), order.price);
  }
}
