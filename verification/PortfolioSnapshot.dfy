/** Marking positions to market: `services/oms/portfolio_snapshot.py`. */
module PortfolioSnapshot {
  import opened Basics
  import opened Sums
  import opened PositionEngine

  datatype Snapshot = Snapshot(
    snapshotTime: string, mode: string, totalBalance: real, availableBalance: real,
    lockedBalance: real, unrealizedPnl: real, realizedPnlTotal: real)

  datatype SnapshotError = PositionModeMismatch(symbol: string) | MissingMark(symbol: string)

  function Realized(p: PositionState): real {
    p.realizedPnl
  }

  // What an open position would earn if closed at its mark.
  function Unrealized(p: PositionState, marks: map<string, real>): real {
    if Abs(p.quantity) <= EPSILON || p.symbol !in marks then 0.0
    else (marks[p.symbol] - p.averageEntryPrice) * p.quantity
  }

  function UnrealizedAt(marks: map<string, real>): PositionState -> real {
    p => Unrealized(p, marks)
  }

  // What is wrong with one position, if anything.
  function Problem(mode: string, p: PositionState, marks: map<string, real>): Option<SnapshotError> {
    if p.mode != mode then Some(PositionModeMismatch(p.symbol))
    else if Abs(p.quantity) > EPSILON && p.symbol !in marks then Some(MissingMark(p.symbol))
    else None
  }

  function FirstProblem(mode: string, positions: seq<PositionState>, marks: map<string, real>):
    (r: Option<SnapshotError>)
    ensures r.None? <==> forall p :: p in positions ==> Problem(mode, p, marks).None?
    ensures r.Some? ==> exists p :: p in positions && Problem(mode, p, marks) == r
  {
    if positions == [] then None
    else
      var rest := FirstProblem(mode, positions[..|positions| - 1], marks);
      if rest.Some? then rest else Problem(mode, positions[|positions| - 1], marks)
  }

  // The mode and every symbol are taken as already trimmed and upper-cased.
  method BuildSnapshot(mode: string, available: real, locked: real, positions: seq<PositionState>,
                       marks: map<string, real>, realizedTotal: Option<real>, now: string)
    returns (result: Result<Snapshot, SnapshotError>)
    ensures result == Built(mode, available, locked, positions, marks, realizedTotal, now)
  {
    var unrealized, realizedFromPositions := 0.0, 0.0;
    for i := 0 to |positions|
      invariant FirstProblem(mode, positions[..i], marks).None?
      invariant unrealized == SumOf(positions[..i], UnrealizedAt(marks))
      invariant realizedFromPositions == SumOf(positions[..i], Realized)
    {
      var position := positions[i];
      assert positions[..i + 1][..i] == positions[..i];
      assert positions == positions[..i + 1] + positions[i + 1..];
      if position.mode != mode {
        ProblemPersists(mode, positions, i + 1, marks);
        return Err(PositionModeMismatch(position.symbol));
      }
      realizedFromPositions := realizedFromPositions + position.realizedPnl;
      if Abs(position.quantity) > EPSILON {
        if position.symbol !in marks {
          ProblemPersists(mode, positions, i + 1, marks);
          return Err(MissingMark(position.symbol));
        }
        unrealized := unrealized + (marks[position.symbol] - position.averageEntryPrice) * position.quantity;
      }
    }
    assert positions[..|positions|] == positions;
    var realized := if realizedTotal.Some? then realizedTotal.value else realizedFromPositions;
    return Ok(Snapshot(now, mode, available + locked + unrealized, available, locked, unrealized, realized));
  }

  lemma {:induction false} ProblemPersists(mode: string, positions: seq<PositionState>, n: nat,
                                           marks: map<string, real>)
    requires n <= |positions| && FirstProblem(mode, positions[..n], marks).Some?
    ensures FirstProblem(mode, positions, marks) == FirstProblem(mode, positions[..n], marks)
  {
    if n == |positions| {
      assert positions[..n] == positions;
    } else {
      var rest := positions[..|positions| - 1];
      assert rest[..n] == positions[..n];
      ProblemPersists(mode, rest, n, marks);
    }
  }

  function Built(mode: string, available: real, locked: real, positions: seq<PositionState>,
                 marks: map<string, real>, realizedTotal: Option<real>, now: string): Result<Snapshot, SnapshotError>
  {
    var problem := FirstProblem(mode, positions, marks);
    if problem.Some? then Err(problem.value)
    else
      var unrealized := SumOf(positions, UnrealizedAt(marks));
      var realized := if realizedTotal.Some? then realizedTotal.value else SumOf(positions, Realized);
      Ok(Snapshot(now, mode, available + locked + unrealized, available, locked, unrealized, realized))
  }

  // Realized plus unrealized profit of settled positions that all have a mark.
  function MarkedAt(marks: map<string, real>): PositionState -> real {
    (p: PositionState) => if p.symbol in marks then MarkedValue(p, marks[p.symbol]) else p.realizedPnl
  }

  lemma SettledMarkedValue(p: PositionState, marks: map<string, real>)
    requires Settled(p)
    ensures MarkedAt(marks)(p) == UnrealizedAt(marks)(p) + Realized(p)
  {
    if p.symbol in marks && p.quantity != 0.0 {
      var gain := marks[p.symbol] - p.averageEntryPrice;
      assert gain * p.quantity == p.quantity * gain;
    }
  }

  lemma {:induction false} PnlIsMarkedValue(positions: seq<PositionState>, marks: map<string, real>)
    requires forall p :: p in positions ==> Settled(p)
    ensures SumOf(positions, UnrealizedAt(marks)) + SumOf(positions, Realized) == SumOf(positions, MarkedAt(marks))
  {
    if positions != [] {
      var last := positions[|positions| - 1];
      PnlIsMarkedValue(positions[..|positions| - 1], marks);
      SettledMarkedValue(last, marks);
    }
  }
}
