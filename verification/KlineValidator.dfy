/** The candle validator and gap finder of `services/market_ingestion/kline_validator.py`. */
module KlineValidator {
  import opened Basics
  import opened StableSort

  datatype Bar = Bar(openTime: int, open: real, high: real, low: real, close: real, volume: real)

  datatype KlineError =
    | NotIncreasing
    | HighLowInconsistent(at: int)
    | NegativeVolume(at: int)
    | IntervalMismatch(previous: int, current: int)

  datatype Validation = Validation(isValid: bool, missing: seq<int>, errors: seq<KlineError>)

  // Pieces

  predicate IncreasingTimes(bars: seq<Bar>) {
    forall i :: 0 < i < |bars| ==> bars[i - 1].openTime < bars[i].openTime
  }

  predicate Multiple(d: int, n: int)
    requires n != 0
  {
    d % n == 0
  }

  function ErrorsOf(b: Bar): seq<KlineError> {
    var maxOc := if b.open < b.close then b.close else b.open;
    var minOc := if b.open < b.close then b.open else b.close;
    (if b.high < maxOc || b.low > minOc || b.low > b.high then [HighLowInconsistent(b.openTime)] else [])
    + (if b.volume < 0.0 then [NegativeVolume(b.openTime)] else [])
  }

  function BarErrors(bars: seq<Bar>): seq<KlineError> {
    if bars == [] then [] else BarErrors(bars[..|bars| - 1]) + ErrorsOf(bars[|bars| - 1])
  }

  // Python's `range(start, stop, step)` as a list.
  function Range(start: int, stop: int, step: int): seq<int>
    requires step != 0
    decreases if step > 0 then stop - start else start - stop
  {
    if (step > 0 && start < stop) || (step < 0 && start > stop) then [start] + Range(start + step, stop, step) else []
  }

  // What the step between two neighbouring bars contributes.
  function GapErrors(previous: int, current: int, interval: int): seq<KlineError>
    requires interval != 0
  {
    if current > previous && !Multiple(current - previous, interval) then [IntervalMismatch(previous, current)] else []
  }

  function Gap(previous: int, current: int, interval: int): seq<int>
    requires interval != 0
  {
    if current > previous && current - previous > interval then Range(previous + interval, current, interval) else []
  }

  function AllGapErrors(bars: seq<Bar>, interval: int): seq<KlineError>
    requires interval != 0
  {
    if |bars| < 2 then []
    else AllGapErrors(bars[..|bars| - 1], interval)
         + GapErrors(bars[|bars| - 2].openTime, bars[|bars| - 1].openTime, interval)
  }

  function AllGaps(bars: seq<Bar>, interval: int): seq<int>
    requires interval != 0
  {
    if |bars| < 2 then []
    else AllGaps(bars[..|bars| - 1], interval) + Gap(bars[|bars| - 2].openTime, bars[|bars| - 1].openTime, interval)
  }

  function ByTime(b: Bar): real {
    b.openTime as real
  }

  function OrderErrors(bars: seq<Bar>): seq<KlineError> {
    if IncreasingTimes(bars) then [] else [NotIncreasing]
  }

  // No time is later than the one before.
  predicate NeverLater(bars: seq<Bar>) {
    forall i :: 0 < i < |bars| ==> bars[i].openTime <= bars[i - 1].openTime
  }

  // The missing times and mismatches of sorted bars; nothing when a zero interval divides a gap.
  function GapsOf(sorted: seq<Bar>, interval: int): Option<(seq<int>, seq<KlineError>)> {
    if interval != 0 then Some((AllGaps(sorted, interval), AllGapErrors(sorted, interval)))
    else if NeverLater(sorted) then Some(([], []))
    else None
  }

  // The validation, or nothing when it raises.
  function Validated(bars: seq<Bar>, interval: int): Option<Validation> {
    match GapsOf(SortBy(bars, ByTime), interval)
    case None => None
    case Some((missing, mismatches)) =>
      var errors := OrderErrors(bars) + BarErrors(bars) + mismatches;
      Some(Validation(errors == [] && missing == [], missing, errors))
  }

  // The loops

  method CheckOrder(bars: seq<Bar>) returns (errors: seq<KlineError>)
    ensures errors == OrderErrors(bars)
  {
    errors := [];
    if bars == [] {
      return;
    }
    for index := 1 to |bars|
      invariant errors == [] && forall i :: 0 < i < index ==> bars[i - 1].openTime < bars[i].openTime
    {
      if bars[index].openTime <= bars[index - 1].openTime {
        errors := errors + [NotIncreasing];
        break;
      }
    }
  }

  method CheckBars(bars: seq<Bar>) returns (errors: seq<KlineError>)
    ensures errors == BarErrors(bars)
  {
    errors := [];
    for index := 0 to |bars|
      invariant errors == BarErrors(bars[..index])
    {
      assert bars[..index + 1][..index] == bars[..index];
      var bar := bars[index];
      var maxOc := if bar.open < bar.close then bar.close else bar.open;
      var minOc := if bar.open < bar.close then bar.open else bar.close;
      if bar.high < maxOc || bar.low > minOc || bar.low > bar.high {
        errors := errors + [HighLowInconsistent(bar.openTime)];
      }
      if bar.volume < 0.0 {
        errors := errors + [NegativeVolume(bar.openTime)];
      }
    }
    assert bars[..|bars|] == bars;
  }

  method FindGaps(sorted: seq<Bar>, interval: int) returns (gaps: Option<(seq<int>, seq<KlineError>)>)
    ensures gaps == GapsOf(sorted, interval)
  {
    hide Range;
    var missing: seq<int>, errors: seq<KlineError> := [], [];
    if sorted == [] {
      return Some(([], []));
    }
    for index := 1 to |sorted|
      invariant interval != 0 ==> errors == AllGapErrors(sorted[..index], interval)
      invariant interval != 0 ==> missing == AllGaps(sorted[..index], interval)
      invariant interval == 0 ==> missing == [] && errors == [] && NeverLater(sorted[..index])
    {
      assert sorted[..index + 1][..index] == sorted[..index];
      var previous := sorted[index - 1].openTime;
      var current := sorted[index].openTime;
      var gap := current - previous;
      if gap > 0 {
        if interval == 0 {
          return None;
        }
        if gap % interval != 0 {
          errors := errors + [IntervalMismatch(previous, current)];
        }
        if gap > interval {
          missing := missing + Range(previous + interval, current, interval);
        }
      }
    }
    assert sorted[..|sorted|] == sorted;
    return Some((missing, errors));
  }

  method Validate(bars: seq<Bar>, interval: int) returns (result: Option<Validation>)
    ensures result == Validated(bars, interval)
  {
    hide AllGaps, AllGapErrors;
    if bars == [] {
      NothingToValidate(interval);
      return Some(Validation(true, [], []));
    }
    var order := CheckOrder(bars);
    var consistency := CheckBars(bars);
    var gaps := FindGaps(SortBy(bars, ByTime), interval);
    match gaps {
      case None =>
        return None;
      case Some((missing, mismatches)) =>
        var errors := order + consistency + mismatches;
        return Some(Validation(errors == [] && missing == [], missing, errors));
    }
  }

  lemma NothingToValidate(interval: int)
    ensures Validated([], interval) == Some(Validation(true, [], []))
  {
  }

  // Arithmetic of the grid

  lemma QuotientUnique(n: int, q: int, r: int, q': int, r': int)
    requires n > 0 && 0 <= r < n && 0 <= r' < n && q * n + r == q' * n + r'
    ensures r == r'
  {
    var d := q - q';
    assert d * n == q * n - q' * n == r' - r;
    AtLeastN(d, n);
    AtLeastN(-d, n);
  }

  lemma AtLeastN(d: int, n: int)
    requires n > 0
    ensures d >= 1 ==> d * n >= n
    ensures d * n == -(-d * n)
    ensures d == 0 ==> d * n == 0
  {
  }

  lemma MultiplePlusN(y: int, n: int)
    requires n > 0
    ensures Multiple(y + n, n) <==> Multiple(y, n)
  {
    var (q, q') := ((y + n) / n, y / n + 1);
    assert (y / n + 1) * n == (y / n) * n + n;
    QuotientUnique(n, q, (y + n) % n, q', y % n);
  }

  lemma SmallMultiple(y: int, n: int)
    requires 0 <= y < n
    ensures Multiple(y, n) <==> y == 0
  {
  }

  // Moving by a multiple of n changes nothing.
  lemma {:induction false} MultipleShift(y: int, d: int, n: int)
    requires n > 0 && d >= 0 && Multiple(d, n)
    ensures Multiple(y + d, n) <==> Multiple(y, n)
    decreases d
  {
    hide Multiple;
    if d < n {
      SmallMultiple(d, n);
    } else {
      MultiplePlusN(d - n, n);
      MultipleShift(y, d - n, n);
      MultiplePlusN(y + d - n, n);
    }
  }

  predicate Increasing(xs: seq<int>) {
    forall i :: 0 < i < |xs| ==> xs[i - 1] < xs[i]
  }

  lemma {:induction false} RangeContent(start: int, stop: int, n: int)
    requires n > 0
    ensures forall x :: x in Range(start, stop, n) <==> start <= x < stop && Multiple(x - start, n)
    ensures Increasing(Range(start, stop, n))
    decreases stop - start
  {
    hide Multiple;
    if start < stop {
      var rest := Range(start + n, stop, n);
      RangeContent(start + n, stop, n);
      forall x ensures x in [start] + rest <==> start <= x < stop && Multiple(x - start, n) {
        if x >= start + n {
          MultiplePlusN(x - (start + n), n);
        } else if x >= start {
          SmallMultiple(x - start, n);
        }
      }
      if rest != [] {
        assert rest[0] in rest;
      }
    }
  }

  // Missing open times

  predicate Sorted(bars: seq<Bar>) {
    forall i, j :: 0 <= i <= j < |bars| ==> bars[i].openTime <= bars[j].openTime
  }

  // Open times congruent modulo n.
  predicate Congruent(bars: seq<Bar>, n: int)
    requires n > 0
  {
    forall a, b :: a in bars && b in bars && a.openTime <= b.openTime ==> Multiple(b.openTime - a.openTime, n)
  }

  predicate HasTime(bars: seq<Bar>, x: int) {
    exists b :: b in bars && b.openTime == x
  }

  // x is a grid point from the first to the last of the sorted bars that no bar has.
  predicate Absent(bars: seq<Bar>, n: int, x: int)
    requires n > 0
  {
    && bars != [] && bars[0].openTime <= x <= bars[|bars| - 1].openTime
    && Multiple(x - bars[0].openTime, n) && !HasTime(bars, x)
  }

  lemma HasTimeOneMore(bars: seq<Bar>, x: int)
    requires bars != []
    ensures HasTime(bars, x) <==> HasTime(bars[..|bars| - 1], x) || bars[|bars| - 1].openTime == x
  {
    assert bars == bars[..|bars| - 1] + [bars[|bars| - 1]];
  }

  lemma NothingPastTheEnd(bars: seq<Bar>, x: int)
    requires Sorted(bars) && bars != [] && x > bars[|bars| - 1].openTime
    ensures !HasTime(bars, x)
  {
  }

  // One more bar: exactly the grid points strictly between the last two bars are newly absent.
  lemma {:induction false} AbsentOneMore(bars: seq<Bar>, n: int, x: int)
    requires n > 0 && |bars| >= 2 && Sorted(bars) && Congruent(bars, n)
    ensures
      var (rest, previous, current) := (bars[..|bars| - 1], bars[|bars| - 2].openTime, bars[|bars| - 1].openTime);
      Absent(bars, n, x) <==>
        Absent(rest, n, x) || (previous + n <= x < current && Multiple(x - (previous + n), n))
  {
    hide Multiple, HasTime;
    var (rest, previous, current) := (bars[..|bars| - 1], bars[|bars| - 2].openTime, bars[|bars| - 1].openTime);
    HasTimeOneMore(bars, x);
    if x > previous {
      NothingPastTheEnd(rest, x);
      assert bars[0] in bars && bars[|bars| - 2] in bars;
      MultipleShift(x - previous, previous - bars[0].openTime, n);
      MultiplePlusN(x - (previous + n), n);
      if x < previous + n {
        SmallMultiple(x - previous, n);
      }
    } else {
      HasTimeOneMore(rest, x);
    }
  }

  lemma GapIsRange(previous: int, current: int, n: int)
    requires n > 0
    ensures Gap(previous, current, n) == Range(previous + n, current, n)
  {
  }

  lemma SortedGridPrefix(bars: seq<Bar>, n: int)
    requires n > 0 && bars != [] && Sorted(bars) && Congruent(bars, n)
    ensures Sorted(bars[..|bars| - 1]) && Congruent(bars[..|bars| - 1], n)
  {
  }

  lemma {:induction false} GapsAreAbsentTimes(bars: seq<Bar>, n: int)
    requires n > 0 && Sorted(bars) && Congruent(bars, n)
    ensures forall x :: x in AllGaps(bars, n) <==> Absent(bars, n, x)
    ensures Increasing(AllGaps(bars, n))
  {
    hide Multiple, Gap, Absent, Sorted, Congruent;
    if |bars| < 2 {
      forall x ensures !Absent(bars, n, x) {
        NothingAbsentFromOne(bars, n, x);
      }
    } else {
      var (rest, previous, current) := (bars[..|bars| - 1], bars[|bars| - 2].openTime, bars[|bars| - 1].openTime);
      SortedGridPrefix(bars, n);
      GapsAreAbsentTimes(rest, n);
      GapIsRange(previous, current, n);
      RangeContent(previous + n, current, n);
      forall x ensures Absent(bars, n, x) <==> x in AllGaps(rest, n) || x in Range(previous + n, current, n) {
        AbsentOneMore(bars, n, x);
      }
      forall x | x in AllGaps(rest, n) ensures x <= previous {
        AbsentIsWithin(rest, n, x);
      }
      IncreasingConcat(AllGaps(rest, n), Range(previous + n, current, n), previous);
    }
  }

  lemma NothingAbsentFromOne(bars: seq<Bar>, n: int, x: int)
    requires n > 0 && |bars| < 2
    ensures !Absent(bars, n, x)
  {
    if bars != [] {
      assert bars[0] in bars;
    }
  }

  lemma AbsentIsWithin(bars: seq<Bar>, n: int, x: int)
    requires n > 0 && Absent(bars, n, x)
    ensures x <= bars[|bars| - 1].openTime
  {
  }

  lemma IncreasingConcat(a: seq<int>, b: seq<int>, pivot: int)
    requires Increasing(a) && Increasing(b)
    requires forall x :: x in a ==> x <= pivot
    requires forall x :: x in b ==> x > pivot
    ensures Increasing(a + b)
  {
    if a != [] && b != [] {
      assert a[|a| - 1] in a && b[0] in b;
    }
  }

  lemma SortedBars(bars: seq<Bar>)
    ensures
      var sorted := SortBy(bars, ByTime);
      Sorted(sorted) && |sorted| == |bars| && forall b :: b in sorted <==> b in bars
  {
    hide SortBy, WithKey;
    SortByIsSort(bars, ByTime, 0.0);
    var sorted := SortBy(bars, ByTime);
    assert |sorted| == |multiset(sorted)| == |multiset(bars)| == |bars|;
    assert forall b :: b in sorted <==> b in multiset(sorted);
    assert forall b :: b in bars <==> b in multiset(bars);
    forall i, j | 0 <= i <= j < |sorted| ensures sorted[i].openTime <= sorted[j].openTime {
      if i < j {
        assert ByTime(sorted[i]) <= ByTime(sorted[j]);
      }
    }
  }

  // Some bar is at or before x on x's grid, some bar is at or after x, and none is at x.
  ghost predicate Missed(bars: seq<Bar>, n: int, x: int)
    requires n > 0
  {
    && (exists a :: a in bars && a.openTime <= x && Multiple(x - a.openTime, n))
    && (exists b :: b in bars && b.openTime >= x)
    && !HasTime(bars, x)
  }

  lemma SameTimes(bars: seq<Bar>, sorted: seq<Bar>, x: int)
    requires forall b :: b in sorted <==> b in bars
    ensures HasTime(sorted, x) <==> HasTime(bars, x)
  {
  }

  lemma Extremes(bars: seq<Bar>, sorted: seq<Bar>, b: Bar)
    requires Sorted(sorted) && b in bars && forall b :: b in sorted <==> b in bars
    ensures sorted != [] && sorted[0] in bars && sorted[|sorted| - 1] in bars
    ensures sorted[0].openTime <= b.openTime <= sorted[|sorted| - 1].openTime
  {
    assert b in sorted;
    var i :| 0 <= i < |sorted| && sorted[i] == b;
  }

  lemma {:induction false} MissedIsAbsent(bars: seq<Bar>, sorted: seq<Bar>, n: int, x: int)
    requires n > 0 && Sorted(sorted) && Congruent(bars, n) && forall b :: b in sorted <==> b in bars
    requires Missed(bars, n, x)
    ensures Absent(sorted, n, x)
  {
    hide Multiple, HasTime, Sorted;
    SameTimes(bars, sorted, x);
    var a :| a in bars && a.openTime <= x && Multiple(x - a.openTime, n);
    var b :| b in bars && b.openTime >= x;
    Extremes(bars, sorted, a);
    Extremes(bars, sorted, b);
    MultipleShift(x - a.openTime, a.openTime - sorted[0].openTime, n);
  }

  lemma {:induction false} AbsentIsMissed(bars: seq<Bar>, sorted: seq<Bar>, n: int, x: int)
    requires n > 0 && Sorted(sorted) && Congruent(bars, n) && forall b :: b in sorted <==> b in bars
    ensures Absent(sorted, n, x) <==> Missed(bars, n, x)
  {
    hide Multiple, HasTime, Sorted, Congruent;
    SameTimes(bars, sorted, x);
    if Missed(bars, n, x) {
      MissedIsAbsent(bars, sorted, n, x);
    }
  }

  // The reported missing times are the increasing, repeat-free list of the grid points from the
  // earliest to the latest bar that no bar has, whatever order the bars come in.
  lemma MissingTimesAreExact(bars: seq<Bar>, n: int, x: int)
    requires n > 0 && Congruent(bars, n)
    ensures Validated(bars, n).Some? && Increasing(Validated(bars, n).value.missing)
    ensures x in Validated(bars, n).value.missing <==> Missed(bars, n, x)
  {
    hide AllGaps, AllGapErrors, BarErrors, SortBy, Multiple, Absent, Missed;
    var sorted := SortBy(bars, ByTime);
    SortedBars(bars);
    GapsAreAbsentTimes(sorted, n);
    AbsentIsMissed(bars, sorted, n, x);
  }

  // The validator divides by zero exactly when its interval is zero and two bars differ in time.
  lemma {:induction false} RaisesExactly(bars: seq<Bar>, interval: int)
    ensures Validated(bars, interval).None?
            <==> interval == 0 && exists a, b :: a in bars && b in bars && a.openTime != b.openTime
  {
    hide SortBy, AllGaps, AllGapErrors, BarErrors, Sorted;
    var sorted := SortBy(bars, ByTime);
    SortedBars(bars);
    if NeverLater(sorted) {
      forall a, b | a in bars && b in bars ensures a.openTime == b.openTime {
        var i :| 0 <= i < |sorted| && sorted[i] == a;
        var j :| 0 <= j < |sorted| && sorted[j] == b;
        OneTime(sorted, i);
        OneTime(sorted, j);
      }
    } else {
      var i :| 0 < i < |sorted| && sorted[i].openTime > sorted[i - 1].openTime;
      assert sorted[i] in bars && sorted[i - 1] in bars;
    }
  }

  lemma {:induction false} OneTime(sorted: seq<Bar>, i: nat)
    requires Sorted(sorted) && NeverLater(sorted) && i < |sorted|
    ensures sorted[i].openTime == sorted[0].openTime
  {
    if i > 0 {
      OneTime(sorted, i - 1);
    }
  }

  // Validity

  predicate Consistent(b: Bar) {
    b.low <= b.open <= b.high && b.low <= b.close <= b.high && b.volume >= 0.0
  }

  lemma {:induction false} NoBarErrors(bars: seq<Bar>)
    ensures BarErrors(bars) == [] <==> forall b :: b in bars ==> Consistent(b)
  {
    if bars != [] {
      var (rest, last) := (bars[..|bars| - 1], bars[|bars| - 1]);
      NoBarErrors(rest);
      NoErrorsOf(last);
      assert bars == rest + [last];
    }
  }

  lemma NoErrorsOf(b: Bar)
    ensures ErrorsOf(b) == [] <==> Consistent(b)
  {
  }

  predicate Consecutive(bars: seq<Bar>, n: int) {
    forall i :: 0 < i < |bars| ==> bars[i].openTime == bars[i - 1].openTime + n
  }

  lemma NoGap(previous: int, current: int, n: int)
    requires n > 0 && previous < current
    ensures GapErrors(previous, current, n) == [] && Gap(previous, current, n) == [] <==> current == previous + n
  {
    hide Multiple;
    if current - previous < n {
      SmallMultiple(current - previous, n);
    } else if current == previous + n {
      SmallMultiple(0, n);
      MultiplePlusN(0, n);
    }
  }

  lemma StepParts(bars: seq<Bar>, n: int)
    ensures |bars| < 2 ==> Consecutive(bars, n)
    ensures |bars| >= 2 ==>
      var (rest, previous, current) := (bars[..|bars| - 1], bars[|bars| - 2].openTime, bars[|bars| - 1].openTime);
      && (Consecutive(bars, n) <==> Consecutive(rest, n) && current == previous + n)
      && (IncreasingTimes(bars) <==> IncreasingTimes(rest) && previous < current)
  {
  }

  lemma {:induction false} NoGaps(bars: seq<Bar>, n: int)
    requires n > 0 && IncreasingTimes(bars)
    ensures AllGapErrors(bars, n) == [] && AllGaps(bars, n) == [] <==> Consecutive(bars, n)
  {
    hide Multiple, Gap, GapErrors, IncreasingTimes, Consecutive;
    StepParts(bars, n);
    if |bars| >= 2 {
      NoGaps(bars[..|bars| - 1], n);
      NoGap(bars[|bars| - 2].openTime, bars[|bars| - 1].openTime, n);
    }
  }

  lemma {:induction false} IncreasingIsAscending(bars: seq<Bar>)
    requires IncreasingTimes(bars)
    ensures Ascending(bars, ByTime)
  {
    if |bars| >= 2 {
      var rest := bars[..|bars| - 1];
      IncreasingIsAscending(rest);
      forall i | 0 <= i < |rest| ensures ByTime(bars[i]) <= ByTime(bars[|bars| - 1]) {
        assert i < |rest| - 1 ==> ByTime(rest[i]) <= ByTime(rest[|rest| - 1]);
      }
    }
  }

  // For every list of bars: it is valid exactly when the times are consecutive as given and every
  // bar has consistent prices and a non-negative volume.
  lemma ValidExactly(bars: seq<Bar>, n: int)
    requires n > 0
    ensures Validated(bars, n).Some?
    ensures Validated(bars, n).value.isValid <==> Consecutive(bars, n) && forall b :: b in bars ==> Consistent(b)
  {
    hide AllGaps, AllGapErrors, BarErrors, SortBy, Multiple, Consistent;
    NoBarErrors(bars);
    if IncreasingTimes(bars) {
      IncreasingIsAscending(bars);
      SortByOfAscending(bars, ByTime);
      NoGaps(bars, n);
    }
  }
}
