/** Timestamps within a moving time window. */
module SlidingWindow {

  // The timestamps at or after the cutoff, in order.
  function From(times: seq<real>, cutoff: real): seq<real> {
    if times == [] then []
    else
      var (rest, last) := (From(times[..|times| - 1], cutoff), times[|times| - 1]);
      if last >= cutoff then rest + [last] else rest
  }

  // The timestamps within [lo, hi].
  function Within(times: seq<real>, lo: real, hi: real): seq<real> {
    if times == [] then []
    else
      var (rest, last) := (Within(times[..|times| - 1], lo, hi), times[|times| - 1]);
      if lo <= last <= hi then rest + [last] else rest
  }

  predicate Chronological(times: seq<real>) {
    forall i, j :: 0 <= i < j < |times| ==> times[i] <= times[j]
  }

  predicate UpTo(times: seq<real>, limit: real) {
    forall i :: 0 <= i < |times| ==> times[i] <= limit
  }

  lemma FromAppend(times: seq<real>, t: real, cutoff: real)
    ensures From(times + [t], cutoff) == if t >= cutoff then From(times, cutoff) + [t] else From(times, cutoff)
  {
    assert (times + [t])[..|times|] == times;
  }

  lemma {:induction false} FromNothing(times: seq<real>, cutoff: real)
    requires forall i :: 0 <= i < |times| ==> times[i] < cutoff
    ensures From(times, cutoff) == []
  {
    if times != [] {
      FromNothing(times[..|times| - 1], cutoff);
    }
  }

  lemma {:induction false} FromKeepsLimit(times: seq<real>, cutoff: real, limit: real)
    requires UpTo(times, limit)
    ensures UpTo(From(times, cutoff), limit)
    ensures |From(times, cutoff)| <= |times|
  {
    if times != [] {
      FromKeepsLimit(times[..|times| - 1], cutoff, limit);
    }
  }

  lemma {:induction false} FromKeepsOrder(times: seq<real>, cutoff: real)
    requires Chronological(times)
    ensures Chronological(From(times, cutoff))
  {
    if times != [] {
      var (rest, last) := (times[..|times| - 1], times[|times| - 1]);
      FromKeepsOrder(rest, cutoff);
      FromKeepsLimit(rest, cutoff, last);
    }
  }

  // A later cutoff can be taken in two steps, and leaves no more than the earlier one.
  lemma {:induction false} FromTwice(times: seq<real>, early: real, late: real)
    requires early <= late
    ensures From(From(times, early), late) == From(times, late)
    ensures |From(times, late)| <= |From(times, early)|
  {
    if times != [] {
      var (rest, last) := (times[..|times| - 1], times[|times| - 1]);
      FromTwice(rest, early, late);
      FromAppend(From(rest, early), last, late);
    }
  }

  // Dropping an expired timestamp from the front of the queue leaves the window as it was.
  lemma {:induction false} FrontExpired(times: seq<real>, cutoff: real)
    requires times != [] && times[0] < cutoff
    ensures From(times[1..], cutoff) == From(times, cutoff)
  {
    if |times| == 1 {
      assert times[..0] == [] && times[1..] == [];
    } else {
      var rest := times[..|times| - 1];
      FrontExpired(rest, cutoff);
      assert times[1..][..|times| - 2] == rest[1..];
    }
  }

  lemma {:induction false} FromEverything(times: seq<real>, cutoff: real)
    requires Chronological(times) && (times == [] || times[0] >= cutoff)
    ensures From(times, cutoff) == times
  {
    if times != [] {
      FromEverything(times[..|times| - 1], cutoff);
    }
  }

  // With nothing after `hi`, the window is what the cutoff leaves.
  lemma {:induction false} WithinIsFrom(times: seq<real>, lo: real, hi: real)
    ensures |Within(times, lo, hi)| <= |From(times, lo)|
    ensures UpTo(times, hi) ==> Within(times, lo, hi) == From(times, lo)
  {
    if times != [] {
      WithinIsFrom(times[..|times| - 1], lo, hi);
    }
  }

  // Admission one at a time bounds every window: if a timestamp is added only when fewer than
  // `max` lie in the window ending at it, no window of that width holds more than `max`.
  lemma WindowStaysBounded(times: seq<real>, t: real, width: real, max: int, end: real)
    requires |Within(times, end - width, end)| <= max
    requires |From(times, t - width)| < max
    ensures |Within(times + [t], end - width, end)| <= max
  {
    assert (times + [t])[..|times|] == times;
    if end - width <= t <= end {
      WithinIsFrom(times, end - width, end);
      FromTwice(times, t - width, end - width);
    }
  }

  // A queue that stands in for a log of timestamps

  // A queue and the log agree on everything at or after the cutoff, and neither is ahead of the clock.
  predicate Agrees(queue: seq<real>, times: seq<real>, cutoff: real, now: real) {
    && From(queue, cutoff) == From(times, cutoff)
    && Chronological(queue) && Chronological(times)
    && UpTo(queue, now) && UpTo(times, now)
  }

  lemma AgreesLater(queue: seq<real>, times: seq<real>, cutoff: real, now: real, cutoff': real, now': real)
    requires Agrees(queue, times, cutoff, now) && cutoff <= cutoff' && now <= now'
    ensures Agrees(queue, times, cutoff', now')
  {
    FromTwice(queue, cutoff, cutoff');
    FromTwice(times, cutoff, cutoff');
  }

  lemma ChronologicalAppend(times: seq<real>, now: real)
    requires Chronological(times) && UpTo(times, now)
    ensures Chronological(times + [now]) && UpTo(times + [now], now)
  {
  }

  lemma AgreesAfterAppend(queue: seq<real>, times: seq<real>, cutoff: real, now: real)
    requires Agrees(queue, times, cutoff, now)
    ensures Agrees(queue + [now], times + [now], cutoff, now)
  {
    hide Chronological, UpTo, From;
    FromAppend(queue, now, cutoff);
    FromAppend(times, now, cutoff);
    ChronologicalAppend(queue, now);
    ChronologicalAppend(times, now);
  }

  lemma AgreesAfterExpiry(queue: seq<real>, times: seq<real>, cutoff: real, now: real)
    requires Agrees(queue, times, cutoff, now)
    ensures Agrees(From(queue, cutoff), times, cutoff, now)
  {
    FromKeepsOrder(queue, cutoff);
    FromKeepsLimit(queue, cutoff, now);
    FromTwice(queue, cutoff, cutoff);
  }
}
