/** The in-memory sliding-window limiter of `services/api/rate_limiter.py`, as a refinement of a
    plain log of accepted requests. */
module RateLimiter {
  import opened SlidingWindow

  // The service divides by the cleanup interval and, once a key is over its limit, reads the
  // oldest timestamp of its bucket.
  datatype Config = Config(windowSeconds: int, maxRequests: int, maxBuckets: int, cleanupInterval: int)

  predicate Usable(c: Config) {
    c.maxRequests > 0 && c.cleanupInterval != 0
  }

  datatype State = State(windows: map<string, seq<real>>, requestCount: nat)

  datatype Decision = Allowed(remaining: int) | RateLimited(retryAfter: int) | BucketLimited(retryAfter: int)

  function BucketOf(windows: map<string, seq<real>>, key: string): seq<real> {
    if key in windows then windows[key] else []
  }

  predicate Stale(bucket: seq<real>, cutoff: real) {
    bucket == [] || bucket[|bucket| - 1] < cutoff
  }

  function StaleKeys(windows: map<string, seq<real>>, cutoff: real): set<string> {
    set k | k in windows && Stale(windows[k], cutoff)
  }

  function Cleaned(windows: map<string, seq<real>>, cutoff: real): map<string, seq<real>> {
    windows - StaleKeys(windows, cutoff)
  }

  function AfterCleanup(c: Config, st: State, now: real): map<string, seq<real>>
    requires Usable(c)
  {
    if (st.requestCount + 1) % c.cleanupInterval == 0 then Cleaned(st.windows, now - (c.windowSeconds * 2) as real)
    else st.windows
  }

  // Timestamps popped off the front of a queue while they lie before the cutoff.
  function PopExpired(bucket: seq<real>, cutoff: real): seq<real> {
    if bucket == [] || bucket[0] >= cutoff then bucket else PopExpired(bucket[1..], cutoff)
  }

  function Truncated(x: real): int {
    if x > 0.0 then x.Floor else 0
  }

  function Admit(c: Config, st: State, key: string, now: real): (State, Decision)
    requires Usable(c)
  {
    var windows := AfterCleanup(c, st, now);
    if key !in windows && |windows| >= c.maxBuckets then
      (State(windows, st.requestCount + 1), BucketLimited(c.windowSeconds))
    else
      var bucket := PopExpired(BucketOf(windows, key), now - c.windowSeconds as real);
      if |bucket| >= c.maxRequests then
        (State(windows[key := bucket], st.requestCount + 1),
         RateLimited(Truncated(bucket[0] + c.windowSeconds as real - now)))
      else
        (State(windows[key := bucket + [now]], st.requestCount + 1), Allowed(c.maxRequests - (|bucket| + 1)))
  }

  class Limiter {
    const config: Config
    var windows: map<string, seq<real>>
    var requestCount: nat

    ghost function View(): State
      reads this
    {
      State(windows, requestCount)
    }

    constructor (config: Config)
      ensures View() == State(map[], 0) && this.config == config
    {
      this.config := config;
      windows, requestCount := map[], 0;
    }

    method IsAllowed(key: string, now: real) returns (decision: Decision)
      requires Usable(config)
      modifies this
      ensures (View(), decision) == Admit(config, old(View()), key, now)
    {
      requestCount := requestCount + 1;
      if requestCount % config.cleanupInterval == 0 {
        CleanUp(now - (config.windowSeconds * 2) as real);
      }
      assert windows == AfterCleanup(config, old(View()), now);
      if key !in windows && |windows| >= config.maxBuckets {
        return BucketLimited(config.windowSeconds);
      }
      var bucket := if key in windows then windows[key] else [];
      var cutoff := now - config.windowSeconds as real;
      ghost var all := bucket;
      while bucket != [] && bucket[0] < cutoff
        invariant PopExpired(bucket, cutoff) == PopExpired(all, cutoff)
        decreases |bucket|
      {
        bucket := bucket[1..];
      }
      if |bucket| >= config.maxRequests {
        windows := windows[key := bucket];
        var left := bucket[0] + config.windowSeconds as real - now;
        return RateLimited(if left > 0.0 then left.Floor else 0);
      }
      bucket := bucket + [now];
      windows := windows[key := bucket];
      return Allowed(config.maxRequests - |bucket|);
    }

    method CleanUp(cutoff: real)
      modifies this`windows
      ensures windows == Cleaned(old(windows), cutoff)
    {
      var staleKeys := StaleKeys(windows, cutoff);
      var rest := staleKeys;
      while rest != {}
        invariant rest <= staleKeys
        invariant windows == old(windows) - (staleKeys - rest)
        decreases |rest|
      {
        var k :| k in rest;
        assert (old(windows) - (staleKeys - rest)) - {k} == old(windows) - (staleKeys - (rest - {k}));
        windows := windows - {k};
        rest := rest - {k};
      }
      assert staleKeys - rest == staleKeys;
    }
  }

  // On timestamps in order, popping from the front is filtering.
  lemma {:induction false} PoppingIsFiltering(times: seq<real>, cutoff: real)
    requires Chronological(times)
    ensures PopExpired(times, cutoff) == From(times, cutoff)
  {
    if times == [] || times[0] >= cutoff {
      FromEverything(times, cutoff);
    } else {
      FrontExpired(times, cutoff);
      PoppingIsFiltering(times[1..], cutoff);
    }
  }

  // The reference: a log of accepted requests

  datatype Request = Request(key: string, at: real)

  function TimesOf(log: seq<Request>, key: string): seq<real> {
    if log == [] then []
    else
      var (rest, last) := (TimesOf(log[..|log| - 1], key), log[|log| - 1]);
      if last.key == key then rest + [last.at] else rest
  }

  // Requests in the order of a clock that does not go back.
  predicate Timely(calls: seq<Request>) {
    forall i, j :: 0 <= i < j < |calls| ==> calls[i].at <= calls[j].at
  }

  function Run(c: Config, calls: seq<Request>): State
    requires Usable(c)
  {
    if calls == [] then State(map[], 0)
    else Admit(c, Run(c, calls[..|calls| - 1]), calls[|calls| - 1].key, calls[|calls| - 1].at).0
  }

  function DecisionOf(c: Config, calls: seq<Request>): Decision
    requires Usable(c) && calls != []
  {
    Admit(c, Run(c, calls[..|calls| - 1]), calls[|calls| - 1].key, calls[|calls| - 1].at).1
  }

  function Accepted(c: Config, calls: seq<Request>): seq<Request>
    requires Usable(c)
  {
    if calls == [] then []
    else
      var rest := Accepted(c, calls[..|calls| - 1]);
      if DecisionOf(c, calls).Allowed? then rest + [calls[|calls| - 1]] else rest
  }

  // Stale buckets have nothing in the window.
  lemma StaleIsOutside(bucket: seq<real>, window: int, now: real)
    requires Chronological(bucket) && UpTo(bucket, now) && Stale(bucket, now - (window * 2) as real)
    ensures From(bucket, now - window as real) == []
  {
    FromNothing(bucket, now - window as real);
  }

  // Cleanup never changes what any key has in its window.
  lemma CleanupKeepsWindows(c: Config, st: State, key: string, times: seq<real>, now: real)
    requires Usable(c) && Agrees(BucketOf(st.windows, key), times, now - c.windowSeconds as real, now)
    ensures Agrees(BucketOf(AfterCleanup(c, st, now), key), times, now - c.windowSeconds as real, now)
  {
    var bucket := BucketOf(st.windows, key);
    if key in st.windows && key !in AfterCleanup(c, st, now) {
      StaleIsOutside(bucket, c.windowSeconds, now);
    }
  }

  // Where the clock stands after a run.
  predicate ClockAt(calls: seq<Request>, now: real) {
    forall i :: 0 <= i < |calls| ==> calls[i].at <= now
  }

  // What one call does to one key's bucket.
  lemma BucketAfter(c: Config, st: State, call: string, now: real, key: string)
    requires Usable(c)
    ensures
      var (next, decision) := Admit(c, st, call, now);
      var bucket := BucketOf(AfterCleanup(c, st, now), key);
      BucketOf(next.windows, key) ==
        if key != call || decision.BucketLimited? then bucket
        else if decision.Allowed? then PopExpired(bucket, now - c.windowSeconds as real) + [now]
        else PopExpired(bucket, now - c.windowSeconds as real)
  {
    hide AfterCleanup, PopExpired;
  }

  lemma PoppedAgrees(bucket: seq<real>, times: seq<real>, cutoff: real, now: real)
    requires Agrees(bucket, times, cutoff, now)
    ensures PopExpired(bucket, cutoff) == From(bucket, cutoff) == From(times, cutoff)
  {
    PoppingIsFiltering(bucket, cutoff);
  }

  lemma {:induction false} LimiterRefinesLog(c: Config, calls: seq<Request>, key: string, now: real)
    requires Usable(c) && Timely(calls) && ClockAt(calls, now)
    ensures Agrees(BucketOf(Run(c, calls).windows, key), TimesOf(Accepted(c, calls), key),
                   now - c.windowSeconds as real, now)
  {
    hide Agrees, AfterCleanup, Admit, Timely, From, BucketOf, TimesOf, PopExpired;
    if calls == [] {
      NothingAgrees(c, key, now - c.windowSeconds as real, now);
    } else {
      var (rest, last) := (calls[..|calls| - 1], calls[|calls| - 1]);
      var (st, cutoff) := (Run(c, rest), last.at - c.windowSeconds as real);
      TimelyParts(calls);
      LimiterRefinesLog(c, rest, key, last.at);
      var (times, bucket) := (TimesOf(Accepted(c, rest), key), BucketOf(AfterCleanup(c, st, last.at), key));
      CleanupKeepsWindows(c, st, key, times, last.at);
      BucketAfter(c, st, last.key, last.at, key);
      AcceptedTimes(c, calls, key);
      PoppedAgrees(bucket, times, cutoff, last.at);
      AgreesAfterExpiry(bucket, times, cutoff, last.at);
      AgreesAfterAppend(From(bucket, cutoff), times, cutoff, last.at);
      AgreesLater(BucketOf(Run(c, calls).windows, key), TimesOf(Accepted(c, calls), key),
                  cutoff, last.at, now - c.windowSeconds as real, now);
    }
  }

  lemma NothingAgrees(c: Config, key: string, cutoff: real, now: real)
    requires Usable(c)
    ensures Agrees(BucketOf(Run(c, []).windows, key), TimesOf(Accepted(c, []), key), cutoff, now)
  {
  }

  lemma AcceptedTimes(c: Config, calls: seq<Request>, key: string)
    requires Usable(c) && calls != []
    ensures
      var (rest, last) := (calls[..|calls| - 1], calls[|calls| - 1]);
      var times := TimesOf(Accepted(c, rest), key);
      TimesOf(Accepted(c, calls), key) ==
        if DecisionOf(c, calls).Allowed? && last.key == key then times + [last.at] else times
  {
    hide Admit;
    var rest := Accepted(c, calls[..|calls| - 1]);
    if DecisionOf(c, calls).Allowed? {
      assert (rest + [calls[|calls| - 1]])[..|rest|] == rest;
    }
  }

  // Unless the bucket cap refuses it, a request is admitted exactly when fewer than maxRequests
  // accepted requests for its key lie in [now - window, now].
  lemma {:induction false} AdmittedExactly(c: Config, calls: seq<Request>)
    requires Usable(c) && Timely(calls) && calls != []
    ensures
      var (rest, last) := (calls[..|calls| - 1], calls[|calls| - 1]);
      var recent := Within(TimesOf(Accepted(c, rest), last.key), last.at - c.windowSeconds as real, last.at);
      && (DecisionOf(c, calls).BucketLimited? || (DecisionOf(c, calls).Allowed? <==> |recent| < c.maxRequests))
      && (DecisionOf(c, calls).Allowed? ==> DecisionOf(c, calls).remaining == c.maxRequests - |recent| - 1)
  {
    hide AfterCleanup, Within, From, Timely, TimesOf, Accepted, Run, ClockAt, PopExpired;
    var (rest, last) := (calls[..|calls| - 1], calls[|calls| - 1]);
    TimelyParts(calls);
    LimiterRefinesLog(c, rest, last.key, last.at);
    var times := TimesOf(Accepted(c, rest), last.key);
    CleanupKeepsWindows(c, Run(c, rest), last.key, times, last.at);
    var bucket := BucketOf(AfterCleanup(c, Run(c, rest), last.at), last.key);
    PoppedAgrees(bucket, times, last.at - c.windowSeconds as real, last.at);
    RecentTimes(c, rest, last.key, last.at);
  }

  lemma TimelyParts(calls: seq<Request>)
    requires Timely(calls) && calls != []
    ensures Timely(calls[..|calls| - 1]) && ClockAt(calls[..|calls| - 1], calls[|calls| - 1].at)
  {
  }

  // No window of the configured width, wherever it ends, holds more than maxRequests accepted requests.
  lemma {:induction false} NoWindowOverflows(c: Config, calls: seq<Request>, key: string, end: real)
    requires Usable(c) && Timely(calls)
    ensures |Within(TimesOf(Accepted(c, calls), key), end - c.windowSeconds as real, end)| <= c.maxRequests
  {
    hide Admit, Within, From, Timely, TimesOf, Accepted, Run, DecisionOf, ClockAt;
    if calls == [] {
      NothingAccepted(c, key, end - c.windowSeconds as real, end);
    } else {
      var (rest, last) := (calls[..|calls| - 1], calls[|calls| - 1]);
      TimelyParts(calls);
      NoWindowOverflows(c, rest, key, end);
      AcceptedTimes(c, calls, key);
      if DecisionOf(c, calls).Allowed? && last.key == key {
        var times := TimesOf(Accepted(c, rest), key);
        AdmittedExactly(c, calls);
        RecentTimes(c, rest, key, last.at);
        WindowStaysBounded(times, last.at, c.windowSeconds as real, c.maxRequests, end);
      }
    }
  }

  lemma NothingAccepted(c: Config, key: string, lo: real, hi: real)
    requires Usable(c)
    ensures Within(TimesOf(Accepted(c, []), key), lo, hi) == []
  {
  }

  lemma RecentTimes(c: Config, calls: seq<Request>, key: string, now: real)
    requires Usable(c) && Timely(calls) && ClockAt(calls, now)
    ensures
      var (times, cutoff) := (TimesOf(Accepted(c, calls), key), now - c.windowSeconds as real);
      Within(times, cutoff, now) == From(times, cutoff)
  {
    hide Run, Accepted, TimesOf, From, Within, Chronological, Timely, ClockAt, UpTo;
    LimiterRefinesLog(c, calls, key, now);
    WithinIsFrom(TimesOf(Accepted(c, calls), key), now - c.windowSeconds as real, now);
  }

  // The number of buckets stays within the cap.
  lemma {:induction false} BucketsStayCapped(c: Config, calls: seq<Request>)
    requires Usable(c)
    ensures |Run(c, calls).windows| <= (if c.maxBuckets > 0 then c.maxBuckets else 0)
  {
    if calls != [] {
      hide PopExpired;
      var (rest, last) := (calls[..|calls| - 1], calls[|calls| - 1]);
      BucketsStayCapped(c, rest);
      CleanupShrinks(c, Run(c, rest), last.at);
      var windows := AfterCleanup(c, Run(c, rest), last.at);
      if last.key !in windows && |windows| < c.maxBuckets {
        assert Run(c, calls).windows.Keys == windows.Keys + {last.key};
      } else if last.key in windows {
        assert Run(c, calls).windows.Keys == windows.Keys;
      }
    }
  }

  lemma CleanupShrinks(c: Config, st: State, now: real)
    requires Usable(c)
    ensures |AfterCleanup(c, st, now)| <= |st.windows|
  {
    SubsetSize(AfterCleanup(c, st, now).Keys, st.windows.Keys);
  }

  lemma {:induction false} SubsetSize<T>(a: set<T>, b: set<T>)
    requires a <= b
    ensures |a| <= |b|
  {
    if a != {} {
      var x :| x in a;
      SubsetSize(a - {x}, b - {x});
    }
  }
}
