/** Whole runs of the notification router: what its dedupe map and rate lists guarantee about the
    messages actually sent. */
module RouterRuns {
  import opened SlidingWindow
  import opened PolicyRouter

  datatype Call = Call(event: Event, at: real)

  // The attempts made by a sequence of route calls.
  function AttemptsOf(c: Config, calls: seq<Call>): seq<Attempt> {
    if calls == [] then []
    else AttemptsOf(c, calls[..|calls| - 1]) + AttemptsFor(c, calls[|calls| - 1].event, calls[|calls| - 1].at)
  }

  // The state after successive route calls, and the messages they returned, one call after another.
  function RoutedAll(c: Config, calls: seq<Call>): (State, seq<Message>) {
    if calls == [] then (INITIAL, [])
    else
      var last := calls[|calls| - 1];
      var (before, returned) := RoutedAll(c, calls[..|calls| - 1]);
      var (after, messages) := AttemptAll(c, before, AttemptsFor(c, last.event, last.at));
      (after, returned + messages)
  }

  function Run(c: Config, attempts: seq<Attempt>): State {
    AttemptAll(c, INITIAL, attempts).0
  }

  lemma {:induction false} AttemptAllConcat(c: Config, st: State, a: seq<Attempt>, b: seq<Attempt>)
    ensures
      var (before, messages) := AttemptAll(c, st, a);
      var (after, more) := AttemptAll(c, before, b);
      AttemptAll(c, st, a + b) == (after, messages + more)
  {
    hide Attempted, AttemptAll;
    var (before, messages) := AttemptAll(c, st, a);
    if b == [] {
      assert a + b == a && messages + [] == messages;
      NothingAttempted(c, before);
    } else {
      var (rest, last) := (b[..|b| - 1], b[|b| - 1]);
      AttemptAllConcat(c, st, a, rest);
      OneMoreAttempt(c, st, a + rest, last);
      OneMoreAttempt(c, before, rest, last);
      assert a + b == a + rest + [last] && b == rest + [last];
      var more := AttemptAll(c, before, rest).1;
      var message := Message(last.target.userId, last.target.gateway, last.event);
      assert messages + (more + [message]) == messages + more + [message];
    }
  }

  lemma NothingAttempted(c: Config, st: State)
    ensures AttemptAll(c, st, []) == (st, [])
  {
  }

  // Route calls amount to the run of their attempts.
  lemma {:induction false} CallsAreAttempts(c: Config, calls: seq<Call>)
    ensures RoutedAll(c, calls) == AttemptAll(c, INITIAL, AttemptsOf(c, calls))
  {
    if calls != [] {
      var (rest, last) := (calls[..|calls| - 1], calls[|calls| - 1]);
      CallsAreAttempts(c, rest);
      AttemptAllConcat(c, INITIAL, AttemptsOf(c, rest), AttemptsFor(c, last.event, last.at));
    }
  }

  // Times that do not go back.
  predicate Timely(attempts: seq<Attempt>) {
    forall i, j :: 0 <= i < j < |attempts| ==> attempts[i].at <= attempts[j].at
  }

  predicate ClockAt(attempts: seq<Attempt>, now: real) {
    forall i :: 0 <= i < |attempts| ==> attempts[i].at <= now
  }

  predicate TimelyCalls(calls: seq<Call>) {
    forall i, j :: 0 <= i < j < |calls| ==> calls[i].at <= calls[j].at
  }

  lemma {:induction false} TimelyCallsMakeTimelyAttempts(c: Config, calls: seq<Call>)
    requires TimelyCalls(calls)
    ensures Timely(AttemptsOf(c, calls))
    ensures calls != [] ==> ClockAt(AttemptsOf(c, calls), calls[|calls| - 1].at)
  {
    if calls != [] {
      var (rest, last) := (calls[..|calls| - 1], calls[|calls| - 1]);
      TimelyCallsMakeTimelyAttempts(c, rest);
      var (before, added) := (AttemptsOf(c, rest), AttemptsFor(c, last.event, last.at));
      assert forall i :: 0 <= i < |added| ==> added[i].at == last.at;
      assert ClockAt(before, last.at);
    }
  }

  lemma TimelyParts(attempts: seq<Attempt>)
    requires Timely(attempts) && attempts != []
    ensures Timely(attempts[..|attempts| - 1]) && ClockAt(attempts[..|attempts| - 1], attempts[|attempts| - 1].at)
  {
  }

  // The log of sent messages

  function OutcomeOf(c: Config, attempts: seq<Attempt>): Outcome
    requires attempts != []
  {
    Attempted(c, Run(c, attempts[..|attempts| - 1]), attempts[|attempts| - 1]).1
  }

  function Sent(c: Config, attempts: seq<Attempt>): seq<Attempt> {
    if attempts == [] then []
    else
      var rest := Sent(c, attempts[..|attempts| - 1]);
      if OutcomeOf(c, attempts).Routed? then rest + [attempts[|attempts| - 1]] else rest
  }

  function TimesTo(sent: seq<Attempt>, t: Target): seq<real> {
    if sent == [] then []
    else
      var (rest, last) := (TimesTo(sent[..|sent| - 1], t), sent[|sent| - 1]);
      if last.target == t then rest + [last.at] else rest
  }

  lemma SentTimes(c: Config, attempts: seq<Attempt>, t: Target)
    requires attempts != []
    ensures
      var (times, last) := (TimesTo(Sent(c, attempts[..|attempts| - 1]), t), attempts[|attempts| - 1]);
      TimesTo(Sent(c, attempts), t) ==
        if OutcomeOf(c, attempts).Routed? && last.target == t then times + [last.at] else times
  {
    hide Attempted, Run;
    var rest := Sent(c, attempts[..|attempts| - 1]);
    if OutcomeOf(c, attempts).Routed? {
      assert (rest + [attempts[|attempts| - 1]])[..|rest|] == rest;
    }
  }

  function MessagesOf(sent: seq<Attempt>): seq<Message> {
    if sent == [] then []
    else
      var last := sent[|sent| - 1];
      MessagesOf(sent[..|sent| - 1]) + [Message(last.target.userId, last.target.gateway, last.event)]
  }

  // The messages returned are those of the log, in order.
  lemma {:induction false} MessagesAreSent(c: Config, attempts: seq<Attempt>)
    ensures AttemptAll(c, INITIAL, attempts).1 == MessagesOf(Sent(c, attempts))
  {
    hide Attempted;
    if attempts != [] {
      var rest := Sent(c, attempts[..|attempts| - 1]);
      MessagesAreSent(c, attempts[..|attempts| - 1]);
      assert (rest + [attempts[|attempts| - 1]])[..|rest|] == rest;
    }
  }

  // Exactly one fate for every attempt: the messages sent and the two suppression counters
  // together count every matching preference and gateway.
  lemma {:induction false} EveryAttemptIsCounted(c: Config, attempts: seq<Attempt>)
    ensures |Sent(c, attempts)| + Run(c, attempts).dedupeSuppressed + Run(c, attempts).rateSuppressed == |attempts|
  {
    if attempts != [] {
      hide From, SeenRecently;
      EveryAttemptIsCounted(c, attempts[..|attempts| - 1]);
    }
  }

  // The rate budget

  lemma EntriesAfter(c: Config, st: State, a: Attempt, t: Target)
    ensures
      var (next, outcome) := Attempted(c, st, a);
      var entries := EntriesOf(st, t);
      EntriesOf(next, t) ==
        if t != a.target || outcome.DedupeSuppressed? then entries
        else if outcome.Routed? then From(entries, a.at - MINUTE) + [a.at]
        else From(entries, a.at - MINUTE)
  {
    hide From, SeenRecently;
  }

  lemma {:induction false} RateListsAreTheLog(c: Config, attempts: seq<Attempt>, t: Target, now: real)
    requires Timely(attempts) && ClockAt(attempts, now)
    ensures Agrees(EntriesOf(Run(c, attempts), t), TimesTo(Sent(c, attempts), t), now - MINUTE, now)
  {
    hide Agrees, Attempted, Timely, From, EntriesOf, TimesTo;
    if attempts == [] {
      NothingSent(c, t, now - MINUTE, now);
    } else {
      var (rest, last) := (attempts[..|attempts| - 1], attempts[|attempts| - 1]);
      var (st, cutoff) := (Run(c, rest), last.at - MINUTE);
      TimelyParts(attempts);
      RateListsAreTheLog(c, rest, t, last.at);
      var (times, entries) := (TimesTo(Sent(c, rest), t), EntriesOf(st, t));
      EntriesAfter(c, st, last, t);
      SentTimes(c, attempts, t);
      AgreesAfterExpiry(entries, times, cutoff, last.at);
      AgreesAfterAppend(From(entries, cutoff), times, cutoff, last.at);
      AgreesLater(EntriesOf(Run(c, attempts), t), TimesTo(Sent(c, attempts), t), cutoff, last.at, now - MINUTE, now);
    }
  }

  lemma NothingSent(c: Config, t: Target, cutoff: real, now: real)
    ensures Agrees(EntriesOf(Run(c, []), t), TimesTo(Sent(c, []), t), cutoff, now)
  {
  }

  lemma RecentIsKept(c: Config, attempts: seq<Attempt>, t: Target, now: real)
    requires Timely(attempts) && ClockAt(attempts, now)
    ensures
      var times := TimesTo(Sent(c, attempts), t);
      && Within(times, now - MINUTE, now) == From(times, now - MINUTE)
      && From(times, now - MINUTE) == From(EntriesOf(Run(c, attempts), t), now - MINUTE)
  {
    hide From, Within, Run, Sent, TimesTo, EntriesOf, Timely, ClockAt, Chronological, UpTo;
    RateListsAreTheLog(c, attempts, t, now);
    WithinIsFrom(TimesTo(Sent(c, attempts), t), now - MINUTE, now);
  }

  // The dedupe map

  predicate SameMessage(a: Attempt, b: Attempt) {
    KeyOf(a) == KeyOf(b)
  }

  // The map records, for every key, the latest message sent under it.
  ghost predicate SeenIsLatest(st: State, sent: seq<Attempt>) {
    && (forall i :: 0 <= i < |sent| ==> KeyOf(sent[i]) in st.seenAt && sent[i].at <= st.seenAt[KeyOf(sent[i])])
    && (forall k :: k in st.seenAt ==> exists i :: 0 <= i < |sent| && KeyOf(sent[i]) == k && sent[i].at == st.seenAt[k])
  }

  lemma SeenAfterSending(st: State, next: State, sent: seq<Attempt>, a: Attempt)
    requires SeenIsLatest(st, sent) && next.seenAt == st.seenAt[KeyOf(a) := a.at]
    requires KeyOf(a) in st.seenAt ==> st.seenAt[KeyOf(a)] <= a.at
    ensures SeenIsLatest(next, sent + [a])
  {
    var longer := sent + [a];
    forall k | k in next.seenAt
      ensures exists i :: 0 <= i < |longer| && KeyOf(longer[i]) == k && longer[i].at == next.seenAt[k]
    {
      if k == KeyOf(a) {
        assert longer[|sent|] == a;
      } else {
        var i :| 0 <= i < |sent| && KeyOf(sent[i]) == k && sent[i].at == st.seenAt[k];
        assert longer[i] == sent[i];
      }
    }
  }

  lemma {:induction false} DedupeMapIsLatest(c: Config, attempts: seq<Attempt>)
    requires Timely(attempts)
    ensures SeenIsLatest(Run(c, attempts), Sent(c, attempts))
    ensures attempts != [] ==> ClockAt(Sent(c, attempts), attempts[|attempts| - 1].at)
  {
    hide SeenIsLatest, From, EntriesOf, Timely;
    if attempts == [] {
      NothingSeen(c);
    } else {
      var (rest, last) := (attempts[..|attempts| - 1], attempts[|attempts| - 1]);
      TimelyParts(attempts);
      DedupeMapIsLatest(c, rest);
      SentBefore(rest, Sent(c, rest), last.at);
      if OutcomeOf(c, attempts).Routed? {
        SeenIsPast(Run(c, rest), Sent(c, rest), KeyOf(last), last.at);
        SeenAfterSending(Run(c, rest), Run(c, attempts), Sent(c, rest), last);
      } else {
        SeenUnchanged(Run(c, rest), Run(c, attempts), Sent(c, rest));
      }
    }
  }

  lemma NothingSeen(c: Config)
    ensures SeenIsLatest(Run(c, []), Sent(c, []))
  {
  }

  lemma SentBefore(attempts: seq<Attempt>, sent: seq<Attempt>, now: real)
    requires ClockAt(attempts, now)
    requires if attempts == [] then sent == [] else ClockAt(sent, attempts[|attempts| - 1].at)
    ensures ClockAt(sent, now)
  {
  }

  lemma SeenIsPast(st: State, sent: seq<Attempt>, k: DedupeKey, now: real)
    requires SeenIsLatest(st, sent) && ClockAt(sent, now)
    ensures k in st.seenAt ==> st.seenAt[k] <= now
  {
  }

  lemma SeenUnchanged(st: State, next: State, sent: seq<Attempt>)
    requires SeenIsLatest(st, sent) && next.seenAt == st.seenAt
    ensures SeenIsLatest(next, sent)
  {
  }

  // A message under the same key was sent less than the dedupe window ago.
  ghost predicate RepeatsRecent(c: Config, sent: seq<Attempt>, a: Attempt) {
    exists i :: 0 <= i < |sent| && SameMessage(sent[i], a) && a.at - sent[i].at < c.dedupeWindow
  }

  lemma SeenRecentlyIsRepeat(c: Config, st: State, sent: seq<Attempt>, a: Attempt)
    requires SeenIsLatest(st, sent)
    ensures SeenRecently(c, st, a) <==> RepeatsRecent(c, sent, a)
  {
    if SeenRecently(c, st, a) {
      var i :| 0 <= i < |sent| && KeyOf(sent[i]) == KeyOf(a) && sent[i].at == st.seenAt[KeyOf(a)];
      assert SameMessage(sent[i], a);
    }
  }

  // The guarantees

  // An attempt is suppressed as a duplicate exactly when its key was sent less than the window ago,
  // by rate exactly when otherwise a full budget was sent to its user and gateway in the last
  // minute, and is sent in all remaining cases.
  lemma OutcomeExactly(c: Config, attempts: seq<Attempt>)
    requires Timely(attempts) && attempts != []
    ensures
      var (sent, a) := (Sent(c, attempts[..|attempts| - 1]), attempts[|attempts| - 1]);
      OutcomeOf(c, attempts) ==
        if RepeatsRecent(c, sent, a) then DedupeSuppressed
        else if |Within(TimesTo(sent, a.target), a.at - MINUTE, a.at)| >= c.ratePerMinute then RateSuppressed
        else Routed
  {
    hide From, Within, Run, Sent, TimesTo, EntriesOf, SeenIsLatest, RepeatsRecent, SeenRecently, Timely, ClockAt;
    var (rest, a) := (attempts[..|attempts| - 1], attempts[|attempts| - 1]);
    TimelyParts(attempts);
    DedupeMapIsLatest(c, rest);
    SeenRecentlyIsRepeat(c, Run(c, rest), Sent(c, rest), a);
    RecentIsKept(c, rest, a.target, a.at);
  }

  // Messages under one key are at least the dedupe window apart.
  predicate Spaced(c: Config, sent: seq<Attempt>) {
    forall i, j :: 0 <= i < j < |sent| && SameMessage(sent[i], sent[j]) ==> sent[j].at - sent[i].at >= c.dedupeWindow
  }

  lemma {:induction false} RepeatsAreSpaced(c: Config, attempts: seq<Attempt>)
    requires Timely(attempts)
    ensures Spaced(c, Sent(c, attempts))
  {
    hide OutcomeOf, SameMessage, Timely;
    if attempts != [] {
      var (rest, last) := (attempts[..|attempts| - 1], attempts[|attempts| - 1]);
      TimelyParts(attempts);
      RepeatsAreSpaced(c, rest);
      OutcomeExactly(c, attempts);
    }
  }

  // No minute, wherever it ends, sees more than the budget sent to one user and gateway.
  lemma {:induction false} NoMinuteOverflows(c: Config, attempts: seq<Attempt>, t: Target, end: real)
    requires Timely(attempts) && Usable(c)
    ensures |Within(TimesTo(Sent(c, attempts), t), end - MINUTE, end)| <= c.ratePerMinute
  {
    hide Within, From, TimesTo, Sent, OutcomeOf, Run, Timely, ClockAt, RepeatsRecent, EntriesOf;
    if attempts == [] {
      NothingWithin(c, t, end);
    } else {
      var (rest, last) := (attempts[..|attempts| - 1], attempts[|attempts| - 1]);
      TimelyParts(attempts);
      NoMinuteOverflows(c, rest, t, end);
      SentTimes(c, attempts, t);
      if OutcomeOf(c, attempts).Routed? && last.target == t {
        OutcomeExactly(c, attempts);
        RecentIsKept(c, rest, t, last.at);
        WindowStaysBounded(TimesTo(Sent(c, rest), t), last.at, MINUTE, c.ratePerMinute, end);
      }
    }
  }

  lemma NothingWithin(c: Config, t: Target, end: real)
    ensures Within(TimesTo(Sent(c, []), t), end - MINUTE, end) == []
  {
  }

  // All of it for runs of route calls: every matching preference and gateway is counted once,
  // every minute and every repeat is within policy.
  lemma {:induction false} RoutingRunTheorem(c: Config, calls: seq<Call>, t: Target, end: real)
    requires Usable(c) && TimelyCalls(calls)
    ensures
      var (attempts, (st, returned)) := (AttemptsOf(c, calls), RoutedAll(c, calls));
      var sent := Sent(c, attempts);
      && returned == MessagesOf(sent)
      && |sent| + st.dedupeSuppressed + st.rateSuppressed == |attempts|
      && |Within(TimesTo(sent, t), end - MINUTE, end)| <= c.ratePerMinute
      && Spaced(c, sent)
  {
    hide Within, TimesTo, Sent, AttemptAll, AttemptsOf, RoutedAll, MessagesOf, Timely, TimelyCalls, Spaced;
    var attempts := AttemptsOf(c, calls);
    CallsAreAttempts(c, calls);
    MessagesAreSent(c, attempts);
    TimelyCallsMakeTimelyAttempts(c, calls);
    EveryAttemptIsCounted(c, attempts);
    NoMinuteOverflows(c, attempts, t, end);
    RepeatsAreSpaced(c, attempts);
  }
}
