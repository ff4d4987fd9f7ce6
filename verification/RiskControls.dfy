/** The kill switch and circuit breaker of `services/oms/risk_controls.py`, and the account its
    event log gives of them. */
module RiskControls {
  import opened Basics

  // Times are seconds on the UTC clock. Reasons and actors are carried along unchanged.
  datatype Note = Note(reason: string, actor: string)

  datatype Event =
    | KillSwitchEnabled(note: Note, at: real)
    | KillSwitchDisabled(note: Note, at: real)
    | FailureRecorded(note: Note, at: real, consecutiveFailures: nat)
    | BreakerTripped(note: Note, at: real, consecutiveFailures: nat, threshold: int, openUntil: real)
    | BreakerReset(note: Note, at: real)
    | BreakerAutoReset(at: real)

  // Both are positive.
  datatype Config = Config(threshold: int, cooldown: int)

  predicate ValidConfig(c: Config) {
    c.threshold > 0 && c.cooldown > 0
  }

  datatype State = State(killSwitch: bool, failures: nat, openUntil: Option<real>, events: seq<Event>)

  const INITIAL := State(false, 0, None, [])

  datatype Gate = Gate(allowed: bool, blockedBy: seq<string>)

  datatype Snapshot = Snapshot(killSwitch: bool, breakerOpen: bool, failures: nat, openUntil: Option<real>)

  // The control calls

  function Emit(st: State, e: Event): State {
    st.(events := st.events + [e])
  }

  function Enabled(st: State, note: Note, at: real): State {
    if st.killSwitch then st else Emit(st.(killSwitch := true), KillSwitchEnabled(note, at))
  }

  function Disabled(st: State, note: Note, at: real): State {
    if !st.killSwitch then st else Emit(st.(killSwitch := false), KillSwitchDisabled(note, at))
  }

  // A missing or zero cooldown means the configured one; a negative one is refused.
  function CooldownFor(c: Config, cooldown: Option<int>): int {
    if cooldown.Some? && cooldown.value != 0 then cooldown.value else c.cooldown
  }

  function Tripped(c: Config, st: State, note: Note, at: real, cooldown: Option<int>): State {
    var seconds := CooldownFor(c, cooldown);
    if seconds <= 0 then st
    else
      var until := at + seconds as real;
      Emit(st.(openUntil := Some(until)), BreakerTripped(note, at, st.failures, c.threshold, until))
  }

  function Failed(c: Config, st: State, note: Note, at: real): State {
    var counted := Emit(st.(failures := st.failures + 1), FailureRecorded(note, at, st.failures + 1));
    if counted.failures >= c.threshold then Tripped(c, counted, note, at, None) else counted
  }

  function Succeeded(st: State): State {
    st.(failures := 0)
  }

  function WasReset(st: State, note: Note, at: real): State {
    if st.openUntil.None? && st.failures == 0 then st
    else Emit(st.(openUntil := None, failures := 0), BreakerReset(note, at))
  }

  function AutoReset(st: State, now: real): State {
    if st.openUntil.None? || now < st.openUntil.value then st
    else Emit(st.(openUntil := None, failures := 0), BreakerAutoReset(now))
  }

  predicate BreakerOpen(st: State, now: real) {
    st.openUntil.Some? && now < st.openUntil.value
  }

  function GateOf(st: State, now: real): Gate {
    var blocked := (if st.killSwitch then ["kill_switch"] else [])
      + (if BreakerOpen(st, now) then ["circuit_breaker"] else []);
    Gate(blocked == [], blocked)
  }

  class ControlPlane {
    const config: Config
    var killSwitch: bool
    var failures: nat
    var openUntil: Option<real>
    var events: seq<Event>

    ghost function View(): State
      reads this
    {
      State(killSwitch, failures, openUntil, events)
    }

    constructor (config: Config)
      requires ValidConfig(config)
      ensures View() == INITIAL && this.config == config
    {
      this.config := config;
      killSwitch, failures, openUntil, events := false, 0, None, [];
    }

    method EnableKillSwitch(note: Note, at: real)
      modifies this
      ensures View() == Enabled(old(View()), note, at)
    {
      if killSwitch {
        return;
      }
      killSwitch := true;
      events := events + [KillSwitchEnabled(note, at)];
    }

    method DisableKillSwitch(note: Note, at: real)
      modifies this
      ensures View() == Disabled(old(View()), note, at)
    {
      if !killSwitch {
        return;
      }
      killSwitch := false;
      events := events + [KillSwitchDisabled(note, at)];
    }

    method TripCircuitBreaker(note: Note, at: real, cooldown: Option<int>) returns (refused: bool)
      modifies this
      ensures View() == Tripped(config, old(View()), note, at, cooldown)
      ensures refused <==> CooldownFor(config, cooldown) <= 0
    {
      var seconds := if cooldown.Some? && cooldown.value != 0 then cooldown.value else config.cooldown;
      if seconds <= 0 {
        return true;
      }
      openUntil := Some(at + seconds as real);
      events := events + [BreakerTripped(note, at, failures, config.threshold, at + seconds as real)];
      return false;
    }

    method RecordFailure(note: Note, at: real)
      modifies this
      ensures View() == Failed(config, old(View()), note, at)
    {
      failures := failures + 1;
      events := events + [FailureRecorded(note, at, failures)];
      if failures >= config.threshold {
        var _ := TripCircuitBreaker(note, at, None);
      }
    }

    method RecordSuccess()
      modifies this
      ensures View() == Succeeded(old(View()))
    {
      failures := 0;
    }

    method ResetCircuitBreaker(note: Note, at: real)
      modifies this
      ensures View() == WasReset(old(View()), note, at)
    {
      if openUntil.None? && failures == 0 {
        return;
      }
      openUntil, failures := None, 0;
      events := events + [BreakerReset(note, at)];
    }

    method AutoResetIfExpired(now: real)
      modifies this
      ensures View() == AutoReset(old(View()), now)
    {
      if openUntil.None? || now < openUntil.value {
        return;
      }
      openUntil, failures := None, 0;
      events := events + [BreakerAutoReset(now)];
    }

    method EvaluateOrderAllowed(now: real) returns (gate: Gate)
      modifies this
      ensures View() == AutoReset(old(View()), now)
      ensures gate == GateOf(View(), now)
    {
      AutoResetIfExpired(now);
      var blocked: seq<string> := [];
      if killSwitch {
        blocked := blocked + ["kill_switch"];
      }
      if openUntil.Some? && now < openUntil.value {
        blocked := blocked + ["circuit_breaker"];
      }
      return Gate(blocked == [], blocked);
    }

    method TakeSnapshot(now: real) returns (s: Snapshot)
      modifies this
      ensures View() == AutoReset(old(View()), now)
      ensures s == Snapshot(killSwitch, BreakerOpen(View(), now), failures, openUntil)
    {
      AutoResetIfExpired(now);
      return Snapshot(killSwitch, openUntil.Some? && now < openUntil.value, failures, openUntil);
    }

    method DrainEvents() returns (drained: seq<Event>)
      modifies this
      ensures drained == old(events) && View() == old(View()).(events := [])
    {
      drained := events;
      events := [];
    }
  }

  // Runs of control calls

  datatype Op =
    | Enable(note: Note, at: real)
    | Disable(note: Note, at: real)
    | Failure(note: Note, at: real)
    | Success
    | Trip(note: Note, at: real, cooldown: Option<int>)
    | Reset(note: Note, at: real)
    | Evaluate(at: real)
    | Drain

  function Act(c: Config, st: State, op: Op): State {
    match op
    case Enable(note, at) => Enabled(st, note, at)
    case Disable(note, at) => Disabled(st, note, at)
    case Failure(note, at) => Failed(c, st, note, at)
    case Success => Succeeded(st)
    case Trip(note, at, cooldown) => Tripped(c, st, note, at, cooldown)
    case Reset(note, at) => WasReset(st, note, at)
    case Evaluate(at) => AutoReset(st, at)
    case Drain => st.(events := [])
  }

  function Run(c: Config, ops: seq<Op>): State {
    if ops == [] then INITIAL else Act(c, Run(c, ops[..|ops| - 1]), ops[|ops| - 1])
  }

  // All batches drained during a run, in order.
  function Drained(c: Config, ops: seq<Op>): seq<Event> {
    if ops == [] then []
    else
      var (rest, before) := (Drained(c, ops[..|ops| - 1]), Run(c, ops[..|ops| - 1]));
      if ops[|ops| - 1].Drain? then rest + before.events else rest
  }

  // Everything a consumer of the log gets to see: drained batches, then pending events.
  function History(c: Config, ops: seq<Op>): seq<Event> {
    Drained(c, ops) + Run(c, ops).events
  }

  // Reading the log

  function SwitchAfter(events: seq<Event>): bool {
    if events == [] then false
    else
      var last := events[|events| - 1];
      if last.KillSwitchEnabled? then true
      else if last.KillSwitchDisabled? then false
      else SwitchAfter(events[..|events| - 1])
  }

  function DeadlineAfter(events: seq<Event>): Option<real> {
    if events == [] then None
    else
      var last := events[|events| - 1];
      if last.BreakerTripped? then Some(last.openUntil)
      else if last.BreakerReset? || last.BreakerAutoReset? then None
      else DeadlineAfter(events[..|events| - 1])
  }

  // Every enable finds the switch off and every disable finds it on.
  predicate Alternates(events: seq<Event>) {
    events == [] ||
      (var (rest, last) := (events[..|events| - 1], events[|events| - 1]);
       && Alternates(rest)
       && (last.KillSwitchEnabled? ==> !SwitchAfter(rest))
       && (last.KillSwitchDisabled? ==> SwitchAfter(rest)))
  }

  lemma ReadOneMore(events: seq<Event>, e: Event)
    ensures SwitchAfter(events + [e]) ==
      (if e.KillSwitchEnabled? then true else if e.KillSwitchDisabled? then false else SwitchAfter(events))
    ensures DeadlineAfter(events + [e]) ==
      (if e.BreakerTripped? then Some(e.openUntil)
       else if e.BreakerReset? || e.BreakerAutoReset? then None else DeadlineAfter(events))
    ensures Alternates(events + [e]) <==>
      && Alternates(events)
      && (e.KillSwitchEnabled? ==> !SwitchAfter(events))
      && (e.KillSwitchDisabled? ==> SwitchAfter(events))
  {
    assert (events + [e])[..|events|] == events;
  }

  // The log tells the state.
  predicate Told(events: seq<Event>, st: State) {
    SwitchAfter(events) == st.killSwitch && DeadlineAfter(events) == st.openUntil && Alternates(events)
  }

  predicate IsSwitch(e: Event) {
    e.KillSwitchEnabled? || e.KillSwitchDisabled?
  }

  lemma {:induction false} AlternatesPrefix(events: seq<Event>, n: nat)
    requires Alternates(events) && n <= |events|
    ensures Alternates(events[..n])
    decreases |events|
  {
    if n == |events| {
      assert events[..n] == events;
    } else {
      assert events[..|events| - 1][..n] == events[..n];
      AlternatesPrefix(events[..|events| - 1], n);
    }
  }

  lemma {:induction false} SwitchIsLatest(events: seq<Event>, i: nat, j: nat)
    requires i < j <= |events| && IsSwitch(events[i]) && forall k :: i < k < j ==> !IsSwitch(events[k])
    ensures SwitchAfter(events[..j]) == events[i].KillSwitchEnabled?
  {
    assert events[..j][..j - 1] == events[..j - 1];
    if i + 1 < j {
      SwitchIsLatest(events, i, j - 1);
    }
  }

  // Neighbouring kill-switch events are one enable and one disable.
  lemma NeighbouringSwitchesDiffer(events: seq<Event>, i: nat, j: nat)
    requires Alternates(events) && i < j < |events| && IsSwitch(events[i]) && IsSwitch(events[j])
    requires forall k :: i < k < j ==> !IsSwitch(events[k])
    ensures events[i].KillSwitchEnabled? <==> events[j].KillSwitchDisabled?
  {
    AlternatesPrefix(events, j + 1);
    SwitchIsLatest(events, i, j);
    assert events[..j + 1][..j] == events[..j];
  }

  // What a call adds to the log keeps it telling the state.
  lemma AddedEventsAreTold(c: Config, told: seq<Event>, st: State, op: Op)
    requires Told(told, st) && !op.Drain?
    ensures
      var next := Act(c, st, op);
      && |st.events| <= |next.events| && next.events[..|st.events|] == st.events
      && Told(told + next.events[|st.events|..], next)
  {
    hide SwitchAfter, DeadlineAfter, Alternates;
    var next := Act(c, st, op);
    var added := next.events[|st.events|..];
    assert told + [] == told;
    if |added| >= 1 {
      ReadOneMore(told, added[0]);
    }
    if |added| == 2 {
      ReadOneMore(told + [added[0]], added[1]);
      assert told + added == told + [added[0]] + [added[1]];
    } else if |added| == 1 {
      assert told + added == told + [added[0]];
    }
  }

  // Over every run of control calls, reading all drained batches and then the pending events
  // yields the kill switch and the breaker deadline, and enables and disables alternate.
  lemma {:induction false} HistoryTellsState(c: Config, ops: seq<Op>)
    ensures Told(History(c, ops), Run(c, ops))
  {
    if ops != [] {
      hide Told, Act;
      var (rest, last) := (ops[..|ops| - 1], ops[|ops| - 1]);
      var (before, after) := (Run(c, rest), Run(c, ops));
      HistoryTellsState(c, rest);
      if last.Drain? {
        DrainMovesEvents(c, before, last);
        assert Drained(c, ops) + [] == Drained(c, ops);
        SameTold(History(c, rest), before, after);
      } else {
        AddedEventsAreTold(c, History(c, rest), before, last);
        var added := after.events[|before.events|..];
        assert after.events == before.events + added;
        assert Drained(c, rest) + (before.events + added) == Drained(c, rest) + before.events + added;
      }
    } else {
      StartIsTold();
    }
  }

  lemma DrainMovesEvents(c: Config, st: State, op: Op)
    requires op.Drain?
    ensures Act(c, st, op) == st.(events := [])
  {
  }

  lemma SameTold(events: seq<Event>, st: State, next: State)
    requires Told(events, st) && next.killSwitch == st.killSwitch && next.openUntil == st.openUntil
    ensures Told(events, next)
  {
  }

  lemma StartIsTold()
    ensures Told([] + INITIAL.events, INITIAL)
  {
  }

  // An order is allowed at `now` exactly when the log's switch is off and its deadline, if any,
  // is not later than `now`.
  lemma {:induction false} AllowedByTheLog(c: Config, ops: seq<Op>, now: real)
    ensures
      var (switch, deadline) := (SwitchAfter(History(c, ops)), DeadlineAfter(History(c, ops)));
      GateOf(AutoReset(Run(c, ops), now), now).allowed <==> !switch && (deadline.Some? ==> deadline.value <= now)
  {
    HistoryTellsState(c, ops);
  }

  // An operation that does not end the cooldown begun at `at`: no reset, no evaluation after it,
  // and no failure or trip that would set an earlier deadline.
  predicate KeepsCooldown(c: Config, op: Op, at: real) {
    var deadline := at + c.cooldown as real;
    match op
    case Reset(_, _) => false
    case Failure(_, later) => at <= later
    case Trip(_, later, cooldown) =>
      var seconds := CooldownFor(c, cooldown);
      seconds <= 0 || deadline <= later + seconds as real
    case Evaluate(now) => now < deadline
    case _ => true
  }

  predicate OpenUntil(st: State, deadline: real) {
    st.openUntil.Some? && deadline <= st.openUntil.value
  }

  lemma StaysOpen(c: Config, st: State, op: Op, at: real)
    requires ValidConfig(c) && OpenUntil(st, at + c.cooldown as real) && KeepsCooldown(c, op, at)
    ensures OpenUntil(Act(c, st, op), at + c.cooldown as real)
  {
  }

  // In every run with a sane configuration: once a failure at `at` completes the threshold, the
  // breaker stays open for the whole cooldown, through any operations that do not end it, so
  // that no order passes before `at + cooldown`.
  lemma {:induction false} ThresholdTrips(c: Config, before: seq<Op>, failure: Op, after: seq<Op>, now: real)
    requires ValidConfig(c) && failure.Failure? && Run(c, before).failures + 1 >= c.threshold
    requires forall op :: op in after ==> KeepsCooldown(c, op, failure.at)
    requires now < failure.at + c.cooldown as real
    ensures
      var st := Run(c, before + [failure] + after);
      && OpenUntil(st, failure.at + c.cooldown as real)
      && !GateOf(AutoReset(st, now), now).allowed
      && "circuit_breaker" in GateOf(AutoReset(st, now), now).blockedBy
    decreases |after|
  {
    var ops := before + [failure] + after;
    var (rest, last) := (ops[..|ops| - 1], ops[|ops| - 1]);
    if after == [] {
      assert rest == before && last == failure;
    } else {
      hide Act, KeepsCooldown;
      assert rest == before + [failure] + after[..|after| - 1] && last in after;
      ThresholdTrips(c, before, failure, after[..|after| - 1], now);
      StaysOpen(c, Run(c, rest), last, failure.at);
    }
  }
}
