/** The notification router of `services/notification_service/policy_router.py`: preference
    matching, a dedupe window and a per-minute rate budget, as a refinement of a log of sent messages. */
module PolicyRouter {
  import opened SlidingWindow

  datatype Severity = Info | Warning | Critical

  function Rank(s: Severity): int {
    match s
    case Info => 1
    case Warning => 2
    case Critical => 3
  }

  // `strategyId` is empty when the payload has none.
  datatype Event = Event(
    id: string, eventType: string, severity: Severity, idempotencyKey: string, strategyId: string)

  datatype Preference = Preference(
    userId: string, minSeverity: Severity, gateways: seq<string>, strategyIds: seq<string>, eventTypes: seq<string>)

  datatype Message = Message(userId: string, gateway: string, event: Event)

  datatype Config = Config(preferences: seq<Preference>, dedupeWindow: real, ratePerMinute: int)

  predicate Usable(c: Config) {
    c.dedupeWindow > 0.0 && c.ratePerMinute > 0
  }

  const MINUTE: real := 60.0

  predicate Matches(p: Preference, e: Event) {
    && Rank(e.severity) >= Rank(p.minSeverity)
    && (p.eventTypes != [] ==> e.eventType in p.eventTypes)
    && (p.strategyIds != [] ==> e.strategyId in p.strategyIds)
  }

  function ActivePreferences(c: Config): seq<Preference> {
    if c.preferences == [] then [Preference("ops-default", Info, ["telegram"], [], [])] else c.preferences
  }

  // One user and gateway an event is offered to.
  datatype Target = Target(userId: string, gateway: string)

  function GatewayTargets(p: Preference, n: nat): seq<Target>
    requires n <= |p.gateways|
  {
    seq(n, i requires 0 <= i < n => Target(p.userId, p.gateways[i]))
  }

  // Every gateway of every matching preference, in order.
  function Targets(preferences: seq<Preference>, e: Event): seq<Target> {
    if preferences == [] then []
    else
      var (rest, last) := (Targets(preferences[..|preferences| - 1], e), preferences[|preferences| - 1]);
      if Matches(last, e) then rest + GatewayTargets(last, |last.gateways|) else rest
  }

  // One attempt to send

  datatype Attempt = Attempt(target: Target, event: Event, at: real)

  datatype DedupeKey = DedupeKey(target: Target, idempotencyKey: string)

  datatype State = State(
    seenAt: map<DedupeKey, real>, rateEvents: map<Target, seq<real>>, dedupeSuppressed: nat, rateSuppressed: nat)

  const INITIAL := State(map[], map[], 0, 0)

  datatype Outcome = Routed | DedupeSuppressed | RateSuppressed

  function KeyOf(a: Attempt): DedupeKey {
    DedupeKey(a.target, a.event.idempotencyKey)
  }

  function EntriesOf(st: State, t: Target): seq<real> {
    if t in st.rateEvents then st.rateEvents[t] else []
  }

  predicate SeenRecently(c: Config, st: State, a: Attempt) {
    KeyOf(a) in st.seenAt && a.at - st.seenAt[KeyOf(a)] < c.dedupeWindow
  }

  function Attempted(c: Config, st: State, a: Attempt): (State, Outcome) {
    if SeenRecently(c, st, a) then (st.(dedupeSuppressed := st.dedupeSuppressed + 1), DedupeSuppressed)
    else
      var entries := From(EntriesOf(st, a.target), a.at - MINUTE);
      if |entries| >= c.ratePerMinute then
        (st.(rateEvents := st.rateEvents[a.target := entries], rateSuppressed := st.rateSuppressed + 1), RateSuppressed)
      else
        (st.(rateEvents := st.rateEvents[a.target := entries + [a.at]], seenAt := st.seenAt[KeyOf(a) := a.at]), Routed)
  }

  // Attempts in order: the state and the messages sent.
  function AttemptAll(c: Config, st: State, attempts: seq<Attempt>): (State, seq<Message>) {
    if attempts == [] then (st, [])
    else
      var (before, messages) := AttemptAll(c, st, attempts[..|attempts| - 1]);
      var last := attempts[|attempts| - 1];
      var (after, outcome) := Attempted(c, before, last);
      var message := Message(last.target.userId, last.target.gateway, last.event);
      (after, if outcome.Routed? then messages + [message] else messages)
  }

  function AttemptsAt(targets: seq<Target>, e: Event, now: real): seq<Attempt> {
    seq(|targets|, i requires 0 <= i < |targets| => Attempt(targets[i], e, now))
  }

  // The attempts that routing an event makes.
  function AttemptsFor(c: Config, e: Event, now: real): seq<Attempt> {
    AttemptsAt(Targets(ActivePreferences(c), e), e, now)
  }

  class Router {
    const config: Config
    var seenAt: map<DedupeKey, real>
    var rateEvents: map<Target, seq<real>>
    var dedupeSuppressed: nat
    var rateSuppressed: nat

    ghost function View(): State
      reads this
    {
      State(seenAt, rateEvents, dedupeSuppressed, rateSuppressed)
    }

    constructor (config: Config)
      requires Usable(config)
      ensures View() == INITIAL && this.config == config
    {
      this.config := config;
      seenAt, rateEvents, dedupeSuppressed, rateSuppressed := map[], map[], 0, 0;
    }

    method ConsumeRateBudget(target: Target, now: real) returns (granted: bool)
      modifies this`rateEvents
      ensures
        var entries := From(EntriesOf(old(View()), target), now - MINUTE);
        && granted == (|entries| < config.ratePerMinute)
        && rateEvents == old(rateEvents)[target := if granted then entries + [now] else entries]
    {
      var all := if target in rateEvents then rateEvents[target] else [];
      var entries: seq<real> := [];
      for i := 0 to |all|
        invariant entries == From(all[..i], now - MINUTE)
      {
        assert all[..i + 1][..i] == all[..i];
        if all[i] >= now - MINUTE {
          entries := entries + [all[i]];
        }
      }
      assert all[..|all|] == all;
      if |entries| >= config.ratePerMinute {
        rateEvents := rateEvents[target := entries];
        return false;
      }
      rateEvents := rateEvents[target := entries + [now]];
      return true;
    }

    // One pass of the inner loop.
    method Offer(a: Attempt) returns (outcome: Outcome)
      modifies this
      ensures (View(), outcome) == Attempted(config, old(View()), a)
    {
      hide From;
      var dedupeKey := DedupeKey(a.target, a.event.idempotencyKey);
      if dedupeKey in seenAt && a.at - seenAt[dedupeKey] < config.dedupeWindow {
        dedupeSuppressed := dedupeSuppressed + 1;
        return DedupeSuppressed;
      }
      var granted := ConsumeRateBudget(a.target, a.at);
      if !granted {
        rateSuppressed := rateSuppressed + 1;
        return RateSuppressed;
      }
      seenAt := seenAt[dedupeKey := a.at];
      return Routed;
    }

    method Route(e: Event, now: real) returns (messages: seq<Message>)
      modifies this
      ensures (View(), messages) == AttemptAll(config, old(View()), AttemptsFor(config, e, now))
    {
      hide Attempted, Targets, Matches, GatewayTargets, AttemptAll, AttemptsAt;
      var active := ActivePreferences(config);
      messages := [];
      NoTargets(e);
      NoAttempts(config, View(), e, now);
      for i := 0 to |active|
        invariant (View(), messages) == AttemptAll(config, old(View()), AttemptsAt(Targets(active[..i], e), e, now))
      {
        var pref := active[i];
        TargetsOneMore(active, i, e);
        if Matches(pref, e) {
          ghost var sofar := Targets(active[..i], e);
          NoGatewayTargets(pref);
          assert sofar + [] == sofar;
          for j := 0 to |pref.gateways|
            invariant (View(), messages)
              == AttemptAll(config, old(View()), AttemptsAt(sofar + GatewayTargets(pref, j), e, now))
          {
            var target := Target(pref.userId, pref.gateways[j]);
            ghost var done := AttemptsAt(sofar + GatewayTargets(pref, j), e, now);
            GatewayTargetsOneMore(pref, j);
            assert sofar + GatewayTargets(pref, j + 1) == sofar + GatewayTargets(pref, j) + [target];
            AttemptsOneMore(sofar + GatewayTargets(pref, j), target, e, now);
            OneMoreAttempt(config, old(View()), done, Attempt(target, e, now));
            var outcome := Offer(Attempt(target, e, now));
            if outcome.Routed? {
              messages := messages + [Message(pref.userId, pref.gateways[j], e)];
            }
          }
        }
      }
      assert active[..|active|] == active;
    }
  }

  lemma NoAttempts(c: Config, st: State, e: Event, now: real)
    ensures AttemptAll(c, st, AttemptsAt([], e, now)) == (st, [])
  {
  }

  lemma OneMoreAttempt(c: Config, st: State, attempts: seq<Attempt>, a: Attempt)
    ensures
      var (before, messages) := AttemptAll(c, st, attempts);
      var (after, outcome) := Attempted(c, before, a);
      var message := Message(a.target.userId, a.target.gateway, a.event);
      AttemptAll(c, st, attempts + [a]) == (after, if outcome.Routed? then messages + [message] else messages)
  {
    hide Attempted;
    assert (attempts + [a])[..|attempts|] == attempts;
  }

  lemma NoTargets(e: Event)
    ensures Targets([], e) == []
  {
  }

  lemma TargetsOneMore(preferences: seq<Preference>, i: nat, e: Event)
    requires i < |preferences|
    ensures
      var (before, p) := (Targets(preferences[..i], e), preferences[i]);
      Targets(preferences[..i + 1], e) == if Matches(p, e) then before + GatewayTargets(p, |p.gateways|) else before
  {
    assert preferences[..i + 1][..i] == preferences[..i];
  }

  lemma NoGatewayTargets(p: Preference)
    ensures GatewayTargets(p, 0) == []
  {
  }

  lemma GatewayTargetsOneMore(p: Preference, j: nat)
    requires j < |p.gateways|
    ensures GatewayTargets(p, j + 1) == GatewayTargets(p, j) + [Target(p.userId, p.gateways[j])]
  {
  }

  lemma AttemptsOneMore(targets: seq<Target>, t: Target, e: Event, now: real)
    ensures AttemptsAt(targets + [t], e, now) == AttemptsAt(targets, e, now) + [Attempt(t, e, now)]
  {
  }
}
