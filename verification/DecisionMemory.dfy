/** Decision memory: the expiring slot store of `services/agent_orchestrator/sqlalchemy_memory_store.py`
    as a cache over an archive of decision summaries, as `memory_layer.py` uses them. */
module DecisionMemory {
  import opened MemoryValues

  datatype Scope = Scope(mode: string, strategyId: string, decisionId: string)

  datatype SlotKey = SlotKey(scope: Scope, slot: string)

  datatype Stored = Stored(payload: Value, expiresAt: real)

  type Slots = map<SlotKey, Stored>

  const SUMMARY := "summary"

  // The expiring store

  function Lifetime(ttl: int): real {
    (if ttl < 1 then 1 else ttl) as real
  }

  function Written(slots: Slots, key: SlotKey, payload: Value, ttl: int, now: real): Slots {
    slots[key := Stored(payload, now + Lifetime(ttl))]
  }

  predicate Expired(s: Stored, now: real) {
    s.expiresAt <= now
  }

  function ExpiredKeys(slots: Slots, now: real): set<SlotKey> {
    set k | k in slots && Expired(slots[k], now)
  }

  function Unexpired(slots: Slots, now: real): Slots {
    slots - ExpiredKeys(slots, now)
  }

  // The slots of one scope among the given keys.
  function SlotNames(keys: set<SlotKey>, scope: Scope): set<string> {
    set k | k in keys && k.scope == scope :: k.slot
  }

  function Scoped(slots: Slots, scope: Scope): map<string, Value> {
    map slot | slot in SlotNames(slots.Keys, scope) && SlotKey(scope, slot) in slots ::
      slots[SlotKey(scope, slot)].payload
  }

  class TtlStore {
    var slots: Slots

    constructor ()
      ensures slots == map[]
    {
      slots := map[];
    }

    method WriteSlot(key: SlotKey, payload: Value, ttl: int, now: real)
      modifies this
      ensures slots == Written(old(slots), key, payload, ttl, now)
    {
      slots := slots[key := Stored(payload, now + Lifetime(ttl))];
    }

    method ReadSlots(scope: Scope, now: real) returns (scoped: map<string, Value>)
      modifies this
      ensures slots == Unexpired(old(slots), now)
      ensures scoped == Scoped(slots, scope)
    {
      scoped := map[];
      var expired: set<SlotKey> := {};
      var rest := slots.Keys;
      while rest != {}
        invariant rest <= slots.Keys && slots == old(slots)
        invariant expired == set k | k in slots && k !in rest && Expired(slots[k], now)
        invariant forall slot :: slot in scoped <==>
          SlotKey(scope, slot) in slots && SlotKey(scope, slot) !in rest && !Expired(slots[SlotKey(scope, slot)], now)
        invariant forall slot :: slot in scoped ==> scoped[slot] == slots[SlotKey(scope, slot)].payload
        decreases |rest|
      {
        var key :| key in rest;
        rest := rest - {key};
        if slots[key].expiresAt <= now {
          expired := expired + {key};
        } else if key.scope == scope {
          assert key == SlotKey(scope, key.slot);
          scoped := scoped[key.slot := slots[key].payload];
        }
      }
      assert expired == ExpiredKeys(slots, now);
      slots := slots - expired;
      ScopedContent(slots, scope);
      assert forall slot :: slot in scoped <==> SlotKey(scope, slot) in slots;
      assert scoped == Scoped(slots, scope);
    }
  }

  lemma ScopedContent(slots: Slots, scope: Scope)
    ensures forall slot :: slot in Scoped(slots, scope) <==> SlotKey(scope, slot) in slots
    ensures forall slot :: slot in Scoped(slots, scope) ==>
      Scoped(slots, scope)[slot] == slots[SlotKey(scope, slot)].payload
  {
    forall slot | SlotKey(scope, slot) in slots ensures slot in SlotNames(slots.Keys, scope) {
      assert SlotKey(scope, slot).slot == slot;
    }
  }

  // The memory layer

  // What the caller hands over when a decision is concluded.
  datatype Conclusion = Conclusion(
    traceId: string, status: string, marketContext: Value, plan: Value, risk: Value,
    executionDecision: Value, guardrail: Value, lifecycle: seq<Value>)

  datatype DecisionRecord = DecisionRecord(
    traceId: string, scope: Scope, status: string, summary: Value, lifecycle: seq<Value>, persistedAt: real)

  datatype Source = Cache | Archive | Nowhere

  datatype Memory = Memory(source: Source, slots: map<string, Value>)

  datatype State = State(slots: Slots, archive: map<string, DecisionRecord>)

  function SummaryOf(x: Conclusion): Value {
    Mapping([ Entry(Text("status"), Scalar(x.status)),
              Entry(Text("market_context"), EnsureMapping(x.marketContext)),
              Entry(Text("plan"), EnsureMapping(x.plan)),
              Entry(Text("risk"), EnsureMapping(x.risk)),
              Entry(Text("execution_decision"), EnsureMapping(x.executionDecision)),
              Entry(Text("guardrail"), EnsureMapping(x.guardrail)) ])
  }

  function MapAll(values: seq<Value>): seq<Value> {
    seq(|values|, i requires 0 <= i < |values| => EnsureMapping(values[i]))
  }

  function RecordOf(scope: Scope, x: Conclusion, at: real): DecisionRecord {
    DecisionRecord(x.traceId, scope, x.status, SummaryOf(x), MapAll(x.lifecycle), at)
  }

  function Persisted(st: State, ttl: int, scope: Scope, x: Conclusion, at: real): State {
    State(Written(st.slots, SlotKey(scope, SUMMARY), SummaryOf(x), ttl, at),
          st.archive[scope.decisionId := RecordOf(scope, x, at)])
  }

  function SlotWritten(st: State, ttl: int, scope: Scope, slot: string, payload: Value, at: real): State {
    st.(slots := Written(st.slots, SlotKey(scope, slot), EnsureMapping(payload), ttl, at))
  }

  // Reading looks at the clock once to expire slots and again when it refills the cache.
  function Recalled(st: State, ttl: int, scope: Scope, at: real, refillAt: real): (State, Memory) {
    var slots := Unexpired(st.slots, at);
    var scoped := Scoped(slots, scope);
    if scoped != map[] then
      (st.(slots := slots), Memory(Cache, map slot | slot in scoped :: EnsureMapping(scoped[slot])))
    else if scope.decisionId !in st.archive then (st.(slots := slots), Memory(Nowhere, map[]))
    else
      var summary := EnsureMapping(st.archive[scope.decisionId].summary);
      (st.(slots := Written(slots, SlotKey(scope, SUMMARY), summary, ttl, refillAt)),
       Memory(Archive, map[SUMMARY := summary]))
  }

  class MemoryLayer {
    const store: TtlStore
    const ttl: int
    var archive: map<string, DecisionRecord>

    ghost function View(): State
      reads this, store
    {
      State(store.slots, archive)
    }

    constructor (ttl: int)
      ensures fresh(store) && View() == State(map[], map[]) && this.ttl == ttl
    {
      var fresh' := new TtlStore();
      store, this.ttl, archive := fresh', ttl, map[];
    }

    method ReadDecisionMemory(scope: Scope, at: real, refillAt: real) returns (memory: Memory)
      modifies store
      ensures (View(), memory) == Recalled(old(View()), ttl, scope, at, refillAt)
    {
      var slots := store.ReadSlots(scope, at);
      var normalized := map slot | slot in slots :: EnsureMapping(slots[slot]);
      if slots != map[] {
        return Memory(Cache, normalized);
      }
      if scope.decisionId !in archive {
        return Memory(Nowhere, map[]);
      }
      var summary := EnsureMapping(archive[scope.decisionId].summary);
      store.WriteSlot(SlotKey(scope, SUMMARY), summary, ttl, refillAt);
      return Memory(Archive, map[SUMMARY := summary]);
    }

    method WriteDecisionSlot(scope: Scope, slot: string, payload: Value, at: real)
      modifies store
      ensures View() == SlotWritten(old(View()), ttl, scope, slot, payload, at)
    {
      store.WriteSlot(SlotKey(scope, slot), EnsureMapping(payload), ttl, at);
    }

    method PersistDecisionSummary(scope: Scope, x: Conclusion, at: real) returns (record: DecisionRecord)
      modifies this, store
      ensures View() == Persisted(old(View()), ttl, scope, x, at) && record == RecordOf(scope, x, at)
    {
      record := RecordOf(scope, x, at);
      archive := archive[scope.decisionId := record];
      store.WriteSlot(SlotKey(scope, SUMMARY), record.summary, ttl, at);
    }
  }

  // Runs

  datatype Op =
    | Read(scope: Scope, at: real, refillAt: real)
    | Write(scope: Scope, at: real, slot: string, payload: Value)
    | Persist(scope: Scope, at: real, conclusion: Conclusion)

  function EndOf(op: Op): real {
    if op.Read? then op.refillAt else op.at
  }

  function Act(st: State, ttl: int, op: Op): State {
    match op
    case Read(scope, at, refillAt) => Recalled(st, ttl, scope, at, refillAt).0
    case Write(scope, at, slot, payload) => SlotWritten(st, ttl, scope, slot, payload, at)
    case Persist(scope, at, conclusion) => Persisted(st, ttl, scope, conclusion, at)
  }

  function Run(st: State, ttl: int, ops: seq<Op>): State {
    if ops == [] then st else Act(Run(st, ttl, ops[..|ops| - 1]), ttl, ops[|ops| - 1])
  }

  // Operations one after another, the first not before `start`.
  predicate Timely(start: real, ops: seq<Op>) {
    ops == [] ||
      (var (rest, last) := (ops[..|ops| - 1], ops[|ops| - 1]);
       Timely(start, rest) && ClockAfter(start, rest) <= last.at <= EndOf(last))
  }

  function ClockAfter(start: real, ops: seq<Op>): real {
    if ops == [] then start else EndOf(ops[|ops| - 1])
  }

  // No slot outlives the lifetime counted from the clock.
  predicate Bounded(slots: Slots, ttl: int, clock: real) {
    forall k :: k in slots ==> slots[k].expiresAt <= clock + Lifetime(ttl)
  }

  lemma ActStaysBounded(st: State, ttl: int, op: Op, clock: real)
    requires Bounded(st.slots, ttl, clock) && clock <= op.at <= EndOf(op)
    ensures Bounded(Act(st, ttl, op).slots, ttl, EndOf(op))
  {
    hide Scoped;
  }

  lemma {:induction false} RunStaysBounded(ttl: int, start: real, ops: seq<Op>)
    requires Timely(start, ops)
    ensures Bounded(Run(State(map[], map[]), ttl, ops).slots, ttl, ClockAfter(start, ops))
  {
    if ops != [] {
      hide Act, Bounded;
      var (rest, last) := (ops[..|ops| - 1], ops[|ops| - 1]);
      RunStaysBounded(ttl, start, rest);
      ActStaysBounded(Run(State(map[], map[]), ttl, rest), ttl, last, ClockAfter(start, rest));
    }
  }

  // The archive holds the summary, and so does the cache, where it outlives every other slot of
  // the scope, unless nothing of the scope is cached.
  predicate Secured(st: State, scope: Scope, summary: Value) {
    && scope.decisionId in st.archive && st.archive[scope.decisionId].summary == summary
    && (forall k :: k in st.slots && k.scope == scope ==>
          && SlotKey(scope, SUMMARY) in st.slots
          && st.slots[k].expiresAt <= st.slots[SlotKey(scope, SUMMARY)].expiresAt)
    && (SlotKey(scope, SUMMARY) in st.slots ==> st.slots[SlotKey(scope, SUMMARY)].payload == summary)
  }

  lemma PersistSecures(st: State, ttl: int, scope: Scope, x: Conclusion, at: real, clock: real)
    requires Bounded(st.slots, ttl, clock) && clock <= at
    ensures Secured(Persisted(st, ttl, scope, x, at), scope, SummaryOf(x))
  {
    hide SummaryOf;
  }

  // Any operation but another write to the scope or another conclusion of the decision.
  predicate LeavesAlone(op: Op, scope: Scope) {
    && (op.Write? ==> op.scope != scope)
    && (op.Persist? ==> op.scope.decisionId != scope.decisionId)
  }

  lemma ActKeepsSecured(st: State, ttl: int, op: Op, scope: Scope, summary: Value)
    requires Secured(st, scope, summary) && LeavesAlone(op, scope) && EnsureMapping(summary) == summary
    ensures Secured(Act(st, ttl, op), scope, summary)
  {
    hide SummaryOf, Normalize;
    if op.Read? {
      ReadKeepsSecured(st, ttl, op, scope, summary);
    }
  }

  lemma ExpiryKeepsSecured(st: State, scope: Scope, summary: Value, now: real)
    requires Secured(st, scope, summary)
    ensures Secured(st.(slots := Unexpired(st.slots, now)), scope, summary)
  {
  }

  lemma NothingScoped(slots: Slots, scope: Scope)
    requires Scoped(slots, scope) == map[]
    ensures forall k :: k in slots ==> k.scope != scope
  {
    ScopedContent(slots, scope);
    assert forall k: SlotKey :: k in slots && k.scope == scope ==> SlotKey(scope, k.slot) in slots;
  }

  lemma ReadKeepsSecured(st: State, ttl: int, op: Op, scope: Scope, summary: Value)
    requires op.Read? && Secured(st, scope, summary) && EnsureMapping(summary) == summary
    ensures Secured(Act(st, ttl, op), scope, summary)
  {
    hide EnsureMapping, Unexpired, Scoped;
    ExpiryKeepsSecured(st, scope, summary, op.at);
    if op.scope == scope && Scoped(Unexpired(st.slots, op.at), scope) == map[] {
      NothingScoped(Unexpired(st.slots, op.at), scope);
    }
  }

  // A later read finds the persisted summary, in the cache or through the archive.
  lemma SecuredRead(st: State, ttl: int, scope: Scope, summary: Value, at: real, refillAt: real)
    requires Secured(st, scope, summary) && EnsureMapping(summary) == summary
    ensures
      var memory := Recalled(st, ttl, scope, at, refillAt).1;
      memory.source != Nowhere && SUMMARY in memory.slots && memory.slots[SUMMARY] == summary
  {
    hide EnsureMapping, Unexpired;
    ExpiryKeepsSecured(st, scope, summary, at);
    var slots := Unexpired(st.slots, at);
    var scoped := Scoped(slots, scope);
    ScopedContent(slots, scope);
    if scoped != map[] {
      assert scoped.Keys != {};
      var slot :| slot in scoped;
      assert SlotKey(scope, slot) in slots;
    }
  }

  lemma {:induction false} RunKeepsSecured(st: State, ttl: int, ops: seq<Op>, scope: Scope, summary: Value)
    requires Secured(st, scope, summary) && EnsureMapping(summary) == summary
    requires forall op :: op in ops ==> LeavesAlone(op, scope)
    ensures Secured(Run(st, ttl, ops), scope, summary)
  {
    if ops != [] {
      hide Act, Secured, EnsureMapping;
      RunKeepsSecured(st, ttl, ops[..|ops| - 1], scope, summary);
      assert ops[|ops| - 1] in ops;
      ActKeepsSecured(Run(st, ttl, ops[..|ops| - 1]), ttl, ops[|ops| - 1], scope, summary);
    }
  }

  lemma SummaryIsPlain(x: Conclusion)
    ensures Plain(SummaryOf(x)) && EnsureMapping(SummaryOf(x)) == SummaryOf(x)
  {
    MappingIsPlain(x.marketContext);
    MappingIsPlain(x.plan);
    MappingIsPlain(x.risk);
    MappingIsPlain(x.executionDecision);
    MappingIsPlain(x.guardrail);
    var entries := SummaryOf(x).entries;
    hide EnsureMapping, Normalize;
    PlainEntriesContent(entries);
    assert DistinctTexts(entries);
    PlainIsFixed(SummaryOf(x));
  }

  // In every run that starts empty: once a decision is concluded, and as long as nothing else is
  // written to its scope and the decision is not concluded again, every read of the scope returns
  // a summary slot equal to the persisted summary, whatever has expired meanwhile.
  lemma {:induction false} SummarySurvivesExpiry(ttl: int, start: real, before: seq<Op>, persist: Op, after: seq<Op>,
                              at: real, refillAt: real)
    requires Timely(start, before + [persist]) && persist.Persist?
    requires forall op :: op in after ==> LeavesAlone(op, persist.scope)
    ensures
      var st := Run(Run(State(map[], map[]), ttl, before + [persist]), ttl, after);
      var memory := Recalled(st, ttl, persist.scope, at, refillAt).1;
      memory.source != Nowhere && SUMMARY in memory.slots && memory.slots[SUMMARY] == SummaryOf(persist.conclusion)
  {
    hide Act, Secured, EnsureMapping, Recalled, SummaryOf, Bounded;
    var ops := before + [persist];
    var summary := SummaryOf(persist.conclusion);
    assert ops[..|ops| - 1] == before;
    var prior := Run(State(map[], map[]), ttl, before);
    var concluded := Run(State(map[], map[]), ttl, ops);
    RunStaysBounded(ttl, start, before);
    PersistSecures(prior, ttl, persist.scope, persist.conclusion, persist.at, ClockAfter(start, before));
    ActOfPersist(prior, ttl, persist);
    SummaryIsPlain(persist.conclusion);
    RunKeepsSecured(concluded, ttl, after, persist.scope, summary);
    SecuredRead(Run(concluded, ttl, after), ttl, persist.scope, summary, at, refillAt);
  }

  lemma ActOfPersist(st: State, ttl: int, op: Op)
    requires op.Persist?
    ensures Act(st, ttl, op) == Persisted(st, ttl, op.scope, op.conclusion, op.at)
  {
  }

  // When a read returns a summary

  // With the decision archived, a read returns a summary slot exactly when the scope's summary is
  // still cached or nothing of the scope is.
  lemma {:induction false} SummaryReadExactly(st: State, ttl: int, scope: Scope, at: real, refillAt: real)
    requires scope.decisionId in st.archive
    ensures
      var key := SlotKey(scope, SUMMARY);
      SUMMARY in Recalled(st, ttl, scope, at, refillAt).1.slots
      <==> || (key in st.slots && !Expired(st.slots[key], at))
           || (forall k :: k in st.slots && k.scope == scope ==> Expired(st.slots[k], at))
  {
    hide EnsureMapping;
    var slots := Unexpired(st.slots, at);
    ScopedContent(slots, scope);
    if Scoped(slots, scope) == map[] {
      NothingScoped(slots, scope);
      assert forall k :: k in st.slots && k.scope == scope ==> k !in slots;
    } else {
      SomethingScoped(slots, scope);
    }
  }

  lemma SomethingScoped(slots: Slots, scope: Scope)
    requires Scoped(slots, scope) != map[]
    ensures exists k :: k in slots && k.scope == scope
  {
    assert Scoped(slots, scope).Keys != {};
    var slot :| slot in Scoped(slots, scope);
    ScopedContent(slots, scope);
    assert SlotKey(scope, slot) in slots;
  }

  // What a decision's scope saw since the conclusion: when its summary was last cached and when
  // its other slots were written.
  datatype Trace = Trace(summaryAt: real, writes: seq<real>)

  // Some other slot is still alive although the summary is not.
  predicate Hidden(tr: Trace, ttl: int, now: real) {
    tr.summaryAt + Lifetime(ttl) <= now && exists i :: 0 <= i < |tr.writes| && now < tr.writes[i] + Lifetime(ttl)
  }

  // Neither the summary nor any other slot is alive.
  predicate Vacant(tr: Trace, ttl: int, now: real) {
    tr.summaryAt + Lifetime(ttl) <= now && forall i :: 0 <= i < |tr.writes| ==> tr.writes[i] + Lifetime(ttl) <= now
  }

  function Noted(tr: Trace, ttl: int, scope: Scope, op: Op): Trace {
    if op.Write? && op.scope == scope then tr.(writes := tr.writes + [op.at])
    else if op.Read? && op.scope == scope && Vacant(tr, ttl, op.at) then tr.(summaryAt := op.refillAt)
    else tr
  }

  function TraceOf(ttl: int, scope: Scope, concludedAt: real, ops: seq<Op>): Trace {
    if ops == [] then Trace(concludedAt, [])
    else Noted(TraceOf(ttl, scope, concludedAt, ops[..|ops| - 1]), ttl, scope, ops[|ops| - 1])
  }

  // Any operation but an overwriting of the summary or another conclusion of the decision.
  predicate KeepsSummary(op: Op, scope: Scope) {
    && (op.Write? && op.scope == scope ==> op.slot != SUMMARY)
    && (op.Persist? ==> op.scope.decisionId != scope.decisionId)
  }

  // A slot of the scope besides the summary.
  predicate Beside(k: SlotKey, scope: Scope) {
    k.scope == scope && k.slot != SUMMARY
  }

  // The summary is archived, and cached as the trace says.
  predicate SummaryFollows(st: State, ttl: int, scope: Scope, summary: Value, tr: Trace, clock: real) {
    var key := SlotKey(scope, SUMMARY);
    && scope.decisionId in st.archive && st.archive[scope.decisionId].summary == summary
    && (key in st.slots ==> st.slots[key] == Stored(summary, tr.summaryAt + Lifetime(ttl)))
    && (clock < tr.summaryAt + Lifetime(ttl) ==> key in st.slots)
  }

  // Every other slot of the scope is gone when the summary or one of the writes is.
  predicate OthersBounded(slots: Slots, ttl: int, scope: Scope, tr: Trace) {
    forall k :: k in slots && Beside(k, scope) ==>
      || slots[k].expiresAt <= tr.summaryAt + Lifetime(ttl)
      || exists i :: 0 <= i < |tr.writes| && slots[k].expiresAt <= tr.writes[i] + Lifetime(ttl)
  }

  // Every write that is still alive left a slot that is.
  predicate WritesLast(slots: Slots, ttl: int, scope: Scope, tr: Trace, clock: real) {
    forall i :: 0 <= i < |tr.writes| ==>
      && tr.writes[i] <= clock
      && (clock < tr.writes[i] + Lifetime(ttl) ==>
            exists k :: k in slots && Beside(k, scope) && tr.writes[i] + Lifetime(ttl) <= slots[k].expiresAt)
  }

  predicate Follows(st: State, ttl: int, scope: Scope, summary: Value, tr: Trace, clock: real) {
    && SummaryFollows(st, ttl, scope, summary, tr, clock)
    && OthersBounded(st.slots, ttl, scope, tr)
    && WritesLast(st.slots, ttl, scope, tr, clock)
  }

  lemma PersistFollows(st: State, ttl: int, op: Op, clock: real)
    requires op.Persist? && Bounded(st.slots, ttl, clock) && clock <= op.at
    ensures Follows(Act(st, ttl, op), ttl, op.scope, SummaryOf(op.conclusion), Trace(op.at, []), op.at)
  {
    hide SummaryOf;
  }

  lemma ExpiryFollows(st: State, ttl: int, scope: Scope, summary: Value, tr: Trace, clock: real, now: real)
    requires Follows(st, ttl, scope, summary, tr, clock) && clock <= now
    ensures Follows(st.(slots := Unexpired(st.slots, now)), ttl, scope, summary, tr, now)
  {
    var left := Unexpired(st.slots, now);
    forall i | 0 <= i < |tr.writes| && now < tr.writes[i] + Lifetime(ttl)
      ensures exists k :: k in left && Beside(k, scope) && tr.writes[i] + Lifetime(ttl) <= left[k].expiresAt
    {
      var k :| k in st.slots && Beside(k, scope) && tr.writes[i] + Lifetime(ttl) <= st.slots[k].expiresAt;
      assert k in left;
    }
  }

  // After expiry nothing of the scope is cached exactly when the trace says so.
  lemma VacantExactly(st: State, ttl: int, scope: Scope, summary: Value, tr: Trace, now: real)
    requires Follows(st, ttl, scope, summary, tr, now) && forall k :: k in st.slots ==> now < st.slots[k].expiresAt
    ensures Scoped(st.slots, scope) == map[] <==> Vacant(tr, ttl, now)
    ensures SlotKey(scope, SUMMARY) in st.slots <==> now < tr.summaryAt + Lifetime(ttl)
  {
    hide Scoped;
    if Scoped(st.slots, scope) == map[] {
      NothingScoped(st.slots, scope);
    } else {
      SomethingScoped(st.slots, scope);
    }
  }

  lemma LaterFollows(st: State, ttl: int, scope: Scope, summary: Value, tr: Trace, clock: real, later: real)
    requires Follows(st, ttl, scope, summary, tr, clock) && clock <= later
    ensures Follows(st, ttl, scope, summary, tr, later)
  {
  }

  lemma OtherWriteFollows(st: State, ttl: int, scope: Scope, summary: Value, tr: Trace, clock: real,
                          key: SlotKey, stored: Stored)
    requires Follows(st, ttl, scope, summary, tr, clock) && key.scope != scope
    ensures Follows(st.(slots := st.slots[key := stored]), ttl, scope, summary, tr, clock)
  {
    var slots := st.slots[key := stored];
    forall i | 0 <= i < |tr.writes| && clock < tr.writes[i] + Lifetime(ttl)
      ensures exists k :: k in slots && Beside(k, scope) && tr.writes[i] + Lifetime(ttl) <= slots[k].expiresAt
    {
      var k :| k in st.slots && Beside(k, scope) && tr.writes[i] + Lifetime(ttl) <= st.slots[k].expiresAt;
      assert k in slots;
    }
  }

  lemma WriteFollows(st: State, ttl: int, scope: Scope, summary: Value, tr: Trace, slot: string, payload: Value,
                     at: real)
    requires Follows(st, ttl, scope, summary, tr, at) && slot != SUMMARY
    ensures Follows(st.(slots := Written(st.slots, SlotKey(scope, slot), payload, ttl, at)), ttl, scope, summary,
                    tr.(writes := tr.writes + [at]), at)
  {
    var key := SlotKey(scope, slot);
    var (slots, writes) := (Written(st.slots, key, payload, ttl, at), tr.writes + [at]);
    forall i | 0 <= i < |writes| && at < writes[i] + Lifetime(ttl)
      ensures exists k :: k in slots && Beside(k, scope) && writes[i] + Lifetime(ttl) <= slots[k].expiresAt
    {
      if i < |tr.writes| {
        var k :| k in st.slots && Beside(k, scope) && tr.writes[i] + Lifetime(ttl) <= st.slots[k].expiresAt;
        assert k in slots;
      } else {
        assert key in slots && Beside(key, scope);
      }
    }
    assert writes[|tr.writes|] == at;
    assert forall i :: 0 <= i < |tr.writes| ==> writes[i] == tr.writes[i];
  }

  lemma RefillFollows(st: State, ttl: int, scope: Scope, summary: Value, tr: Trace, at: real, refillAt: real)
    requires Follows(st, ttl, scope, summary, tr, at) && at <= refillAt
    requires Vacant(tr, ttl, at) && forall k :: k in st.slots ==> k.scope != scope
    ensures Follows(st.(slots := Written(st.slots, SlotKey(scope, SUMMARY), summary, ttl, refillAt)), ttl, scope,
                    summary, tr.(summaryAt := refillAt), refillAt)
  {
  }

  lemma ReadFollows(st: State, ttl: int, op: Op, scope: Scope, summary: Value, tr: Trace, clock: real)
    requires op.Read? && Follows(st, ttl, scope, summary, tr, clock) && clock <= op.at <= op.refillAt
    requires EnsureMapping(summary) == summary
    ensures Follows(Act(st, ttl, op), ttl, scope, summary, Noted(tr, ttl, scope, op), op.refillAt)
  {
    hide EnsureMapping, Follows, Scoped, Vacant;
    var left := st.(slots := Unexpired(st.slots, op.at));
    ExpiryFollows(st, ttl, scope, summary, tr, clock, op.at);
    LaterFollows(left, ttl, scope, summary, tr, op.at, op.refillAt);
    ArchivedSummary(left, ttl, scope, summary, tr, op.at);
    if op.scope == scope {
      VacantExactly(left, ttl, scope, summary, tr, op.at);
      if Scoped(left.slots, scope) == map[] {
        NothingScoped(left.slots, scope);
        RefillFollows(left, ttl, scope, summary, tr, op.at, op.refillAt);
      }
    } else if Scoped(left.slots, op.scope) == map[] && op.scope.decisionId in st.archive {
      var stored := Stored(EnsureMapping(st.archive[op.scope.decisionId].summary), op.refillAt + Lifetime(ttl));
      OtherWriteFollows(left, ttl, scope, summary, tr, op.refillAt, SlotKey(op.scope, SUMMARY), stored);
    }
  }

  lemma ArchivedSummary(st: State, ttl: int, scope: Scope, summary: Value, tr: Trace, clock: real)
    requires Follows(st, ttl, scope, summary, tr, clock)
    ensures scope.decisionId in st.archive && st.archive[scope.decisionId].summary == summary
  {
  }

  lemma ActFollows(st: State, ttl: int, op: Op, scope: Scope, summary: Value, tr: Trace, clock: real)
    requires Follows(st, ttl, scope, summary, tr, clock) && clock <= op.at <= EndOf(op)
    requires KeepsSummary(op, scope) && EnsureMapping(summary) == summary
    ensures Follows(Act(st, ttl, op), ttl, scope, summary, Noted(tr, ttl, scope, op), EndOf(op))
  {
    hide EnsureMapping, SummaryOf, Follows, Vacant, Recalled;
    match op
    case Read(_, _, _) =>
      ReadFollows(st, ttl, op, scope, summary, tr, clock);
    case Write(other, at, slot, payload) =>
      LaterFollows(st, ttl, scope, summary, tr, clock, at);
      if other == scope {
        WriteFollows(st, ttl, scope, summary, tr, slot, EnsureMapping(payload), at);
      } else {
        OtherWriteFollows(st, ttl, scope, summary, tr, at, SlotKey(other, slot),
                          Stored(EnsureMapping(payload), at + Lifetime(ttl)));
      }
    case Persist(other, at, conclusion) =>
      LaterFollows(st, ttl, scope, summary, tr, clock, at);
      OtherWriteFollows(st, ttl, scope, summary, tr, at, SlotKey(other, SUMMARY),
                        Stored(SummaryOf(conclusion), at + Lifetime(ttl)));
      OtherRecordFollows(st.(slots := Act(st, ttl, op).slots), ttl, scope, summary, tr, at, other.decisionId,
                         RecordOf(other, conclusion, at));
  }

  lemma OtherRecordFollows(st: State, ttl: int, scope: Scope, summary: Value, tr: Trace, clock: real,
                           id: string, record: DecisionRecord)
    requires Follows(st, ttl, scope, summary, tr, clock) && id != scope.decisionId
    ensures Follows(st.(archive := st.archive[id := record]), ttl, scope, summary, tr, clock)
  {
  }

  lemma {:induction false} RunFollows(ttl: int, start: real, before: seq<Op>, persist: Op, after: seq<Op>)
    requires Timely(start, before + [persist] + after) && persist.Persist?
    requires forall op :: op in after ==> KeepsSummary(op, persist.scope)
    ensures
      var ops := before + [persist] + after;
      Follows(Run(State(map[], map[]), ttl, ops), ttl, persist.scope, SummaryOf(persist.conclusion),
              TraceOf(ttl, persist.scope, persist.at, after), ClockAfter(start, ops))
    decreases |after|
  {
    hide Act, Follows, EnsureMapping, SummaryOf, Bounded, KeepsSummary, Noted;
    var ops := before + [persist] + after;
    var (rest, last) := (ops[..|ops| - 1], ops[|ops| - 1]);
    if after == [] {
      assert rest == before && last == persist;
      RunStaysBounded(ttl, start, before);
      PersistFollows(Run(State(map[], map[]), ttl, before), ttl, persist, ClockAfter(start, before));
    } else {
      assert rest == before + [persist] + after[..|after| - 1] && last == after[|after| - 1];
      RunFollows(ttl, start, before, persist, after[..|after| - 1]);
      assert last in after;
      SummaryIsPlain(persist.conclusion);
      ActFollows(Run(State(map[], map[]), ttl, rest), ttl, last, persist.scope, SummaryOf(persist.conclusion),
                 TraceOf(ttl, persist.scope, persist.at, after[..|after| - 1]), ClockAfter(start, rest));
    }
  }

  // In every run that starts empty: after a decision is concluded and whatever slots are then
  // written beside its summary, a later read misses the summary exactly when some such write is
  // still alive and the summary, counted from when it was last cached, is not. Otherwise the read
  // returns the persisted summary.
  lemma {:induction false} SummaryMissedExactly(ttl: int, start: real, before: seq<Op>, persist: Op, after: seq<Op>,
                                                at: real, refillAt: real)
    requires Timely(start, before + [persist] + after) && persist.Persist?
    requires forall op :: op in after ==> KeepsSummary(op, persist.scope)
    requires ClockAfter(start, before + [persist] + after) <= at
    ensures
      var st := Run(State(map[], map[]), ttl, before + [persist] + after);
      var memory := Recalled(st, ttl, persist.scope, at, refillAt).1;
      && memory.source != Nowhere
      && (SUMMARY !in memory.slots <==> Hidden(TraceOf(ttl, persist.scope, persist.at, after), ttl, at))
      && (SUMMARY in memory.slots ==> memory.slots[SUMMARY] == SummaryOf(persist.conclusion))
  {
    hide Run, Follows, EnsureMapping, SummaryOf, Recalled, TraceOf, Hidden;
    var ops := before + [persist] + after;
    RunFollows(ttl, start, before, persist, after);
    SummaryIsPlain(persist.conclusion);
    FollowedRead(Run(State(map[], map[]), ttl, ops), ttl, persist.scope, SummaryOf(persist.conclusion),
                 TraceOf(ttl, persist.scope, persist.at, after), ClockAfter(start, ops), at, refillAt);
  }

  lemma FollowedRead(st: State, ttl: int, scope: Scope, summary: Value, tr: Trace, clock: real, at: real,
                     refillAt: real)
    requires Follows(st, ttl, scope, summary, tr, clock) && clock <= at && EnsureMapping(summary) == summary
    ensures
      var memory := Recalled(st, ttl, scope, at, refillAt).1;
      && memory.source != Nowhere
      && (SUMMARY !in memory.slots <==> Hidden(tr, ttl, at))
      && (SUMMARY in memory.slots ==> memory.slots[SUMMARY] == summary)
  {
    hide EnsureMapping, Follows, Scoped;
    var left := st.(slots := Unexpired(st.slots, at));
    ExpiryFollows(st, ttl, scope, summary, tr, clock, at);
    ArchivedSummary(left, ttl, scope, summary, tr, at);
    VacantExactly(left, ttl, scope, summary, tr, at);
    ScopedContent(left.slots, scope);
    CachedSummary(left, ttl, scope, summary, tr, at);
  }

  lemma CachedSummary(st: State, ttl: int, scope: Scope, summary: Value, tr: Trace, clock: real)
    requires Follows(st, ttl, scope, summary, tr, clock)
    ensures SlotKey(scope, SUMMARY) in st.slots ==> st.slots[SlotKey(scope, SUMMARY)].payload == summary
  {
  }

  lemma TimelyOneMore(start: real, ops: seq<Op>, op: Op)
    requires Timely(start, ops) && ClockAfter(start, ops) <= op.at <= EndOf(op)
    ensures Timely(start, ops + [op])
  {
    assert (ops + [op])[..|ops|] == ops;
  }

  // It does happen: a slot written after the conclusion outlives the summary, and while it does a
  // read answers from the cache without any summary.
  lemma LaterSlotHidesSummary(scope: Scope, x: Conclusion, payload: Value)
    ensures
      var ops := [Persist(scope, 0.0, x), Write(scope, 5.0, "plan", payload)];
      SUMMARY !in Recalled(Run(State(map[], map[]), 10, ops), 10, scope, 12.0, 12.0).1.slots
  {
    hide EnsureMapping, SummaryOf, Run, Recalled;
    var (persist, write) := (Persist(scope, 0.0, x), Write(scope, 5.0, "plan", payload));
    var (ops, once, after) := ([persist, write], [persist], [write]);
    assert ops == [] + once + after && ops[..1] == once && once[..0] == [] && after[..0] == [];
    TimelyOneMore(0.0, [], persist);
    TimelyOneMore(0.0, once, write);
    assert TraceOf(10, scope, 0.0, after) == Trace(0.0, [5.0]);
    SummaryMissedExactly(10, 0.0, [], persist, after, 12.0, 12.0);
    assert Hidden(Trace(0.0, [5.0]), 10, 12.0) by {
      assert [5.0][0] == 5.0;
    }
  }
}
