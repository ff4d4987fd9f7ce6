/** Order states of `services/oms/state_machine.py`: the sequential machine, the priority join
    the reconciler uses instead of it, and their agreement on legal runs. */
module OrderStatus {
  import opened Basics

  datatype Status = New | Submitted | Opened | PartiallyFilled | Filled | Canceled | Rejected | Expired

  predicate Terminal(s: Status) {
    s.Filled? || s.Canceled? || s.Rejected? || s.Expired?
  }

  function AllowedTransitions(s: Status): set<Status> {
    match s
    case New => {Submitted, Rejected, Canceled, Expired}
    case Submitted => {Opened, PartiallyFilled, Filled, Canceled, Rejected, Expired}
    case Opened => {PartiallyFilled, Filled, Canceled, Expired}
    case PartiallyFilled => {Filled, Canceled, Expired}
    case Filled => {}
    case Canceled => {}
    case Rejected => {}
    case Expired => {}
  }

  function Priority(s: Status): nat {
    match s
    case New => 0
    case Submitted => 1
    case Opened => 2
    case PartiallyFilled => 3
    case Expired => 4
    case Rejected => 5
    case Canceled => 6
    case Filled => 7
  }

  datatype Transition = Transition(previous: Status, current: Status, changed: bool)

  // The machine's verdict on one requested state; None is the refusal of an illegal transition.
  function Move(state: Status, target: Status): Option<Transition> {
    if target == state then Some(Transition(state, state, false))
    else if target in AllowedTransitions(state) then Some(Transition(state, target, true))
    else None
  }

  class OmsStateMachine {
    var state: Status

    constructor (initial: Status)
      ensures state == initial
    {
      state := initial;
    }

    predicate CanTransition(target: Status)
      reads this
      ensures CanTransition(target) <==> Move(state, target).Some?
    {
      target == state || target in AllowedTransitions(state)
    }

    method Apply(target: Status) returns (transition: Option<Transition>)
      modifies this
      ensures transition == Move(old(state), target)
      ensures state == if transition.Some? then target else old(state)
    {
      var current := state;
      if target == current {
        return Some(Transition(current, current, false));
      }
      if target !in AllowedTransitions(current) {
        return None;
      }
      state := target;
      return Some(Transition(current, target, true));
    }
  }

  // The priority join

  // `best` dominates the statuses, is one of them or New, and is therefore unique.
  predicate IsJoin(best: Status, statuses: seq<Status>) {
    && (best.New? || best in statuses)
    && forall s :: s in statuses ==> Priority(s) <= Priority(best)
  }

  function Join(statuses: seq<Status>): (best: Status)
    ensures IsJoin(best, statuses)
  {
    if statuses == [] then New
    else
      var (rest, last) := (Join(statuses[..|statuses| - 1]), statuses[|statuses| - 1]);
      if Priority(last) > Priority(rest) then last else rest
  }

  lemma JoinIsUnique(best: Status, statuses: seq<Status>)
    requires IsJoin(best, statuses)
    ensures best == Join(statuses)
  {
    assert Priority(best) == Priority(Join(statuses));
  }

  method PickStatus(statuses: seq<Status>) returns (best: Status)
    ensures best == Join(statuses)
  {
    best := New;
    var bestRank := Priority(best);
    for i := 0 to |statuses|
      invariant bestRank == Priority(best)
      invariant best == Join(statuses[..i])
    {
      assert statuses[..i + 1][..i] == statuses[..i];
      var rank := Priority(statuses[i]);
      if rank > bestRank {
        best, bestRank := statuses[i], rank;
      }
    }
    assert statuses[..|statuses|] == statuses;
  }

  // Only the set of statuses matters.
  lemma JoinIgnoresDelivery(a: seq<Status>, b: seq<Status>)
    requires forall s :: s in a <==> s in b
    ensures Join(a) == Join(b)
  {
    JoinIsUnique(Join(a), b);
  }

  lemma JoinOfConcat(a: seq<Status>, b: seq<Status>)
    ensures Join(a + b) == Join([Join(a), Join(b)])
  {
    assert IsJoin(Join([Join(a), Join(b)]), a + b);
    JoinIsUnique(Join([Join(a), Join(b)]), a + b);
  }

  // Legal runs of the machine

  // Every request is accepted, starting in `from`.
  predicate Legal(from: Status, targets: seq<Status>)
    decreases |targets|
  {
    targets == [] || (Move(from, targets[0]).Some? && Legal(targets[0], targets[1..]))
  }

  function FinalState(from: Status, targets: seq<Status>): Status
    decreases |targets|
  {
    if targets == [] then from else FinalState(targets[0], targets[1..])
  }

  function Changes(from: Status, targets: seq<Status>): nat
    decreases |targets|
  {
    if targets == [] then 0 else (if targets[0] == from then 0 else 1) + Changes(targets[0], targets[1..])
  }

  // Distance travelled through the life of an order; all terminal states are at the end.
  function Stage(s: Status): nat {
    if Terminal(s) then 4 else Priority(s)
  }

  lemma {:induction false} LegalRunClimbs(from: Status, targets: seq<Status>)
    requires Legal(from, targets)
    ensures Stage(from) + Changes(from, targets) <= 4
    ensures Priority(from) <= Priority(FinalState(from, targets))
    ensures FinalState(from, targets) == from || FinalState(from, targets) in targets
    ensures forall s :: s in targets ==> Priority(s) <= Priority(FinalState(from, targets))
    decreases |targets|
  {
    if targets != [] {
      LegalRunClimbs(targets[0], targets[1..]);
    }
  }

  // On every legal run from New the machine changes state at most four times, and the
  // order-blind join of the requested states, delivered in any order, is the machine's final state.
  lemma JoinAgreesWithMachine(targets: seq<Status>, delivered: seq<Status>)
    requires Legal(New, targets)
    requires multiset(targets) == multiset(delivered)
    ensures Changes(New, targets) <= 4
    ensures Join(delivered) == FinalState(New, targets)
  {
    LegalRunClimbs(New, targets);
    assert forall s :: s in targets <==> s in multiset(targets);
    assert forall s :: s in delivered <==> s in multiset(delivered);
    JoinIsUnique(FinalState(New, targets), delivered);
  }
}
