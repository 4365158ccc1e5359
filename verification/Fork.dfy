/** The join protocol of `fork` (source/sio/sequence/fork.hpp): one source and a growing set of item
    operations share a reference counter, a completion type and one error slot.

    Actor 0 is the source; every later actor is one item passed to set_next.  Each atomic operation
    of the source file is one step and actors interleave freely. */
module ForkProtocol {
  import opened Wrappers

  // ----- State -------------------------------------------------------------------------------

  datatype Phase<E> =
    | Open                      // source: still producing items
    | MarkingStopped            // source: set_stopped(), the store of `stopped` is next
    | Trying(expected: int)     // item: increase_ref(), the next compare-exchange expects this
    | TurnedAway                // item: increase_ref() said no; request_stop is next
    | TurnedAwayLeaving         //       then its decrease_ref is next
    | Rejected                  //       then it is over
    | Admitted                  // item: evaluating the item, then allocating its operation
    | Running                   // item: its operation is allocated and under way
    | ItemStopped               // item: set_stopped(); request_stop is next
    | Deleting                  // item: async_delete of its operation is next
    | Raising(error: E)         // set_error(): the compare-exchange 0 -> 1 is next
    | Placing(error: E)         // won it; the slot is written next
    | Publishing                // the compare-exchange 1 -> 2 is next
    | Stopping                  // request_stop is next
    | Releasing                 // decrease_ref is next
    | Released

  datatype Boot = Fresh | Armed | Cleared | Live | Declined

  /** The receiver's own stop callback: not fired, between its two calls, or finished. */
  datatype Outside = Quiet | Flagged | Spent

  datatype Outcome<E> = Failed(error: E) | Stopped | Values

  datatype State<E> = State(
    boot: Boot,
    refs: int,                   // ref_counter_
    ctype: int,                  // completion_type_: 0 value, 1 being written, 2 error, 3 stopped
    slot: Option<E>,             // error_
    stopRequested: bool,         // is_stop_requested_ and stop_source_
    outside: Outside,
    actors: seq<Phase<E>>,
    delivering: nat,             // complete() calls under way
    delivered: seq<Outcome<E>>,  // downstream completions
    // history
    news: multiset<nat>,         // actors whose item operation was allocated
    frees: multiset<nat>,        // actors whose item operation was deallocated
    outsideDrops: nat,           // decrements by the stop callback that the counter still shows
    turnedAwayDrops: nat,        // decrements by items that had been turned away
    winner: Option<E>,           // the error whose first compare-exchange succeeded
    sourceStopped: bool)         // the source's set_stopped() stored its mark

  datatype Event<E> =
    | Arm | CheckStop | StoreOne
    | OutsideFlag | OutsideDrop
    | Arrive | TryIncrease(a: nat, spurious: bool)   // the weak compare-exchange may fail spuriously
    | Proceed(a: nat, to: Phase<E>)      // the child an actor waits for completes
    | NewOperation(a: nat) | DeleteOperation(a: nat)
    | MarkStopped(a: nat)
    | CompareExchange(a: nat) | Emplace(a: nat) | Publish(a: nat)
    | RequestStop(a: nat) | DecreaseRef(a: nat)
    | Deliver

  function Init<E>(): State<E>
  {
    State(Fresh, 0, 0, None, false, Quiet, [], 0, [], multiset{}, multiset{}, 0, 0, None, false)
  }

  // ----- Steps -------------------------------------------------------------------------------

  predicate At<E>(s: State<E>, a: nat)
  {
    s.boot == Live && a < |s.actors|
  }

  /** What the completion of a child leads to: set_value, set_error or set_stopped of the source,
      of the item being evaluated or allocated, and of the item operation. */
  predicate Follows<E>(p: Phase<E>, to: Phase<E>)
  {
    match p
    case Open => to.Releasing? || to.Raising? || to.MarkingStopped?
    case Admitted => to.Raising? || to.Stopping?
    case Running => to.Deleting? || to.ItemStopped?
    case _ => false
  }

  predicate Enabled<E>(s: State<E>, e: Event<E>)
  {
    match e
    case Arm => s.boot == Fresh
    case CheckStop => s.boot == Armed
    case StoreOne => s.boot == Cleared
    case OutsideFlag => s.outside == Quiet && s.boot != Fresh && s.boot != Declined
    case OutsideDrop => s.outside == Flagged
    case Arrive => At(s, 0) && s.actors[0].Open?
    case TryIncrease(a, _) => At(s, a) && s.actors[a].Trying?
    case Proceed(a, to) =>
      // a sequence completes only after its set_next senders have passed increase_ref
      At(s, a) && Follows(s.actors[a], to)
      && (s.actors[a].Open? ==> forall b | 0 <= b < |s.actors| :: !s.actors[b].Trying?)
    case NewOperation(a) => At(s, a) && s.actors[a].Admitted?
    case DeleteOperation(a) => At(s, a) && s.actors[a].Deleting?
    case MarkStopped(a) => At(s, a) && s.actors[a].MarkingStopped?
    case CompareExchange(a) => At(s, a) && s.actors[a].Raising?
    case Emplace(a) => At(s, a) && s.actors[a].Placing?
    case Publish(a) => At(s, a) && s.actors[a].Publishing?
    case RequestStop(a) => At(s, a) && (s.actors[a].TurnedAway? || s.actors[a].ItemStopped? || s.actors[a].Stopping?)
    case DecreaseRef(a) => At(s, a) && (s.actors[a].TurnedAwayLeaving? || s.actors[a].Releasing?)
    case Deliver => s.delivering > 0
  }

  function Goto<E>(s: State<E>, a: nat, p: Phase<E>): State<E>
    requires a < |s.actors|
  {
    s.(actors := s.actors[a := p])
  }

  /** increase_ref(): one turn of its compare-exchange loop. */
  function TryStep<E>(s: State<E>, a: nat, spurious: bool): State<E>
    requires At(s, a) && s.actors[a].Trying?
  {
    if s.refs == s.actors[a].expected && !spurious then Goto(s, a, Admitted).(refs := s.refs + 1)
    else if s.refs == 0 then Goto(s, a, TurnedAway)
    else Goto(s, a, Trying(s.refs))
  }

  /** decrease_ref(): completes when the counter was 1. */
  function Drop<E>(s: State<E>): State<E>
  {
    s.(refs := s.refs - 1, delivering := s.delivering + if s.refs == 1 then 1 else 0)
  }

  function AfterStop<E>(p: Phase<E>): Phase<E>
  {
    if p.TurnedAway? then TurnedAwayLeaving else if p.ItemStopped? then Deleting else Releasing
  }

  /** complete(): what is sent downstream for the completion type loaded. */
  function Delivery<E>(s: State<E>): seq<Outcome<E>>
  {
    if s.ctype == 3 then [Stopped]
    else if s.ctype == 2 then (if s.slot.Some? then [Failed(s.slot.value)] else [])
    else [Values]
  }

  function Step<E>(s: State<E>, e: Event<E>): State<E>
    requires Enabled(s, e)
  {
    match e
    case Arm => s.(boot := Armed)
    case CheckStop =>
      if s.stopRequested then s.(boot := Declined, delivered := s.delivered + [Stopped])
      else s.(boot := Cleared)
    case StoreOne => s.(boot := Live, refs := 1, actors := [Open])
    case OutsideFlag => s.(outside := Flagged, stopRequested := true)
    case OutsideDrop =>
      var s' := Drop(s).(outside := Spent);
      if s.boot == Live then s'.(outsideDrops := s.outsideDrops + 1) else s'
    case Arrive => s.(actors := s.actors + [Trying(1)])
    case TryIncrease(a, spurious) => TryStep(s, a, spurious)
    case NewOperation(a) =>
      // item_operation::start deletes at once when a stop was requested
      Goto(s, a, if s.stopRequested then Deleting else Running).(news := s.news + multiset{a})
    case Proceed(a, to) => Goto(s, a, to)
    case DeleteOperation(a) => Goto(s, a, Releasing).(frees := s.frees + multiset{a})
    case MarkStopped(a) => Goto(s, a, Stopping).(ctype := 3, sourceStopped := true)
    case CompareExchange(a) =>
      if s.ctype == 0
      then Goto(s, a, Placing(s.actors[a].error)).(ctype := 1, winner := Some(s.actors[a].error))
      else Goto(s, a, Stopping)
    case Emplace(a) => Goto(s, a, Publishing).(slot := Some(s.actors[a].error))
    case Publish(a) => Goto(s, a, Stopping).(ctype := if s.ctype == 1 then 2 else s.ctype)
    case RequestStop(a) => Goto(s, a, AfterStop(s.actors[a])).(stopRequested := true)
    case DecreaseRef(a) =>
      if s.actors[a].Releasing? then Drop(Goto(s, a, Released))
      else Drop(Goto(s, a, Rejected)).(turnedAwayDrops := s.turnedAwayDrops + 1)
    case Deliver => s.(delivering := s.delivering - 1, delivered := s.delivered + Delivery(s))
  }

  // ----- Invariant ---------------------------------------------------------------------------

  /** Phases that stand for one count in ref_counter_. */
  predicate Counted<E>(p: Phase<E>)
  {
    match p
    case Open | MarkingStopped | Admitted | Running | ItemStopped | Deleting
       | Raising(_) | Placing(_) | Publishing | Stopping | Releasing => true
    case _ => false
  }

  function Holders<E>(ps: seq<Phase<E>>): nat
  {
    if ps == [] then 0 else (if Counted(ps[0]) then 1 else 0) + Holders(ps[1..])
  }

  predicate Writing<E>(p: Phase<E>)
  {
    p.Placing? || p.Publishing?
  }

  function Writers<E>(ps: seq<Phase<E>>): nat
  {
    if ps == [] then 0 else (if Writing(ps[0]) then 1 else 0) + Writers(ps[1..])
  }

  function Completions<E>(s: State<E>): nat
  {
    s.delivering + |s.delivered|
  }

  /** The reference counter in every run. */
  ghost predicate Counter<E>(s: State<E>)
  {
    && (s.boot == Live <==> s.actors != [])
    && (s.boot == Live ==> s.refs == Holders(s.actors) - s.outsideDrops - s.turnedAwayDrops)
    && (s.boot != Live ==> s.refs == (if s.outside == Spent then -1 else 0) && s.outsideDrops == s.turnedAwayDrops == 0)
    && s.outsideDrops <= (if s.outside == Spent then 1 else 0)
    && (s.outside != Quiet ==> s.stopRequested)
    && (s.boot != Live ==> s.delivering == 0)
  }

  /** One completion, made when the counter reaches 0; from then on the counter is never positive. */
  ghost predicate OneCompletion<E>(s: State<E>)
  {
    && Completions(s) <= 1
    && (s.boot == Live ==> (Completions(s) == 0 <==> s.refs > 0))
    && (s.boot == Declined <==> s.boot != Live && Completions(s) == 1)
    && (s.turnedAwayDrops > 0 ==> Completions(s) == 1)
    && (forall a | 0 <= a < |s.actors| && Refused(s.actors[a]) :: Completions(s) == 1)
  }

  /** The slot is written by one actor; a stopped source overrides every error. */
  ghost predicate Slot<E>(s: State<E>)
  {
    && 0 <= s.ctype <= 3
    && (s.sourceStopped <==> s.ctype == 3)
    && (s.ctype == 0 ==> s.winner == None)
    && (s.ctype == 1 || s.ctype == 2 ==> s.winner.Some?)
    && Writers(s.actors) <= 1
    && (s.ctype == 1 ==> Writers(s.actors) == 1)
    && (s.ctype == 0 || s.ctype == 2 ==> Writers(s.actors) == 0)
    && (s.ctype == 2 ==> s.slot == s.winner)
    && (forall a | 0 <= a < |s.actors| && s.actors[a].Placing? :: s.winner == Some(s.actors[a].error))
    && (forall a | 0 <= a < |s.actors| && s.actors[a].Publishing? :: s.slot == s.winner)
  }

  predicate Allocated<E>(p: Phase<E>)
  {
    p.Running? || p.ItemStopped? || p.Deleting?
  }

  predicate MayHaveBeenAllocated<E>(p: Phase<E>)
  {
    Allocated(p) || p.Releasing? || p.Released?
  }

  /** Every item operation allocated is live or was deallocated, once. */
  ghost predicate Operations<E>(s: State<E>)
  {
    forall a: nat :: OperationOf(s, a)
  }

  ghost predicate OperationOf<E>(s: State<E>, a: nat)
  {
    && s.frees[a] <= s.news[a] <= 1
    && (s.news[a] == 1 ==> a < |s.actors| && MayHaveBeenAllocated(s.actors[a]))
    && (a < |s.actors| ==> s.news[a] - s.frees[a] == if Allocated(s.actors[a]) then 1 else 0)
  }

  predicate Refused<E>(p: Phase<E>)
  {
    p.TurnedAway? || p.TurnedAwayLeaving? || p.Rejected?
  }

  /** Items still deciding find the source open, and never expect a counter of 0. While the stop
      callback has not decremented the counter, no item is turned away. */
  ghost predicate Admission<E>(s: State<E>)
  {
    && (s.outsideDrops == 0 ==> s.turnedAwayDrops == 0)
    && (forall a | 0 <= a < |s.actors| && s.actors[a].Trying? :: s.actors[0].Open? && s.actors[a].expected != 0)
    && (forall a | 0 <= a < |s.actors| && Refused(s.actors[a]) :: s.outsideDrops > 0)
  }

  /** What a joined operation owes its receiver. */
  function Expected<E>(s: State<E>): Outcome<E>
  {
    if s.sourceStopped then Stopped else if s.winner.Some? then Failed(s.winner.value) else Values
  }

  ghost predicate RightOutcome<E>(s: State<E>)
  {
    s.boot == Live && s.outsideDrops == 0 && s.delivered != [] ==> s.delivered[0] == Expected(s)
  }

  ghost predicate Inv<E>(s: State<E>)
  {
    Counter(s) && OneCompletion(s) && Slot(s) && Operations(s) && Admission(s) && RightOutcome(s)
  }

  // ----- Counting lemmas ---------------------------------------------------------------------

  lemma {:induction false} CountsSet<E>(ps: seq<Phase<E>>, a: nat, p: Phase<E>)
    requires a < |ps|
    ensures Holders(ps[a := p]) + (if Counted(ps[a]) then 1 else 0) == Holders(ps) + (if Counted(p) then 1 else 0)
    ensures Writers(ps[a := p]) + (if Writing(ps[a]) then 1 else 0) == Writers(ps) + (if Writing(p) then 1 else 0)
  {
    if a == 0 {
      assert ps[a := p][1..] == ps[1..];
    } else {
      CountsSet(ps[1..], a - 1, p);
      assert ps[a := p][1..] == ps[1..][a - 1 := p];
    }
  }

  lemma {:induction false} CountsAppend<E>(ps: seq<Phase<E>>, p: Phase<E>)
    ensures Holders(ps + [p]) == Holders(ps) + (if Counted(p) then 1 else 0)
    ensures Writers(ps + [p]) == Writers(ps) + (if Writing(p) then 1 else 0)
  {
    if ps != [] {
      CountsAppend(ps[1..], p);
      assert (ps + [p])[1..] == ps[1..] + [p];
    }
  }

  lemma {:induction false} CountsBound<E>(ps: seq<Phase<E>>)
    ensures Writers(ps) <= Holders(ps) <= |ps|
    ensures Holders(ps) == 0 <==> forall a | 0 <= a < |ps| :: !Counted(ps[a])
    ensures Writers(ps) == 0 ==> forall a | 0 <= a < |ps| :: !Writing(ps[a])
  {
    if ps != [] {
      CountsBound(ps[1..]);
      assert forall a | 0 < a < |ps| :: ps[a] == ps[1..][a - 1];
      assert forall a | 0 <= a < |ps[1..]| :: ps[1..][a] == ps[a + 1];
    }
  }

  lemma OneWriter<E>(ps: seq<Phase<E>>, a: nat, b: nat)
    requires a < |ps| && b < |ps| && a != b && Writing(ps[a]) && Writers(ps) <= 1
    ensures !Writing(ps[b])
  {
    CountsSet(ps, a, Released);
    CountsBound(ps[a := Released]);
    assert ps[a := Released][b] == ps[b];
  }

  // ----- Every step keeps the invariant ------------------------------------------------------

  /** Steps that move one actor; the others belong to start(), the stop callback and complete(). */
  predicate MovesActor<E>(e: Event<E>)
  {
    match e
    case Arm | CheckStop | StoreOne | OutsideFlag | OutsideDrop | Arrive | Deliver => false
    case _ => true
  }

  /** The counts after a step, in terms of the one actor that moved. */
  lemma StepCounts<E>(s: State<E>, e: Event<E>)
    requires Enabled(s, e) && MovesActor(e)
    ensures e.a < |s.actors| && s.boot == Live
    ensures Step(s, e).actors == s.actors[e.a := Step(s, e).actors[e.a]]
    ensures Holders(Step(s, e).actors) + (if Counted(s.actors[e.a]) then 1 else 0)
         == Holders(s.actors) + (if Counted(Step(s, e).actors[e.a]) then 1 else 0)
    ensures Writers(Step(s, e).actors) + (if Writing(s.actors[e.a]) then 1 else 0)
         == Writers(s.actors) + (if Writing(Step(s, e).actors[e.a]) then 1 else 0)
  {
    CountsSet(s.actors, e.a, Step(s, e).actors[e.a]);
  }

  predicate MovesCounter<E>(e: Event<E>)
  {
    e.TryIncrease? || e.DecreaseRef?
  }

  predicate MovesSlot<E>(e: Event<E>)
  {
    e.MarkStopped? || e.CompareExchange? || e.Emplace? || e.Publish?
  }

  /** t is s with one actor in another phase, as far as the counter and completions go. */
  ghost predicate SameCounting<E>(s: State<E>, t: State<E>, a: nat)
  {
    && a < |s.actors| && |t.actors| == |s.actors| && t.actors == s.actors[a := t.actors[a]]
    && t.boot == s.boot && t.refs == s.refs && t.outside == s.outside && t.outsideDrops == s.outsideDrops
    && t.turnedAwayDrops == s.turnedAwayDrops && t.delivering == s.delivering && t.delivered == s.delivered
    && (s.stopRequested ==> t.stopRequested)
    && Counted(t.actors[a]) == Counted(s.actors[a]) && (Refused(t.actors[a]) ==> Refused(s.actors[a]))
    && !t.actors[a].Trying? && (s.actors[a].Open? ==> forall b | 0 <= b < |s.actors| :: !s.actors[b].Trying?)
  }

  lemma CountingKept<E>(s: State<E>, t: State<E>, a: nat)
    requires Counter(s) && OneCompletion(s) && Admission(s) && SameCounting(s, t, a)
    ensures Counter(t) && OneCompletion(t) && Admission(t)
  {
    CountsSet(s.actors, a, t.actors[a]);
    assert forall b | 0 <= b < |s.actors| && b != a :: t.actors[b] == s.actors[b];
  }

  /** t is s with one actor, not a writer, in another phase, as far as the error slot goes. */
  ghost predicate SameSlot<E>(s: State<E>, t: State<E>, a: nat)
  {
    && a < |s.actors| && |t.actors| == |s.actors| && t.actors == s.actors[a := t.actors[a]]
    && t.ctype == s.ctype && t.slot == s.slot && t.winner == s.winner && t.sourceStopped == s.sourceStopped
    && !Writing(s.actors[a]) && !Writing(t.actors[a])
  }

  lemma SlotKept<E>(s: State<E>, t: State<E>, a: nat)
    requires Slot(s) && SameSlot(s, t, a)
    ensures Slot(t)
  {
    CountsSet(s.actors, a, t.actors[a]);
    assert forall b | 0 <= b < |s.actors| && b != a :: t.actors[b] == s.actors[b];
  }

  lemma SlotStepIsSameCounting<E>(s: State<E>, e: Event<E>)
    requires Enabled(s, e) && MovesSlot(e)
    ensures SameCounting(s, Step(s, e), e.a)
  {}

  lemma ControlStepIsSameCounting<E>(s: State<E>, e: Event<E>)
    requires Enabled(s, e) && MovesActor(e) && !MovesCounter(e) && !MovesSlot(e)
    ensures SameCounting(s, Step(s, e), e.a)
  {}

  lemma ControlStepIsSameSlot<E>(s: State<E>, e: Event<E>)
    requires Enabled(s, e) && MovesActor(e) && !MovesCounter(e) && !MovesSlot(e)
    ensures SameSlot(s, Step(s, e), e.a)
  {}

  lemma CounterStepIsSameSlot<E>(s: State<E>, e: Event<E>)
    requires Enabled(s, e) && MovesCounter(e)
    ensures SameSlot(s, Step(s, e), e.a)
  {}

  lemma SlotMovesKeepSlot<E>(s: State<E>, e: Event<E>)
    requires Slot(s) && Enabled(s, e) && MovesSlot(e)
    ensures Slot(Step(s, e))
  {
    StepCounts(s, e);
    CountsBound(s.actors);
    forall b | 0 <= b < |s.actors| && b != e.a && Writing(s.actors[b]) ensures !Writing(s.actors[e.a]) {
      OneWriter(s.actors, b, e.a);
    }
  }

  /** increase_ref() succeeds: one more count, and one more holder. */
  lemma AdmitKeepsCounting<E>(s: State<E>, t: State<E>, a: nat)
    requires Counter(s) && OneCompletion(s) && Admission(s)
    requires a < |s.actors| && s.actors[a].Trying? && s.refs != 0
    requires t == Goto(s, a, Admitted).(refs := s.refs + 1)
    ensures Counter(t) && OneCompletion(t) && Admission(t)
  {
    CountsSet(s.actors, a, Admitted);
    assert forall b | 0 <= b < |s.actors| && b != a :: t.actors[b] == s.actors[b];
  }

  /** increase_ref() finds 0: the operation has completed, which needs the stop callback. */
  lemma RefuseKeepsCounting<E>(s: State<E>, t: State<E>, a: nat)
    requires Counter(s) && OneCompletion(s) && Admission(s)
    requires a < |s.actors| && s.actors[a].Trying? && s.refs == 0
    requires t == Goto(s, a, TurnedAway)
    ensures Counter(t) && OneCompletion(t) && Admission(t)
  {
    CountsSet(s.actors, a, TurnedAway);
    CountsBound(s.actors);
    assert forall b | 0 <= b < |s.actors| && b != a :: t.actors[b] == s.actors[b];
  }

  /** increase_ref() goes round again with the value it saw. */
  lemma RetryKeepsCounting<E>(s: State<E>, t: State<E>, a: nat)
    requires Counter(s) && OneCompletion(s) && Admission(s)
    requires a < |s.actors| && s.actors[a].Trying? && s.refs != 0
    requires t == Goto(s, a, Trying(s.refs))
    ensures Counter(t) && OneCompletion(t) && Admission(t)
  {
    CountsSet(s.actors, a, Trying(s.refs));
    assert forall b | 0 <= b < |s.actors| && b != a :: t.actors[b] == s.actors[b];
  }

  lemma TryKeepsCounting<E>(s: State<E>, a: nat, spurious: bool)
    requires Counter(s) && OneCompletion(s) && Admission(s) && Enabled(s, TryIncrease(a, spurious))
    ensures var t := TryStep(s, a, spurious); Counter(t) && OneCompletion(t) && Admission(t)
  {
    var t := TryStep(s, a, spurious);
    if s.refs == s.actors[a].expected && !spurious { AdmitKeepsCounting(s, t, a); }
    else if s.refs == 0 { RefuseKeepsCounting(s, t, a); }
    else { RetryKeepsCounting(s, t, a); }
  }

  lemma ReleaseKeepsCounting<E>(s: State<E>, a: nat)
    requires Counter(s) && OneCompletion(s) && Admission(s) && At(s, a) && s.actors[a].Releasing?
    ensures var t := Drop(Goto(s, a, Released)); Counter(t) && OneCompletion(t) && Admission(t)
  {
    var t := Drop(Goto(s, a, Released));
    CountsSet(s.actors, a, Released);
    assert forall b | 0 <= b < |s.actors| && b != a :: t.actors[b] == s.actors[b];
  }

  lemma LeaveKeepsCounting<E>(s: State<E>, a: nat)
    requires Counter(s) && OneCompletion(s) && Admission(s) && At(s, a) && s.actors[a].TurnedAwayLeaving?
    ensures var t := Drop(Goto(s, a, Rejected)).(turnedAwayDrops := s.turnedAwayDrops + 1);
            Counter(t) && OneCompletion(t) && Admission(t)
  {
    var t := Drop(Goto(s, a, Rejected)).(turnedAwayDrops := s.turnedAwayDrops + 1);
    CountsSet(s.actors, a, Rejected);
    assert forall b | 0 <= b < |s.actors| && b != a :: t.actors[b] == s.actors[b];
  }

  /** Steps of start(), of the stop callback and of complete(). */
  lemma OtherStepsKeepCounting<E>(s: State<E>, e: Event<E>)
    requires Counter(s) && OneCompletion(s) && Admission(s) && Enabled(s, e) && !MovesActor(e) && !e.Arrive?
    requires s.ctype == 2 ==> s.slot.Some?
    ensures var t := Step(s, e); Counter(t) && OneCompletion(t) && Admission(t)
  {
    CountsBound<E>([Open]);
  }

  lemma ArriveKeepsCounting<E>(s: State<E>)
    requires Counter(s) && OneCompletion(s) && Admission(s) && Enabled(s, Arrive)
    ensures var t := Step(s, Arrive); Counter(t) && OneCompletion(t) && Admission(t)
  {
    CountsAppend(s.actors, Trying(1));
  }

  lemma OtherStepsKeepSlot<E>(s: State<E>, e: Event<E>)
    requires Slot(s) && (s.boot == Live <==> s.actors != []) && Enabled(s, e) && !MovesActor(e)
    ensures Slot(Step(s, e))
  {
    CountsAppend(s.actors, Trying(1));
    CountsBound<E>([Open]);
  }

  /** t is s with no operation allocated or deallocated. */
  ghost predicate SameOperations<E>(s: State<E>, t: State<E>)
  {
    && t.news == s.news && t.frees == s.frees && |s.actors| <= |t.actors|
    && (forall a | 0 <= a < |s.actors| :: Allocated(t.actors[a]) == Allocated(s.actors[a]))
    && (forall a | 0 <= a < |s.actors| && MayHaveBeenAllocated(s.actors[a]) :: MayHaveBeenAllocated(t.actors[a]))
    && (forall a | |s.actors| <= a < |t.actors| :: !Allocated(t.actors[a]))
  }

  lemma MoveIsSameOperations<E>(s: State<E>, e: Event<E>)
    requires Enabled(s, e) && MovesActor(e) && !e.NewOperation? && !e.DeleteOperation?
    ensures SameOperations(s, Step(s, e))
  {
    var t := Step(s, e);
    assert Allocated(t.actors[e.a]) == Allocated(s.actors[e.a]);
    assert MayHaveBeenAllocated(s.actors[e.a]) ==> MayHaveBeenAllocated(t.actors[e.a]);
    assert forall a | 0 <= a < |s.actors| && a != e.a :: t.actors[a] == s.actors[a];
  }

  lemma OtherStepIsSameOperations<E>(s: State<E>, e: Event<E>)
    requires Enabled(s, e) && !MovesActor(e) && (s.boot == Live <==> s.actors != [])
    ensures SameOperations(s, Step(s, e))
  {}

  lemma StepKeepsOperations<E>(s: State<E>, e: Event<E>)
    requires Operations(s) && Enabled(s, e) && (s.boot == Live <==> s.actors != [])
    ensures Operations(Step(s, e))
  {
    if !MovesActor(e) { OtherStepIsSameOperations(s, e); }
    else if !e.NewOperation? && !e.DeleteOperation? { MoveIsSameOperations(s, e); }
    forall a: nat ensures OperationOf(Step(s, e), a) { assert OperationOf(s, a); }
  }

  lemma StepKeepsOutcome<E>(s: State<E>, e: Event<E>)
    requires Inv(s) && Enabled(s, e)
    ensures RightOutcome(Step(s, e))
  {
    CountsBound(s.actors);
  }

  ghost predicate Protocol<E>(s: State<E>)
  {
    Counter(s) && OneCompletion(s) && Slot(s) && Admission(s)
  }

  lemma OtherStepKeepsProtocol<E>(s: State<E>, e: Event<E>)
    requires Protocol(s) && Enabled(s, e) && !MovesActor(e)
    ensures Protocol(Step(s, e))
  {
    if e.Arrive? { ArriveKeepsCounting(s); } else { OtherStepsKeepCounting(s, e); }
    OtherStepsKeepSlot(s, e);
  }

  lemma SlotStepKeepsProtocol<E>(s: State<E>, e: Event<E>)
    requires Protocol(s) && Enabled(s, e) && MovesSlot(e)
    ensures Protocol(Step(s, e))
  {
    var t, a := Step(s, e), e.a;
    SlotMovesKeepSlot(s, e);
    SlotStepIsSameCounting(s, e);
    CountingKept(s, t, a);
  }

  lemma CounterStepKeepsProtocol<E>(s: State<E>, e: Event<E>)
    requires Protocol(s) && Enabled(s, e) && MovesCounter(e)
    ensures Protocol(Step(s, e))
  {
    var t, a := Step(s, e), e.a;
    CounterStepIsSameSlot(s, e);
    SlotKept(s, t, a);
    if e.TryIncrease? { TryKeepsCounting(s, a, e.spurious); }
    else if s.actors[a].Releasing? { ReleaseKeepsCounting(s, a); }
    else { LeaveKeepsCounting(s, a); }
  }

  lemma ControlStepKeepsProtocol<E>(s: State<E>, e: Event<E>)
    requires Protocol(s) && Enabled(s, e) && MovesActor(e) && !MovesCounter(e) && !MovesSlot(e)
    ensures Protocol(Step(s, e))
  {
    var t, a := Step(s, e), e.a;
    ControlStepIsSameSlot(s, e);
    SlotKept(s, t, a);
    ControlStepIsSameCounting(s, e);
    CountingKept(s, t, a);
  }

  lemma StepKeepsProtocol<E>(s: State<E>, e: Event<E>)
    requires Protocol(s) && Enabled(s, e)
    ensures Protocol(Step(s, e))
  {
    if !MovesActor(e) { OtherStepKeepsProtocol(s, e); }
    else if MovesSlot(e) { SlotStepKeepsProtocol(s, e); }
    else if MovesCounter(e) { CounterStepKeepsProtocol(s, e); }
    else { ControlStepKeepsProtocol(s, e); }
  }

  lemma StepKeepsInv<E>(s: State<E>, e: Event<E>)
    requires Inv(s) && Enabled(s, e)
    ensures Inv(Step(s, e))
  {
    StepKeepsProtocol(s, e);
    StepKeepsOperations(s, e);
    StepKeepsOutcome(s, e);
  }

  // ----- Runs --------------------------------------------------------------------------------

  ghost predicate Run<E>(s: State<E>, es: seq<Event<E>>, t: State<E>)
    decreases |es|
  {
    if es == [] then s == t else Enabled(s, es[0]) && Run(Step(s, es[0]), es[1..], t)
  }

  lemma InitInv<E>()
    ensures Inv<E>(Init())
  {}

  lemma {:induction false} RunKeepsInv<E>(s: State<E>, es: seq<Event<E>>, t: State<E>)
    requires Inv(s) && Run(s, es, t)
    ensures Inv(t)
    decreases |es|
  {
    if es != [] {
      StepKeepsInv(s, es[0]);
      RunKeepsInv(Step(s, es[0]), es[1..], t);
    }
  }

  // ----- Completion, with or without an outside stop -----------------------------------------

  /** At most one downstream completion, in every run. */
  lemma CompletesAtMostOnce<E>(es: seq<Event<E>>, t: State<E>)
    requires Run(Init(), es, t)
    ensures |t.delivered| + t.delivering <= 1
    ensures t.boot == Live && t.refs <= 0 <==> t.boot == Live && |t.delivered| + t.delivering == 1
  {
    InitInv<E>();
    RunKeepsInv(Init(), es, t);
  }

  lemma StepStaysSpent<E>(s: State<E>, e: Event<E>)
    requires Enabled(s, e) && s.boot == Live && s.refs <= 0
    requires e.TryIncrease? ==> s.actors[e.a].expected != 0
    ensures Step(s, e).boot == Live && Step(s, e).refs <= 0
  {}

  /** Once the counter has reached 0 it is never positive again: from 0 no increase succeeds, and
      below 0 an increase can reach at most 0. */
  lemma {:induction false} CounterNeverRecovers<E>(s: State<E>, es: seq<Event<E>>, t: State<E>)
    requires Inv(s) && Run(s, es, t) && s.boot == Live && s.refs <= 0
    ensures t.boot == Live && t.refs <= 0
    decreases |es|
  {
    if es != [] {
      StepStaysSpent(s, es[0]);
      StepKeepsInv(s, es[0]);
      CounterNeverRecovers(Step(s, es[0]), es[1..], t);
    }
  }

  /** In the run, the stop callback takes a count while the operation is live. */
  ghost predicate DropsLive<E>(s: State<E>, es: seq<Event<E>>)
    decreases |es|
  {
    es != [] && Enabled(s, es[0])
    && ((es[0].OutsideDrop? && s.boot == Live) || DropsLive(Step(s, es[0]), es[1..]))
  }

  lemma {:induction false} RunDrops<E>(s: State<E>, es: seq<Event<E>>, t: State<E>)
    requires Run(s, es, t)
    ensures t.outsideDrops > 0 <==> s.outsideDrops > 0 || DropsLive(s, es)
    decreases |es|
  {
    if es != [] { RunDrops(Step(s, es[0]), es[1..], t); }
  }

  lemma CompletingStep<E>(s: State<E>, e: Event<E>)
    requires Protocol(s) && Enabled(s, e) && s.boot == Live
    requires Completions(s) == 0 && Completions(Step(s, e)) == 1
    ensures Holders(Step(s, e).actors) == Step(s, e).outsideDrops <= 1
    ensures Step(s, e).outsideDrops > 0 <==> s.outsideDrops > 0 || e.OutsideDrop?
  {
    StepKeepsProtocol(s, e);
    assert e.DecreaseRef? || e.OutsideDrop?;
  }

  /** The step of a run that completes a live operation leaves at most one count outstanding, and none,
      which makes it a join, if and only if the stop callback took none while the operation was live. */
  lemma CompletionIsJoinIff<E>(es: seq<Event<E>>, s: State<E>, e: Event<E>)
    requires Run(Init(), es, s) && Enabled(s, e) && s.boot == Live
    requires Completions(s) == 0 && Completions(Step(s, e)) == 1
    ensures Holders(Step(s, e).actors) <= 1
    ensures (forall a | 0 <= a < |Step(s, e).actors| :: !Counted(Step(s, e).actors[a]))
       <==> !DropsLive(Init(), es) && !e.OutsideDrop?
  {
    InitInv<E>();
    RunKeepsInv(Init(), es, s);
    RunDrops(Init(), es, s);
    CompletingStep(s, e);
    var actors := Step(s, e).actors;
    CountsBound(actors);
  }

  lemma RunStep<E>(s: State<E>, e: Event<E>, es: seq<Event<E>>, t: State<E>)
    requires Enabled(s, e) && Run(Step(s, e), es, t)
    ensures Run(s, [e] + es, t)
  {
    assert ([e] + es)[1..] == es;
  }

  function Started<E>(): State<E>
  {
    Init<E>().(boot := Live, refs := 1, actors := [Open])
  }

  lemma StartRun<E>(es: seq<Event<E>>, t: State<E>)
    requires Run(Started(), es, t)
    ensures Run(Init(), [Arm] + ([CheckStop] + ([StoreOne] + es)), t)
  {
    var s1 := Init<E>().(boot := Armed);
    var s2 := Init<E>().(boot := Cleared);
    RunStep(s2, StoreOne, es, t);
    RunStep(s1, CheckStop, [StoreOne] + es, t);
    RunStep(Init(), Arm, [CheckStop] + ([StoreOne] + es), t);
  }

  /** The receiver's stop callback, and then complete(), right after start(). */
  lemma StopRun<E>() returns (es: seq<Event<E>>, t: State<E>)
    ensures Run(Started(), es, t) && t.delivered != [] && t.actors == [Open]
  {
    var s1 := Step(Started<E>(), OutsideFlag);
    var s2 := Step(s1, OutsideDrop);
    assert s2.delivering == 1 && s2.ctype == 0;
    t := Step(s2, Deliver);
    RunStep(s2, Deliver, [], t);
    es := [Deliver] + [];
    RunStep(s1, OutsideDrop, es, t);
    es := [OutsideDrop] + es;
    RunStep(Started(), OutsideFlag, es, t);
    es := [OutsideFlag] + es;
  }

  /** An outside stop can complete the operation while the source is still open. */
  lemma OutsideStopCompletesEarly<E>() returns (es: seq<Event<E>>, t: State<E>)
    ensures Run(Init(), es, t) && t.delivered != [] && t.actors == [Open]
  {
    es, t := StopRun<E>();
    StartRun(es, t);
    es := [Arm] + ([CheckStop] + ([StoreOne] + es));
  }

  /** It can also complete while the error slot is half written, and then the error is lost: the source
      has won the first compare-exchange when the stop callback drops the counter to 0. */
  lemma OutsideStopFindsHalfWritten() returns (es: seq<Event<int>>, t: State<int>)
    ensures Run(Init(), es, t) && t.delivering == 1 && t.ctype == 1 && Delivery(t) == [Values]
  {
    var s0 := Started<int>();
    var s1 := Step(s0, Proceed(0, Raising(7)));
    var s2 := Step(s1, CompareExchange(0));
    var s3 := Step(s2, OutsideFlag);
    t := Step(s3, OutsideDrop);
    RunStep(s3, OutsideDrop, [], t);
    es := [OutsideDrop] + [];
    RunStep(s2, OutsideFlag, es, t);
    es := [OutsideFlag] + es;
    RunStep(s1, CompareExchange(0), es, t);
    es := [CompareExchange(0)] + es;
    RunStep(s0, Proceed(0, Raising(7)), es, t);
    es := [Proceed(0, Raising(7))] + es;
    StartRun(es, t);
    es := [Arm] + ([CheckStop] + ([StoreOne] + es));
  }

  // ----- Without an outside stop -------------------------------------------------------------

  predicate NoOutsideStop<E>(es: seq<Event<E>>)
  {
    forall i | 0 <= i < |es| :: !es[i].OutsideFlag?
  }

  lemma {:induction false} StaysQuiet<E>(s: State<E>, es: seq<Event<E>>, t: State<E>)
    requires Run(s, es, t) && NoOutsideStop(es) && s.outside == Quiet
    requires s.boot == Live || s.boot == Declined || !s.stopRequested
    requires s.boot != Declined
    ensures t.outside == Quiet && t.boot != Declined
    decreases |es|
  {
    if es != [] {
      forall i | 0 <= i < |es[1..]| ensures !es[1..][i].OutsideFlag? { assert es[1..][i] == es[i + 1]; }
      StaysQuiet(Step(s, es[0]), es[1..], t);
    }
  }

  /** The join: the counter is exactly the source plus the items not yet released; completion comes
      if and only if all of them are, and by then every item operation was deallocated once. */
  lemma JoinWithoutOutsideStop<E>(es: seq<Event<E>>, t: State<E>)
    requires Run(Init(), es, t) && NoOutsideStop(es)
    ensures t.boot == Live ==> t.refs == Holders(t.actors)
    ensures Completions(t) == 1 <==> t.boot == Live && forall a | 0 <= a < |t.actors| :: t.actors[a].Released?
    ensures Completions(t) == 1 ==> forall a: nat :: t.frees[a] == t.news[a] <= 1
  {
    InitInv<E>();
    RunKeepsInv(Init(), es, t);
    StaysQuiet(Init(), es, t);
    CountsBound(t.actors);
    if Completions(t) == 1 {
      forall a | 0 <= a < |t.actors| ensures t.actors[a].Released? {
        assert !Counted(t.actors[a]) && !Counted(t.actors[0]);
      }
      forall a: nat ensures t.frees[a] == t.news[a] <= 1 { assert OperationOf(t, a); }
    }
  }

  /** The error of the first compare-exchange that found the completion type still at value. */
  ghost function FirstExchanged<E>(s: State<E>, es: seq<Event<E>>): Option<E>
    decreases |es|
  {
    if es == [] || !Enabled(s, es[0]) || es[0].MarkStopped? then None
    else if es[0].CompareExchange? then Some(s.actors[es[0].a].error)
    else FirstExchanged(Step(s, es[0]), es[1..])
  }

  predicate SourceStops<E>(es: seq<Event<E>>)
  {
    exists i :: 0 <= i < |es| && es[i].MarkStopped?
  }

  lemma StepHistory<E>(s: State<E>, e: Event<E>)
    requires Enabled(s, e) && (s.ctype == 0 ==> s.winner == None)
    ensures var t := Step(s, e);
            (t.sourceStopped <==> s.sourceStopped || e.MarkStopped?)
            && (s.ctype != 0 ==> t.ctype != 0 && t.winner == s.winner)
            && (t.ctype == 0 ==> t.winner == None)
            && (s.ctype == 0 && e.CompareExchange? ==> t.ctype == 1 && t.winner == Some(s.actors[e.a].error))
            && (s.ctype == 0 && e.MarkStopped? ==> t.ctype == 3 && t.winner == None)
            && (s.ctype == 0 && !e.CompareExchange? && !e.MarkStopped? && !e.Publish? ==> t.ctype == 0)
            && (s.ctype == 0 && e.Publish? ==> t.ctype == 0)
  {}

  lemma {:induction false} RunHistory<E>(s: State<E>, es: seq<Event<E>>, t: State<E>)
    requires Run(s, es, t) && (s.ctype == 0 ==> s.winner == None)
    ensures t.sourceStopped <==> s.sourceStopped || SourceStops(es)
    ensures t.winner == if s.ctype == 0 then FirstExchanged(s, es) else s.winner
    decreases |es|
  {
    if es != [] {
      StepHistory(s, es[0]);
      RunHistory(Step(s, es[0]), es[1..], t);
      if i :| 0 <= i < |es[1..]| && es[1..][i].MarkStopped? { assert es[i + 1].MarkStopped?; }
      if i :| 0 < i < |es| && es[i].MarkStopped? { assert es[1..][i - 1].MarkStopped?; }
    }
  }

  /** The outcome: a stopped source wins over any error; otherwise it is the error whose
      compare-exchange came first; otherwise values. */
  lemma OutcomeWithoutOutsideStop<E>(es: seq<Event<E>>, t: State<E>)
    requires Run(Init(), es, t) && NoOutsideStop(es) && |t.delivered| == 1
    ensures t.delivered[0] ==
              if SourceStops(es) then Stopped
              else if FirstExchanged(Init(), es).Some? then Failed(FirstExchanged(Init(), es).value)
              else Values
  {
    InitInv<E>();
    RunKeepsInv(Init(), es, t);
    StaysQuiet(Init(), es, t);
    RunHistory(Init(), es, t);
  }

  /** complete() never loads the half-written state, and the error it reads is there. */
  lemma NeverHalfWritten<E>(es: seq<Event<E>>, t: State<E>)
    requires Run(Init(), es, t) && NoOutsideStop(es) && t.delivering > 0
    ensures t.ctype != 1 && Delivery(t) == [Expected(t)]
  {
    InitInv<E>();
    RunKeepsInv(Init(), es, t);
    StaysQuiet(Init(), es, t);
    CountsBound(t.actors);
  }

  // ----- With or without: the outcome, and progress -------------------------------------------

  /** What the operation owes its receiver: a stopped source first, then the error of the compare-exchange
      that came first, then values. */
  ghost function Owed<E>(es: seq<Event<E>>): Outcome<E>
  {
    if SourceStops(es) then Stopped
    else if FirstExchanged(Init<E>(), es).Some? then Failed(FirstExchanged(Init<E>(), es).value)
    else Values
  }

  lemma {:induction false} SomeWriter<E>(ps: seq<Phase<E>>)
    ensures Writers(ps) > 0 <==> exists a :: 0 <= a < |ps| && Writing(ps[a])
  {
    if ps != [] {
      SomeWriter(ps[1..]);
      forall a | 0 < a < |ps| ensures ps[a] == ps[1..][a - 1] {}
      if Writing(ps[0]) {
        assert Writing(ps[0]);
      } else if a :| 0 <= a < |ps[1..]| && Writing(ps[1..][a]) {
        assert Writing(ps[a + 1]);
      }
    }
  }

  /** In every run, outside stop included, complete() delivers what is owed if and only if the source was
      stopped or no actor is still writing the error slot. */
  lemma DeliversWhatIsOwedIff<E>(es: seq<Event<E>>, t: State<E>)
    requires Run(Init(), es, t) && t.delivering > 0
    ensures Delivery(t) == [Owed(es)] <==> SourceStops(es) || forall a | 0 <= a < |t.actors| :: !Writing(t.actors[a])
  {
    InitInv<E>();
    RunKeepsInv(Init(), es, t);
    RunHistory(Init(), es, t);
    SomeWriter(t.actors);
  }

  // ----- Stop requests ------------------------------------------------------------------------

  predicate AsksToStop<E>(e: Event<E>)
  {
    e.OutsideFlag? || e.RequestStop?
  }

  predicate StopAsked<E>(es: seq<Event<E>>)
  {
    es != [] && (AsksToStop(es[0]) || StopAsked(es[1..]))
  }

  lemma {:induction false} RunStops<E>(s: State<E>, es: seq<Event<E>>, t: State<E>)
    requires Run(s, es, t)
    ensures t.stopRequested <==> s.stopRequested || StopAsked(es)
    decreases |es|
  {
    if es != [] { RunStops(Step(s, es[0]), es[1..], t); }
  }

  /** An item operation that is allocated runs if no stop was requested before, and is deleted otherwise. */
  lemma NewOperationRunsIff<E>(es: seq<Event<E>>, s: State<E>, a: nat)
    requires Run(Init(), es, s) && Enabled(s, NewOperation(a))
    ensures Step(s, NewOperation(a)).actors[a].Running? <==> !StopAsked(es)
    ensures Step(s, NewOperation(a)).actors[a].Deleting? <==> StopAsked(es)
  {
    RunStops(Init(), es, s);
  }

  /** The item operation of actor a came to an end. */
  predicate Ran<E>(es: seq<Event<E>>, a: nat)
  {
    es != [] && (Ends(es[0], a) || Ran(es[1..], a))
  }

  predicate Ends<E>(e: Event<E>, a: nat)
  {
    e.Proceed? && e.a == a && (e.to.Deleting? || e.to.ItemStopped?)
  }

  predicate Allocates<E>(e: Event<E>, a: nat)
  {
    e.NewOperation? && e.a == a
  }

  /** A stop had been requested when the operation of actor a was allocated. */
  predicate StoppedBefore<E>(es: seq<Event<E>>, a: nat, stopped: bool)
  {
    es != [] && if Allocates(es[0], a) then stopped else StoppedBefore(es[1..], a, stopped || AsksToStop(es[0]))
  }

  /** Actor a has its item operation, and it is under way. */
  predicate Runs<E>(s: State<E>, a: nat)
  {
    a < |s.actors| && s.actors[a].Running?
  }

  /** What one step does to the item operation of actor a. */
  ghost predicate OneStepOfItem<E>(s: State<E>, e: Event<E>, t: State<E>, a: nat)
  {
    && (s.news[a] == 0 ==> !Ends(e, a) && t.news[a] == if Allocates(e, a) then 1 else 0)
    && (s.news[a] == 0 && Allocates(e, a) ==> (Runs(t, a) <==> !s.stopRequested))
    && (s.news[a] == 1 ==> t.news[a] == 1 && !Allocates(e, a) && (Runs(s, a) <==> Runs(t, a) || Ends(e, a)))
  }

  lemma NewStepOfItem<E>(s: State<E>, a: nat)
    requires OperationOf(s, a) && Enabled(s, NewOperation(a))
    ensures OneStepOfItem(s, NewOperation(a), Step(s, NewOperation(a)), a)
  {}

  lemma MoveStepOfItem<E>(s: State<E>, e: Event<E>, a: nat)
    requires OperationOf(s, a) && Enabled(s, e) && MovesActor(e) && !Allocates(e, a)
    ensures OneStepOfItem(s, e, Step(s, e), a)
  {
    var t := Step(s, e);
    assert t.news[a] == s.news[a];
    if e.a == a {
      assert Runs(t, a) ==> Runs(s, a);
      assert Runs(s, a) && !Ends(e, a) ==> false;
    } else {
      assert Runs(t, a) == Runs(s, a);
    }
  }

  lemma OtherStepOfItem<E>(s: State<E>, e: Event<E>, a: nat)
    requires OperationOf(s, a) && (s.boot == Live <==> s.actors != []) && Enabled(s, e) && !MovesActor(e)
    ensures OneStepOfItem(s, e, Step(s, e), a)
  {}

  lemma StepOfItem<E>(s: State<E>, e: Event<E>, a: nat)
    requires OperationOf(s, a) && (s.boot == Live <==> s.actors != []) && Enabled(s, e)
    ensures OneStepOfItem(s, e, Step(s, e), a)
  {
    if Allocates(e, a) { NewStepOfItem(s, a); }
    else if MovesActor(e) { MoveStepOfItem(s, e, a); }
    else { OtherStepOfItem(s, e, a); }
  }

  lemma {:induction false} RunOfItem<E>(s: State<E>, es: seq<Event<E>>, t: State<E>, a: nat)
    requires Inv(s) && Run(s, es, t)
    ensures s.news[a] == 0 && t.news[a] == 1 ==> (Runs(t, a) || Ran(es, a) <==> !StoppedBefore(es, a, s.stopRequested))
    ensures s.news[a] == 1 ==> t.news[a] == 1 && (Runs(s, a) <==> Runs(t, a) || Ran(es, a))
    decreases |es|
  {
    assert OperationOf(s, a);
    if es != [] {
      StepOfItem(s, es[0], a);
      RunStops(s, [es[0]], Step(s, es[0]));
      StepKeepsInv(s, es[0]);
      RunOfItem(Step(s, es[0]), es[1..], t, a);
    }
  }

  /** In every run an item operation that was allocated is running, or ran to its end, if and only if no stop
      had been requested before; so without any stop every one of a completed operation ran to its end. */
  lemma ItemRunsIff<E>(es: seq<Event<E>>, t: State<E>, a: nat)
    requires Run(Init(), es, t) && t.news[a] == 1
    ensures Runs(t, a) || Ran(es, a) <==> !StoppedBefore(es, a, false)
    ensures Completions(t) == 1 && !StopAsked(es) ==> Ran(es, a)
  {
    InitInv<E>();
    RunOfItem(Init(), es, t, a);
    if Completions(t) == 1 && !StopAsked(es) {
      RunKeepsInv(Init(), es, t);
      RunStops(Init(), es, t);
      CountsBound(t.actors);
      NotStoppedBefore(es, a);
    }
  }

  lemma {:induction false} NotStoppedBefore<E>(es: seq<Event<E>>, a: nat)
    requires !StopAsked(es)
    ensures !StoppedBefore(es, a, false)
  {
    if es != [] { NotStoppedBefore(es[1..], a); }
  }

  /** A child ends otherwise than by value, or the receiver asks for a stop. */
  predicate Winds<E>(es: seq<Event<E>>)
  {
    es != [] && (WindsBy(es[0]) || Winds(es[1..]))
  }

  predicate WindsBy<E>(e: Event<E>)
  {
    e.OutsideFlag? || (e.Proceed? && !e.to.Releasing? && !e.to.Deleting?)
  }

  /** Phases that lead to a stop request. */
  predicate LeadsToStop<E>(p: Phase<E>)
  {
    p.MarkingStopped? || p.ItemStopped? || p.Raising? || p.Placing? || p.Publishing? || p.Stopping?
  }

  ghost predicate Winding<E>(s: State<E>)
  {
    s.stopRequested || exists a :: 0 <= a < |s.actors| && LeadsToStop(s.actors[a])
  }

  ghost predicate WindsOn<E>(s: State<E>, e: Event<E>, t: State<E>)
    requires MovesActor(e)
  {
    && e.a < |s.actors| == |t.actors| && t.stopRequested == s.stopRequested
    && (LeadsToStop(t.actors[e.a]) <==> LeadsToStop(s.actors[e.a]) || WindsBy(e))
  }

  lemma SlotMoveWinds<E>(s: State<E>, e: Event<E>)
    requires Enabled(s, e) && MovesSlot(e)
    ensures WindsOn(s, e, Step(s, e))
  {}

  lemma CounterMoveWinds<E>(s: State<E>, e: Event<E>)
    requires Enabled(s, e) && MovesCounter(e)
    ensures WindsOn(s, e, Step(s, e))
  {}

  lemma ControlMoveWinds<E>(s: State<E>, e: Event<E>)
    requires Enabled(s, e) && MovesActor(e) && !MovesSlot(e) && !MovesCounter(e) && !e.RequestStop?
    ensures WindsOn(s, e, Step(s, e))
  {}

  lemma RequestStopWinds<E>(s: State<E>, a: nat)
    requires Counter(s) && Admission(s) && Enabled(s, RequestStop(a))
    ensures Step(s, RequestStop(a)).stopRequested && Winding(s)
  {
    assert LeadsToStop(s.actors[a]) || Refused(s.actors[a]);
  }

  lemma WindingSet<E>(s: State<E>, t: State<E>, a: nat)
    requires a < |s.actors| && |t.actors| == |s.actors| && t.stopRequested == s.stopRequested
    requires forall b | 0 <= b < |s.actors| && b != a :: t.actors[b] == s.actors[b]
    requires LeadsToStop(s.actors[a]) ==> LeadsToStop(t.actors[a])
    ensures Winding(t) <==> Winding(s) || LeadsToStop(t.actors[a])
  {
    if b :| 0 <= b < |s.actors| && LeadsToStop(s.actors[b]) { assert LeadsToStop(t.actors[b]); }
  }

  lemma StepWinds<E>(s: State<E>, e: Event<E>)
    requires Counter(s) && Admission(s) && Enabled(s, e)
    ensures Winding(Step(s, e)) <==> Winding(s) || WindsBy(e)
  {
    if MovesActor(e) {
      if e.RequestStop? { RequestStopWinds(s, e.a); }
      else {
        if MovesSlot(e) { SlotMoveWinds(s, e); }
        else if MovesCounter(e) { CounterMoveWinds(s, e); }
        else { ControlMoveWinds(s, e); }
        StepCounts(s, e);
        WindingSet(s, Step(s, e), e.a);
      }
    } else {
      OtherStepWinds(s, e);
    }
  }

  lemma OtherStepWinds<E>(s: State<E>, e: Event<E>)
    requires Counter(s) && Enabled(s, e) && !MovesActor(e)
    ensures Winding(Step(s, e)) <==> Winding(s) || e.OutsideFlag?
  {
    if a :| 0 <= a < |s.actors| && LeadsToStop(s.actors[a]) { assert LeadsToStop(Step(s, e).actors[a]); }
  }

  lemma {:induction false} RunWinds<E>(s: State<E>, es: seq<Event<E>>, t: State<E>)
    requires Inv(s) && Run(s, es, t)
    ensures Winding(t) <==> Winding(s) || Winds(es)
    decreases |es|
  {
    if es != [] {
      StepWinds(s, es[0]);
      StepKeepsInv(s, es[0]);
      RunWinds(Step(s, es[0]), es[1..], t);
    }
  }

  /** Once all actors are over, a stop was requested if and only if a child ended otherwise than by value or the
      receiver asked for it; and in every run only then. */
  lemma StopsIff<E>(es: seq<Event<E>>, t: State<E>)
    requires Run(Init(), es, t)
    ensures t.stopRequested ==> Winds(es)
    ensures (forall a | 0 <= a < |t.actors| :: t.actors[a].Released? || t.actors[a].Rejected?) ==>
              (t.stopRequested <==> Winds(es))
  {
    InitInv<E>();
    RunWinds(Init(), es, t);
  }

  // ----- How the children ended, and the outcome -----------------------------------------------

  predicate SourceEndedStopped<E>(es: seq<Event<E>>)
  {
    es != [] && ((es[0].Proceed? && es[0].to.MarkingStopped?) || SourceEndedStopped(es[1..]))
  }

  /** The errors the source and the items ended with. */
  function RaisedErrors<E>(es: seq<Event<E>>): seq<E>
  {
    if es == [] then []
    else RaisedBy(es[0]) + RaisedErrors(es[1..])
  }

  function RaisedBy<E>(e: Event<E>): seq<E>
  {
    if e.Proceed? && e.to.Raising? then [e.to.error] else []
  }

  ghost predicate Marks<E>(s: State<E>)
  {
    s.sourceStopped || exists a :: 0 <= a < |s.actors| && s.actors[a].MarkingStopped?
  }

  lemma StepMarks<E>(s: State<E>, e: Event<E>)
    requires Enabled(s, e) && (s.boot == Live <==> s.actors != [])
    ensures Marks(Step(s, e)) <==> Marks(s) || (e.Proceed? && e.to.MarkingStopped?)
  {
    var t := Step(s, e);
    if MovesActor(e) {
      MoveMarks(s, e);
    } else if a :| 0 <= a < |s.actors| && s.actors[a].MarkingStopped? {
      assert t.actors[a].MarkingStopped?;
    }
  }

  lemma MoveMarks<E>(s: State<E>, e: Event<E>)
    requires Enabled(s, e) && MovesActor(e)
    ensures Marks(Step(s, e)) <==> Marks(s) || (e.Proceed? && e.to.MarkingStopped?)
  {
    var t := Step(s, e);
    assert t.actors[e.a].MarkingStopped? <==> e.Proceed? && e.to.MarkingStopped?;
    assert s.actors[e.a].MarkingStopped? ==> t.sourceStopped;
    assert forall b | 0 <= b < |s.actors| && b != e.a :: t.actors[b] == s.actors[b];
    if a :| 0 <= a < |s.actors| && s.actors[a].MarkingStopped? { assert a == e.a || t.actors[a].MarkingStopped?; }
  }

  lemma {:induction false} RunMarks<E>(s: State<E>, es: seq<Event<E>>, t: State<E>)
    requires Inv(s) && Run(s, es, t)
    ensures Marks(t) <==> Marks(s) || SourceEndedStopped(es)
    decreases |es|
  {
    if es != [] {
      StepMarks(s, es[0]);
      StepKeepsInv(s, es[0]);
      RunMarks(Step(s, es[0]), es[1..], t);
    }
  }

  /** An error raised has taken the slot, or is about to try, or the source was stopped. */
  ghost predicate Erring<E>(s: State<E>)
  {
    s.winner.Some? || s.sourceStopped || exists a :: 0 <= a < |s.actors| && s.actors[a].Raising?
  }

  /** Every error in the state is one of those raised. */
  ghost predicate ErrorsFrom<E>(s: State<E>, raised: seq<E>)
  {
    && (s.winner.Some? ==> s.winner.value in raised)
    && (forall a | 0 <= a < |s.actors| && s.actors[a].Raising? :: s.actors[a].error in raised)
  }

  lemma StepErring<E>(s: State<E>, e: Event<E>)
    requires Slot(s) && (s.boot == Live <==> s.actors != []) && Enabled(s, e)
    ensures Erring(s) || RaisedBy(e) != [] ==> Erring(Step(s, e))
  {
    var t := Step(s, e);
    if a :| 0 <= a < |s.actors| && s.actors[a].Raising? {
      assert t.winner.Some? || t.sourceStopped || t.actors[a].Raising?;
    }
    if RaisedBy(e) != [] { assert t.actors[e.a].Raising?; }
  }

  /** One actor moved; the error it carries now, if any, and the winner's are among those raised. */
  ghost predicate OneMoved<E>(s: State<E>, t: State<E>, a: nat, raised: seq<E>)
  {
    && a < |s.actors| && |t.actors| == |s.actors| && t.actors == s.actors[a := t.actors[a]]
    && (t.winner == s.winner || (s.actors[a].Raising? && t.winner == Some(s.actors[a].error)))
    && (t.actors[a].Raising? ==> t.actors[a].error in raised)
  }

  lemma OneMovedKeepsErrors<E>(s: State<E>, t: State<E>, a: nat, raised: seq<E>, more: seq<E>)
    requires ErrorsFrom(s, raised) && OneMoved(s, t, a, raised + more)
    ensures ErrorsFrom(t, raised + more)
  {
    assert forall b | 0 <= b < |s.actors| && b != a :: t.actors[b] == s.actors[b];
  }

  lemma SlotMoveErrors<E>(s: State<E>, e: Event<E>, raised: seq<E>)
    requires Enabled(s, e) && MovesSlot(e)
    ensures OneMoved(s, Step(s, e), e.a, raised)
  {}

  lemma CounterMoveErrors<E>(s: State<E>, e: Event<E>, raised: seq<E>)
    requires Enabled(s, e) && MovesCounter(e)
    ensures OneMoved(s, Step(s, e), e.a, raised)
  {}

  lemma ControlMoveErrors<E>(s: State<E>, e: Event<E>, raised: seq<E>)
    requires Enabled(s, e) && MovesActor(e) && !MovesSlot(e) && !MovesCounter(e)
    ensures OneMoved(s, Step(s, e), e.a, raised + RaisedBy(e))
  {
    assert Step(s, e).actors[e.a].Raising? ==> RaisedBy(e) == [Step(s, e).actors[e.a].error];
  }

  lemma MoveErrors<E>(s: State<E>, e: Event<E>, raised: seq<E>)
    requires Enabled(s, e) && MovesActor(e) && ErrorsFrom(s, raised)
    ensures ErrorsFrom(Step(s, e), raised + RaisedBy(e))
  {
    if MovesSlot(e) { SlotMoveErrors(s, e, raised + RaisedBy(e)); }
    else if MovesCounter(e) { CounterMoveErrors(s, e, raised + RaisedBy(e)); }
    else { ControlMoveErrors(s, e, raised); }
    OneMovedKeepsErrors(s, Step(s, e), e.a, raised, RaisedBy(e));
  }

  lemma StepErrors<E>(s: State<E>, e: Event<E>, raised: seq<E>)
    requires Enabled(s, e) && (s.boot == Live <==> s.actors != []) && ErrorsFrom(s, raised)
    ensures ErrorsFrom(Step(s, e), raised + RaisedBy(e))
  {
    if MovesActor(e) { MoveErrors(s, e, raised); }
  }

  lemma {:induction false} RunErring<E>(s: State<E>, es: seq<Event<E>>, t: State<E>)
    requires Inv(s) && Run(s, es, t)
    ensures Erring(s) || RaisedErrors(es) != [] ==> Erring(t)
    decreases |es|
  {
    if es != [] {
      StepErring(s, es[0]);
      StepKeepsInv(s, es[0]);
      RunErring(Step(s, es[0]), es[1..], t);
    }
  }

  lemma Associative<T>(a: seq<T>, b: seq<T>, c: seq<T>)
    ensures (a + b) + c == a + (b + c)
  {}

  lemma {:induction false} RunErrors<E>(s: State<E>, es: seq<Event<E>>, t: State<E>, raised: seq<E>)
    requires Inv(s) && Run(s, es, t) && ErrorsFrom(s, raised)
    ensures ErrorsFrom(t, raised + RaisedErrors(es))
    decreases |es|
  {
    if es == [] {
      assert raised + [] == raised;
    } else {
      StepErrors(s, es[0], raised);
      StepKeepsInv(s, es[0]);
      RunErrors(Step(s, es[0]), es[1..], t, raised + RaisedBy(es[0]));
      Associative(raised, RaisedBy(es[0]), RaisedErrors(es[1..]));
    }
  }

  /** The outcome in terms of how the children ended, without an outside stop: stopped if and only if the source
      ended stopped; otherwise an error, and one that a child ended with, if and only if some child did. */
  lemma OutcomeIff<E>(es: seq<Event<E>>, t: State<E>)
    requires Run(Init(), es, t) && NoOutsideStop(es) && |t.delivered| == 1
    ensures t.delivered[0].Stopped? <==> SourceEndedStopped(es)
    ensures t.delivered[0].Failed? <==> !SourceEndedStopped(es) && RaisedErrors(es) != []
    ensures t.delivered[0].Failed? ==> t.delivered[0].error in RaisedErrors(es)
  {
    InitInv<E>();
    RunKeepsInv(Init(), es, t);
    JoinWithoutOutsideStop(es, t);
    StaysQuiet(Init(), es, t);
    RunMarks(Init(), es, t);
    RunErring(Init(), es, t);
    RunErrors(Init(), es, t, []);
    assert [] + RaisedErrors(es) == RaisedErrors(es);
  }

  // ----- The counter, exactly ------------------------------------------------------------------

  /** Items that were turned away and have left. */
  function Rejects<E>(ps: seq<Phase<E>>): nat
  {
    if ps == [] then 0 else (if ps[0].Rejected? then 1 else 0) + Rejects(ps[1..])
  }

  lemma {:induction false} RejectsSet<E>(ps: seq<Phase<E>>, a: nat, p: Phase<E>)
    requires a < |ps|
    ensures Rejects(ps[a := p]) + (if ps[a].Rejected? then 1 else 0) == Rejects(ps) + (if p.Rejected? then 1 else 0)
  {
    if a == 0 {
      assert ps[a := p][1..] == ps[1..];
    } else {
      RejectsSet(ps[1..], a - 1, p);
      assert ps[a := p][1..] == ps[1..][a - 1 := p];
    }
  }

  lemma {:induction false} RejectsAppend<E>(ps: seq<Phase<E>>, p: Phase<E>)
    requires !p.Rejected?
    ensures Rejects(ps + [p]) == Rejects(ps)
  {
    if ps != [] {
      RejectsAppend(ps[1..], p);
      assert (ps + [p])[1..] == ps[1..] + [p];
    }
  }

  lemma StepRejects<E>(s: State<E>, e: Event<E>)
    requires Enabled(s, e) && (s.boot == Live <==> s.actors != []) && s.turnedAwayDrops == Rejects(s.actors)
    ensures Step(s, e).turnedAwayDrops == Rejects(Step(s, e).actors)
  {
    if MovesActor(e) {
      StepCounts(s, e);
      RejectsSet(s.actors, e.a, Step(s, e).actors[e.a]);
    } else if e.Arrive? {
      RejectsAppend(s.actors, Trying(1));
    }
  }

  lemma {:induction false} RunRejects<E>(s: State<E>, es: seq<Event<E>>, t: State<E>)
    requires Inv(s) && Run(s, es, t) && s.turnedAwayDrops == Rejects(s.actors)
    ensures t.turnedAwayDrops == Rejects(t.actors)
    decreases |es|
  {
    if es != [] {
      StepRejects(s, es[0]);
      StepKeepsInv(s, es[0]);
      RunRejects(Step(s, es[0]), es[1..], t);
    }
  }

  /** The counter of a live operation in every run: the source and the items admitted, less one if the stop
      callback took a count, less one for every item that was turned away and has left, which takes a count
      it never added.  Before start() has stored 1 only the stop callback touches it. */
  lemma CounterIsExact<E>(es: seq<Event<E>>, t: State<E>)
    requires Run(Init(), es, t)
    ensures t.boot == Live ==>
              t.refs == Holders(t.actors) - (if DropsLive(Init(), es) then 1 else 0) - Rejects(t.actors)
    ensures t.boot != Live ==> t.refs == if t.outside == Spent then -1 else 0
  {
    InitInv<E>();
    RunKeepsInv(Init(), es, t);
    RunRejects(Init(), es, t);
    RunDrops(Init(), es, t);
  }

  /** A stop was requested when start() tested for it. */
  predicate StoppedEarly<E>(es: seq<Event<E>>, stopped: bool)
  {
    es != [] && if es[0].CheckStop? then stopped else StoppedEarly(es[1..], stopped || es[0].OutsideFlag?)
  }

  predicate Untested<E>(s: State<E>)
  {
    s.boot == Fresh || s.boot == Armed
  }

  lemma DeclinedDelivers<E>(s: State<E>, e: Event<E>)
    requires Counter(s) && OneCompletion(s) && Enabled(s, e) && Step(s, e).boot == Declined
    ensures Step(s, e).delivered == if s.boot == Declined then s.delivered else [Stopped]
  {
    if e.CheckStop? { CheckStopDelivers(s); } else { assert s.boot == Declined && !MovesActor(e); }
  }

  lemma CheckStopDelivers<E>(s: State<E>)
    requires Counter(s) && OneCompletion(s) && Enabled(s, CheckStop) && s.stopRequested
    ensures s.boot != Declined && Step(s, CheckStop).delivered == [Stopped]
  {
    assert s.delivered == [];
  }

  lemma StepOfBoot<E>(s: State<E>, e: Event<E>)
    requires Enabled(s, e)
    ensures var t := Step(s, e);
            && (t.boot == Declined <==> s.boot == Declined || (e.CheckStop? && s.stopRequested))
            && (Untested(t) ==> Untested(s) && !e.CheckStop?)
            && (Untested(s) && !Untested(t) ==> e.CheckStop?)
            && (Untested(s) ==> (t.stopRequested <==> s.stopRequested || e.OutsideFlag?))
            && (!Untested(s) ==> !e.CheckStop?)
  {}

  lemma {:induction false} RunDeclines<E>(s: State<E>, es: seq<Event<E>>, t: State<E>)
    requires Inv(s) && Run(s, es, t) && (s.boot == Declined ==> s.delivered == [Stopped])
    ensures t.boot == Declined <==> s.boot == Declined || (Untested(s) && StoppedEarly(es, s.stopRequested))
    ensures t.boot == Declined ==> t.delivered == [Stopped]
    decreases |es|
  {
    if es != [] {
      StepOfBoot(s, es[0]);
      if Step(s, es[0]).boot == Declined { DeclinedDelivers(s, es[0]); }
      StepKeepsInv(s, es[0]);
      RunDeclines(Step(s, es[0]), es[1..], t);
    }
  }

  /** start() declines, with a stopped completion and without starting the source, if and only if a stop was
      requested between the registration of the callback and the test. */
  lemma DeclinesIff<E>(es: seq<Event<E>>, t: State<E>)
    requires Run(Init(), es, t)
    ensures t.boot == Declined <==> StoppedEarly(es, false)
    ensures t.boot == Declined ==> t.delivered == [Stopped] && t.actors == []
  {
    InitInv<E>();
    RunKeepsInv(Init(), es, t);
    RunDeclines(Init(), es, t);
  }

  /** The next step of an actor that is not over. */
  function NextOf<E>(p: Phase<E>, a: nat): Event<E>
    requires !p.Released? && !p.Rejected?
  {
    match p
    case Open => Proceed(a, Releasing)
    case Trying(_) => TryIncrease(a, false)
    case Admitted => NewOperation(a)
    case Running => Proceed(a, Deleting)
    case Deleting => DeleteOperation(a)
    case MarkingStopped => MarkStopped(a)
    case Raising(_) => CompareExchange(a)
    case Placing(_) => Emplace(a)
    case Publishing => Publish(a)
    case TurnedAway | ItemStopped | Stopping => RequestStop(a)
    case TurnedAwayLeaving | Releasing => DecreaseRef(a)
  }

  lemma StuckMeansOver<E>(t: State<E>)
    requires Protocol(t) && forall e :: Enabled(t, e) ==> e.OutsideFlag?
    ensures t.delivering == 0 && (t.boot == Declined || t.boot == Live)
    ensures forall a | 0 <= a < |t.actors| :: t.actors[a].Released? || t.actors[a].Rejected?
  {
    assert !Enabled(t, Event<E>.Arm) && !Enabled(t, CheckStop) && !Enabled(t, StoreOne) && !Enabled(t, Deliver);
    forall a | 0 <= a < |t.actors| && t.actors[a].Trying? ensures false {
      assert Enabled(t, TryIncrease(a, false));
    }
    forall a | 0 <= a < |t.actors| && !t.actors[a].Released? && !t.actors[a].Rejected? ensures false {
      assert Enabled(t, NextOf(t.actors[a], a));
    }
  }

  /** A run, outside stop or not, that can go on only with a first stop request has completed once. */
  lemma StuckMeansCompleted<E>(es: seq<Event<E>>, t: State<E>)
    requires Run(Init(), es, t) && forall e :: Enabled(t, e) ==> e.OutsideFlag?
    ensures |t.delivered| == 1
  {
    InitInv<E>();
    RunKeepsInv(Init(), es, t);
    StuckMeansOver(t);
    CountsBound(t.actors);
  }
}

/** The operation of `fork`, updated in place: each method named after an event is one step of the
    protocol, the others are functions of the source as they run when nothing comes between. */
module Fork {
  import opened ForkProtocol
  import opened Wrappers

  class Operation<E> {
    var boot: Boot
    var refCounter: int
    var completionType: int
    var error: Option<E>
    var stopRequested: bool
    var outside: Outside
    var actors: seq<Phase<E>>
    var delivering: nat
    var delivered: seq<Outcome<E>>
    ghost var news: multiset<nat>
    ghost var frees: multiset<nat>
    ghost var outsideDrops: nat
    ghost var turnedAwayDrops: nat
    ghost var winner: Option<E>
    ghost var sourceStopped: bool

    ghost function Model(): State<E>
      reads this
    {
      State(boot, refCounter, completionType, error, stopRequested, outside, actors, delivering, delivered,
        news, frees, outsideDrops, turnedAwayDrops, winner, sourceStopped)
    }

    ghost predicate Ready(e: Event<E>)
      reads this
    {
      Inv(Model()) && Enabled(Model(), e)
    }

    twostate predicate Took(e: Event<E>)
      requires old(Ready(e))
      reads this
    {
      Model() == Step(old(Model()), e) && Inv(Model())
    }

    constructor ()
      ensures Model() == Init() && Inv(Model())
    {
      boot, refCounter, completionType, error, stopRequested, outside := Fresh, 0, 0, None, false, Quiet;
      actors, delivering, delivered, news, frees := [], 0, [], multiset{}, multiset{};
      outsideDrops, turnedAwayDrops, winner, sourceStopped := 0, 0, None, false;
      new;
      InitInv<E>();
    }

    /** start(): the stop callback is registered */
    method Arm()
      requires Ready(Event.Arm)
      modifies this
      ensures Took(Event.Arm)
    {
      StepKeepsInv(Model(), Event.Arm);
      boot := Armed;
    }

    /** start(): the test for a stop */
    method CheckStop()
      requires Ready(Event.CheckStop)
      modifies this
      ensures Took(Event.CheckStop)
      ensures boot == if stopRequested then Declined else Cleared
      ensures delivered == if stopRequested then [Stopped] else []
    {
      StepKeepsInv(Model(), Event.CheckStop);
      if stopRequested {
        boot, delivered := Declined, delivered + [Stopped];
      } else {
        boot := Cleared;
      }
    }

    /** start(): ref_counter_.store(1), and the source starts */
    method StoreOne()
      requires Ready(Event.StoreOne)
      modifies this
      ensures Took(Event.StoreOne)
    {
      StepKeepsInv(Model(), Event.StoreOne);
      boot, refCounter, actors := Live, 1, [Open];
    }

    /** on_stop_requested: request_stop */
    method OutsideFlag()
      requires Ready(Event.OutsideFlag)
      modifies this
      ensures Took(Event.OutsideFlag)
    {
      StepKeepsInv(Model(), Event.OutsideFlag);
      outside, stopRequested := Flagged, true;
    }

    /** on_stop_requested: decrease_ref */
    method OutsideDrop()
      requires Ready(Event.OutsideDrop)
      modifies this
      ensures Took(Event.OutsideDrop)
    {
      StepKeepsInv(Model(), Event.OutsideDrop);
      LeaveOutside();
    }

    method LeaveOutside()
      requires Enabled(Model(), Event.OutsideDrop)
      modifies this
      ensures Model() == Step(old(Model()), Event.OutsideDrop)
    {
      var last := FetchSub();
      outside := Spent;
      if boot == Live { outsideDrops := outsideDrops + 1; }
    }

    /** set_next */
    method Arrive()
      requires Ready(Event.Arrive)
      modifies this
      ensures Took(Event.Arrive)
    {
      StepKeepsInv(Model(), Event.Arrive);
      actors := actors + [Trying(1)];
    }

    /** one turn of the loop of increase_ref */
    method TryIncrease(a: nat, spurious: bool)
      requires Ready(Event.TryIncrease(a, spurious))
      modifies this
      ensures Took(Event.TryIncrease(a, spurious))
    {
      StepKeepsInv(Model(), Event.TryIncrease(a, spurious));
      if refCounter == actors[a].expected && !spurious {
        refCounter, actors := refCounter + 1, actors[a := Admitted];
      } else if refCounter == 0 {
        actors := actors[a := TurnedAway];
      } else {
        actors := actors[a := Trying(refCounter)];
      }
    }

    method Proceed(a: nat, to: Phase<E>)
      requires Ready(Event.Proceed(a, to))
      modifies this
      ensures Took(Event.Proceed(a, to))
    {
      StepKeepsInv(Model(), Event.Proceed(a, to));
      actors := actors[a := to];
    }

    /** async_new of the item operation, and its start */
    method NewOperation(a: nat)
      requires Ready(Event.NewOperation(a))
      modifies this
      ensures Took(Event.NewOperation(a))
      ensures actors == old(actors)[a := if old(stopRequested) then Deleting else Running]
    {
      StepKeepsInv(Model(), Event.NewOperation(a));
      actors := actors[a := if stopRequested then Deleting else Running];
      news := news + multiset{a};
    }

    /** async_delete of the item operation */
    method DeleteOperation(a: nat)
      requires Ready(Event.DeleteOperation(a))
      modifies this
      ensures Took(Event.DeleteOperation(a))
    {
      StepKeepsInv(Model(), Event.DeleteOperation(a));
      actors := actors[a := Releasing];
      frees := frees + multiset{a};
    }

    /** completion_type_.store(stopped) */
    method MarkStopped(a: nat)
      requires Ready(Event.MarkStopped(a))
      modifies this
      ensures Took(Event.MarkStopped(a))
    {
      StepKeepsInv(Model(), Event.MarkStopped(a));
      completionType, actors, sourceStopped := 3, actors[a := Stopping], true;
    }

    /** completion_type_.compare_exchange_strong(value, 1) */
    method CompareExchange(a: nat) returns (won: bool)
      requires Ready(Event.CompareExchange(a))
      modifies this
      ensures Took(Event.CompareExchange(a)) && won == (old(completionType) == 0)
    {
      StepKeepsInv(Model(), Event.CompareExchange(a));
      won := completionType == 0;
      if won {
        completionType, winner := 1, Some(actors[a].error);
        actors := actors[a := Placing(actors[a].error)];
      } else {
        actors := actors[a := Stopping];
      }
    }

    method Emplace(a: nat)
      requires Ready(Event.Emplace(a))
      modifies this
      ensures Took(Event.Emplace(a))
    {
      StepKeepsInv(Model(), Event.Emplace(a));
      error := Some(actors[a].error);
      actors := actors[a := Publishing];
    }

    /** completion_type_.compare_exchange_strong(1, error) */
    method Publish(a: nat)
      requires Ready(Event.Publish(a))
      modifies this
      ensures Took(Event.Publish(a))
    {
      StepKeepsInv(Model(), Event.Publish(a));
      if completionType == 1 { completionType := 2; }
      actors := actors[a := Stopping];
    }

    method RequestStop(a: nat)
      requires Ready(Event.RequestStop(a))
      modifies this
      ensures Took(Event.RequestStop(a)) && stopRequested
    {
      StepKeepsInv(Model(), Event.RequestStop(a));
      stopRequested := true;
      actors := actors[a := AfterStop(actors[a])];
    }

    /** decrease_ref(), up to the complete() it may lead to */
    method DecreaseRef(a: nat) returns (last: bool)
      requires Ready(Event.DecreaseRef(a))
      modifies this
      ensures Took(Event.DecreaseRef(a)) && last == (old(refCounter) == 1)
    {
      StepKeepsInv(Model(), Event.DecreaseRef(a));
      last := Leave(a);
    }

    method Leave(a: nat) returns (last: bool)
      requires Enabled(Model(), Event.DecreaseRef(a))
      modifies this
      ensures Model() == Step(old(Model()), Event.DecreaseRef(a)) && last == (old(refCounter) == 1)
    {
      last := FetchSub();
      if actors[a].Releasing? {
        actors := actors[a := Released];
      } else {
        actors, turnedAwayDrops := actors[a := Rejected], turnedAwayDrops + 1;
      }
    }

    /** ref_counter_.fetch_sub(1); the last one goes on to complete() */
    method FetchSub() returns (last: bool)
      modifies this`refCounter, this`delivering
      ensures Model() == Drop(old(Model())) && last == (old(refCounter) == 1)
    {
      last := refCounter == 1;
      refCounter := refCounter - 1;
      if last { delivering := delivering + 1; }
    }

    /** complete() from its load of completion_type_ on */
    method Deliver()
      requires Ready(Event.Deliver)
      modifies this
      ensures Took(Event.Deliver)
    {
      StepKeepsInv(Model(), Event.Deliver);
      delivering := delivering - 1;
      if completionType == 3 {
        delivered := delivered + [Stopped];
      } else if completionType == 2 {
        if error.Some? { delivered := delivered + [Failed(error.value)]; }
      } else {
        delivered := delivered + [Values];
      }
    }

    /** What a turn of the loop decides. */
    method TurnOfIncrease(a: nat, spurious: bool)
      requires Inv(Model()) && At(Model(), a) && actors[a].Trying?
      modifies this
      ensures Inv(Model()) && At(Model(), a) && |actors| == |old(actors)|
      ensures actors[a] == (if old(refCounter == actors[a].expected) && !spurious then Admitted
                            else if old(refCounter) == 0 then TurnedAway else Trying(old(refCounter)))
      ensures actors[a] == Admitted ==> old(refCounter) != 0
      ensures refCounter == if actors[a] == Admitted then old(refCounter) + 1 else old(refCounter)
    {
      TryIncrease(a, spurious);
    }

    /** increase_ref(), whose exchange fails spuriously any number of times: refused by 0, and by nothing
        else. */
    method IncreaseRef(a: nat, spurious: nat) returns (admitted: bool)
      requires Inv(Model()) && At(Model(), a) && actors[a].Trying?
      modifies this
      ensures Inv(Model()) && admitted == (old(refCounter) != 0) && |actors| == |old(actors)|
      ensures actors[a] == if admitted then Admitted else TurnedAway
      ensures refCounter == if admitted then old(refCounter) + 1 else 0
    {
      var failures: nat := spurious;
      while actors[a].Trying?
        invariant Inv(Model()) && At(Model(), a) && |actors| == |old(actors)|
        invariant actors[a].Trying? || actors[a] == Admitted || actors[a] == TurnedAway
        invariant actors[a].Trying? ==> refCounter == old(refCounter)
        invariant actors[a] == Admitted ==> refCounter == old(refCounter) + 1 && old(refCounter) != 0
        invariant actors[a] == TurnedAway ==> refCounter == old(refCounter) == 0
        decreases failures, if !actors[a].Trying? then 0 else if actors[a].expected == refCounter then 1 else 2
      {
        TurnOfIncrease(a, failures > 0);
        failures := if failures > 0 then failures - 1 else 0;
      }
      admitted := actors[a].Admitted?;
    }

    /** decrease_ref() of an actor that is done, with the complete() it may lead to. */
    method Release(a: nat)
      requires Ready(Event.DecreaseRef(a)) && actors[a].Releasing?
      modifies this
      ensures Inv(Model()) && actors == old(actors)[a := Released] && refCounter == old(refCounter) - 1
      ensures delivered == if old(refCounter) == 1 then old(delivered) + Delivery(old(Model())) else old(delivered)
      ensures completionType == old(completionType) && error == old(error) && stopRequested == old(stopRequested)
    {
      var last := DecreaseRef(a);
      if last {
        Deliver();
      }
    }

    /** receiver::set_error of the source, and upon_error of an item. */
    method SetError(a: nat)
      requires Ready(Event.CompareExchange(a))
      modifies this
      ensures Inv(Model()) && actors == old(actors)[a := Released] && refCounter == old(refCounter) - 1 && stopRequested
      ensures old(completionType) == 0 ==> completionType == 2 && error == Some(old(actors[a].error))
      ensures old(completionType) != 0 ==> completionType == old(completionType) && error == old(error)
      ensures delivered == if old(refCounter) == 1 then old(delivered) + Delivery(Model()) else old(delivered)
    {
      RecordError(a);
      RequestStop(a);
      Release(a);
    }

    /** operation_base::set_error */
    method RecordError(a: nat)
      requires Ready(Event.CompareExchange(a))
      modifies this
      ensures Inv(Model()) && At(Model(), a) && actors == old(actors)[a := Stopping]
      ensures refCounter == old(refCounter) && delivered == old(delivered)
      ensures old(completionType) == 0 ==> completionType == 2 && error == Some(old(actors[a].error))
      ensures old(completionType) != 0 ==> completionType == old(completionType) && error == old(error)
    {
      var won := CompareExchange(a);
      if won {
        Emplace(a);
        Publish(a);
      }
    }
  }
}
