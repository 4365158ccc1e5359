/** The combining lock of source/sio/async_mutex.hpp.

    Every call of lock_operation::start is one activation and stands for one lock request.  Each
    atomic access of `locked_` or of the inflight queue is one step; activations interleave freely.
    A start() made from inside a completion must return before that completion goes on. */
module MutexProtocol {

  // ----- State -------------------------------------------------------------------------------

  datatype Phase =
    | NotStarted
    | AtExchange                          // the compare-exchange on locked_ is next
    | AtPopAll                            // holds the lock; pop_all is next
    | AtBatch(batch: seq<nat>)            // holds the lock and a local batch, not empty
    | Completing(op: nat, rest: seq<nat>) // holds the lock; op's completion is running
    | AtRelease                           // holds the lock; the store of false is next
    | AtRecheck                           // released; the emptiness test is next
    | Returned

  datatype State = State(
    locked: bool,            // locked_
    inflight: seq<nat>,      // inflight_operations_, newest first
    acts: seq<Phase>,        // one per request
    hosts: seq<int>,         // the activation whose completion started this one, or -1
    completed: seq<nat>)     // requests completed, in order

  datatype Event =
    | Push(i: nat, host: int)               // start() up to push_front; host -1 when not nested
    | Exchange(i: nat)
    | PopAll(i: nat, batch: seq<nat>)
    | BeginComplete(i: nat)
    | EndComplete(i: nat)
    | Release(i: nat)
    | Recheck(i: nat)

  function Init(n: nat): State
  {
    State(false, [], seq(n, _ => NotStarted), seq(n, _ => -1), [])
  }

  // ----- Steps -------------------------------------------------------------------------------

  predicate Holds(p: Phase)
  {
    p.AtPopAll? || p.AtBatch? || p.Completing? || p.AtRelease?
  }

  /** Activation j runs inside the completion that activation i is running, and has not returned. */
  predicate NestedIn(s: State, j: nat, i: nat)
  {
    j < |s.acts| && j < |s.hosts| && s.hosts[j] == i && s.acts[j] != NotStarted && s.acts[j] != Returned
  }

  predicate Enabled(s: State, e: Event)
  {
    e.i < |s.acts| == |s.hosts| &&
    var p := s.acts[e.i];
    match e
    case Push(_, h) => p.NotStarted? && (h == -1 || (0 <= h < |s.acts| && s.acts[h].Completing?))
    case Exchange(_) => p.AtExchange?
    // pop_all takes everything at once; in which order the batch lists it is left open
    case PopAll(_, b) => p.AtPopAll? && multiset(b) == multiset(s.inflight)
    case BeginComplete(_) => p.AtBatch? && p.batch != []
    case EndComplete(_) => p.Completing? && forall j | 0 <= j < |s.acts| :: !NestedIn(s, j, e.i)
    case Release(_) => p.AtRelease?
    case Recheck(_) => p.AtRecheck?
  }

  function Goto(s: State, i: nat, p: Phase): State
    requires i < |s.acts|
  {
    s.(acts := s.acts[i := p])
  }

  function AfterBatch(rest: seq<nat>): Phase
  {
    if rest == [] then AtPopAll else AtBatch(rest)
  }

  function Step(s: State, e: Event): State
    requires Enabled(s, e)
  {
    match e
    case Push(i, h) => Goto(s, i, AtExchange).(inflight := [i] + s.inflight, hosts := s.hosts[i := h])
    case Exchange(i) => if s.locked then Goto(s, i, Returned) else Goto(s, i, AtPopAll).(locked := true)
    case PopAll(i, b) => Goto(s, i, if b == [] then AtRelease else AtBatch(b)).(inflight := [])
    case BeginComplete(i) => Goto(s, i, Completing(s.acts[i].batch[0], s.acts[i].batch[1..]))
    case EndComplete(i) => Goto(s, i, AfterBatch(s.acts[i].rest)).(completed := s.completed + [s.acts[i].op])
    case Release(i) => Goto(s, i, AtRecheck).(locked := false)
    case Recheck(i) => Goto(s, i, if s.inflight == [] then Returned else AtExchange)
  }

  // ----- Invariant ---------------------------------------------------------------------------

  /** How often activation phase p holds request r. */
  function Local(p: Phase, r: nat): nat
  {
    match p
    case AtBatch(b) => multiset(b)[r]
    case Completing(op, rest) => (if op == r then 1 else 0) + multiset(rest)[r]
    case _ => 0
  }

  function AllLocal(acts: seq<Phase>, r: nat): nat
  {
    if acts == [] then 0 else Local(acts[0], r) + AllLocal(acts[1..], r)
  }

  predicate Pushed(s: State, r: nat)
  {
    r < |s.acts| && s.acts[r] != NotStarted
  }

  /** In how many places request r is: inflight, a local batch, running, or completed. */
  function Places(s: State, r: nat): nat
  {
    multiset(s.inflight)[r] + AllLocal(s.acts, r) + multiset(s.completed)[r]
  }

  /** Every pushed request is in exactly one place. */
  ghost predicate Conservation(s: State)
  {
    forall r: nat :: Places(s, r) == if Pushed(s, r) then 1 else 0
  }

  ghost predicate MutualExclusion(s: State)
  {
    && (forall i, j | 0 <= i < j < |s.acts| :: !(Holds(s.acts[i]) && Holds(s.acts[j])))
    && (s.locked <==> exists i :: 0 <= i < |s.acts| && Holds(s.acts[i]))
    && (forall i | 0 <= i < |s.acts| && s.acts[i].AtBatch? :: s.acts[i].batch != [])
  }

  /** An activation that will look at the inflight queue again. */
  predicate Attends(p: Phase)
  {
    Holds(p) || p.AtExchange? || p.AtRecheck?
  }

  ghost predicate NoLostRequest(s: State)
  {
    s.inflight != [] ==> exists i :: 0 <= i < |s.acts| && Attends(s.acts[i])
  }

  /** A nested start() never gets past its compare-exchange. */
  ghost predicate NestedLoses(s: State)
  {
    && |s.hosts| == |s.acts|
    && forall j | 0 <= j < |s.acts| && s.hosts[j] != -1 ::
         s.acts[j].Returned?
         || (s.acts[j].AtExchange? && 0 <= s.hosts[j] < |s.acts| && s.acts[s.hosts[j]].Completing?)
  }

  ghost predicate Inv(s: State)
  {
    Conservation(s) && MutualExclusion(s) && NoLostRequest(s) && NestedLoses(s)
  }

  // ----- Every step keeps the invariant ------------------------------------------------------

  lemma {:induction false} AllLocalSet(acts: seq<Phase>, i: nat, p: Phase, r: nat)
    requires i < |acts|
    ensures AllLocal(acts[i := p], r) + Local(acts[i], r) == AllLocal(acts, r) + Local(p, r)
  {
    if i == 0 {
      assert acts[i := p][1..] == acts[1..];
    } else {
      AllLocalSet(acts[1..], i - 1, p, r);
      assert acts[i := p][1..] == acts[1..][i - 1 := p];
    }
  }

  /** Request r in the queue, in the hands of activation phase p, and completed. */
  function Here(inflight: seq<nat>, p: Phase, completed: seq<nat>, r: nat): nat
  {
    multiset(inflight)[r] + Local(p, r) + multiset(completed)[r]
  }

  lemma BatchKeepsRequest(s: State, e: Event, r: nat)
    requires Enabled(s, e) && (e.BeginComplete? || e.EndComplete?)
    ensures var t := Step(s, e);
            Here(t.inflight, t.acts[e.i], t.completed, r) == Here(s.inflight, s.acts[e.i], s.completed, r)
  {
    if e.BeginComplete? { CountSplit(s.acts[e.i].batch, r); } else { CountSnoc(s.completed, s.acts[e.i].op, r); }
  }

  lemma QueueKeepsRequest(s: State, e: Event, r: nat)
    requires Enabled(s, e) && (e.Push? || e.PopAll?)
    ensures var t := Step(s, e);
            Here(t.inflight, t.acts[e.i], t.completed, r)
            == Here(s.inflight, s.acts[e.i], s.completed, r) + if e.Push? && e.i == r then 1 else 0
  {
    if e.Push? { CountCons(e.i, s.inflight, r); }
  }

  lemma LockKeepsRequest(s: State, e: Event, r: nat)
    requires Enabled(s, e) && (e.Exchange? || e.Release? || e.Recheck?)
    ensures var t := Step(s, e);
            Here(t.inflight, t.acts[e.i], t.completed, r) == Here(s.inflight, s.acts[e.i], s.completed, r)
  {}

  lemma CountCons(x: nat, xs: seq<nat>, r: nat)
    ensures multiset([x] + xs)[r] == (if x == r then 1 else 0) + multiset(xs)[r]
  {}

  lemma CountSnoc(xs: seq<nat>, x: nat, r: nat)
    ensures multiset(xs + [x])[r] == multiset(xs)[r] + if x == r then 1 else 0
  {}

  lemma CountSplit(xs: seq<nat>, r: nat)
    requires xs != []
    ensures multiset(xs)[r] == (if xs[0] == r then 1 else 0) + multiset(xs[1..])[r]
  {
    assert xs == [xs[0]] + xs[1..];
  }

  lemma StepKeepsPlaces(s: State, e: Event, r: nat)
    requires Enabled(s, e)
    ensures Places(Step(s, e), r) == Places(s, r) + if e.Push? && e.i == r then 1 else 0
  {
    var p := Step(s, e).acts[e.i];
    AllLocalSet(s.acts, e.i, p, r);
    if e.BeginComplete? || e.EndComplete? { BatchKeepsRequest(s, e, r); }
    else if e.Push? || e.PopAll? { QueueKeepsRequest(s, e, r); }
    else { LockKeepsRequest(s, e, r); }
  }

  lemma StepKeepsConservation(s: State, e: Event)
    requires Inv(s) && Enabled(s, e)
    ensures Conservation(Step(s, e))
  {
    forall r: nat ensures Places(Step(s, e), r) == if Pushed(Step(s, e), r) then 1 else 0 {
      StepKeepsPlaces(s, e, r);
      assert Places(s, r) == if Pushed(s, r) then 1 else 0;
    }
  }

  lemma StepKeepsExclusion(s: State, e: Event)
    requires Inv(s) && Enabled(s, e)
    ensures MutualExclusion(Step(s, e))
  {
    var s' := Step(s, e);
    if Holds(s'.acts[e.i]) {
      assert s'.locked;
    } else if s.locked && !Holds(s.acts[e.i]) {
      var i :| 0 <= i < |s.acts| && Holds(s.acts[i]);
      assert Holds(s'.acts[i]);
    }
    assert e.PopAll? && e.batch != [] ==> s'.acts[e.i].batch == e.batch;
  }

  lemma StepKeepsRequests(s: State, e: Event)
    requires Inv(s) && Enabled(s, e)
    ensures NoLostRequest(Step(s, e))
  {
    var s' := Step(s, e);
    if s'.inflight != [] {
      if Attends(s'.acts[e.i]) {
      } else if e.Exchange? {
        var i :| 0 <= i < |s.acts| && Holds(s.acts[i]);
        assert Attends(s'.acts[i]);
      }
    }
  }

  lemma StepKeepsNesting(s: State, e: Event)
    requires Inv(s) && Enabled(s, e)
    ensures NestedLoses(Step(s, e))
  {
    var s' := Step(s, e);
    forall j | 0 <= j < |s.acts| && s'.hosts[j] != -1
      ensures s'.acts[j].Returned?
        || (s'.acts[j].AtExchange? && 0 <= s'.hosts[j] < |s.acts| && s'.acts[s'.hosts[j]].Completing?)
    {
      if !(e.Push? && e.i == j) && !s.acts[j].Returned? {
        var h := s.hosts[j];
        assert NestedIn(s, j, h);
        assert Holds(s.acts[h]) && s.locked;
      }
    }
  }

  lemma StepKeepsInv(s: State, e: Event)
    requires Inv(s) && Enabled(s, e)
    ensures Inv(Step(s, e))
  {
    StepKeepsConservation(s, e);
    StepKeepsExclusion(s, e);
    StepKeepsRequests(s, e);
    StepKeepsNesting(s, e);
  }

  lemma InitInv(n: nat)
    ensures Inv(Init(n))
  {
    forall r: nat ensures Places(Init(n), r) == 0 { NoneLocal(Init(n).acts, r); }
  }

  lemma {:induction false} NoneLocal(acts: seq<Phase>, r: nat)
    requires forall i | 0 <= i < |acts| :: acts[i] == NotStarted || acts[i] == Returned
    ensures AllLocal(acts, r) == 0
  {
    if acts != [] { NoneLocal(acts[1..], r); }
  }

  // ----- Runs --------------------------------------------------------------------------------

  ghost predicate Run(s: State, es: seq<Event>, t: State)
    decreases |es|
  {
    if es == [] then s == t else Enabled(s, es[0]) && Run(Step(s, es[0]), es[1..], t)
  }

  lemma {:induction false} RunKeepsInv(s: State, es: seq<Event>, t: State)
    requires Inv(s) && Run(s, es, t)
    ensures Inv(t) && |t.acts| == |s.acts|
    decreases |es|
  {
    if es != [] {
      StepKeepsInv(s, es[0]);
      RunKeepsInv(Step(s, es[0]), es[1..], t);
    }
  }

  // ----- Main results ------------------------------------------------------------------------

  /** No completion is run twice, and only requests that were pushed are completed. */
  lemma CompletedAtMostOnce(n: nat, es: seq<Event>, t: State)
    requires Run(Init(n), es, t)
    ensures forall i, j | 0 <= i < j < |t.completed| :: t.completed[i] != t.completed[j]
    ensures |t.acts| == n
    ensures forall r | r in t.completed :: r < n && r !in t.inflight && t.acts[r] != NotStarted
  {
    InitInv(n);
    RunKeepsInv(Init(n), es, t);
    forall r: nat ensures multiset(t.completed)[r] <= 1 { assert Places(t, r) <= 1; }
    forall i, j | 0 <= i < j < |t.completed| ensures t.completed[i] != t.completed[j] {
      if t.completed[i] == t.completed[j] { TwiceCounts(t.completed, i, j); }
    }
    forall r | r in t.completed ensures Pushed(t, r) && r !in t.inflight {
      assert multiset(t.completed)[r] >= 1 && (r in t.inflight ==> multiset(t.inflight)[r] >= 1);
      assert Places(t, r) >= 1;
    }
  }

  lemma TwiceCounts(xs: seq<nat>, i: nat, j: nat)
    requires i < j < |xs| && xs[i] == xs[j]
    ensures multiset(xs)[xs[i]] >= 2
  {
    assert xs == xs[..j] + [xs[j]] + xs[j + 1..];
    assert xs[i] in xs[..j];
  }

  /** In every run at most one completion runs at a time, and the lock is held while it runs. */
  lemma OneCompletionAtATime(n: nat, es: seq<Event>, s: State, i: nat, j: nat)
    requires Run(Init(n), es, s) && i < |s.acts| && j < |s.acts|
    requires s.acts[i].Completing? && Holds(s.acts[j])
    ensures i == j && s.locked
  {
    InitInv(n);
    RunKeepsInv(Init(n), es, s);
  }

  /** The activation from whose completion the start() of activation j was made, or -1. */
  function HostOf(es: seq<Event>, j: nat): int
  {
    if es == [] then -1
    else if es[0].Push? && es[0].i == j then es[0].host
    else HostOf(es[1..], j)
  }

  lemma {:induction false} RunHosts(s: State, es: seq<Event>, t: State, j: nat)
    requires Run(s, es, t) && j < |s.acts| == |s.hosts|
    ensures |t.acts| == |t.hosts| == |s.acts|
    ensures s.acts[j] != NotStarted ==> t.acts[j] != NotStarted && t.hosts[j] == s.hosts[j]
    ensures s.acts[j] == NotStarted ==> t.hosts[j] == if t.acts[j] == NotStarted then s.hosts[j] else HostOf(es, j)
    decreases |es|
  {
    if es != [] { RunHosts(Step(s, es[0]), es[1..], t, j); }
  }

  /** A start() made from inside a completion loses its compare-exchange and returns at once, while that
      completion is still running. */
  lemma NestedStartReturns(n: nat, es: seq<Event>, s: State, j: nat)
    requires Run(Init(n), es, s) && j < |s.acts| && s.acts[j] != NotStarted && s.acts[j] != Returned
    requires HostOf(es, j) != -1
    ensures |s.acts| == |s.hosts| == n && 0 <= HostOf(es, j) < n && s.acts[HostOf(es, j)].Completing?
    ensures Enabled(s, Exchange(j)) && Step(s, Exchange(j)).acts[j] == Returned
    ensures Step(s, Exchange(j)).completed == s.completed && Step(s, Exchange(j)).locked
  {
    InitInv(n);
    RunKeepsInv(Init(n), es, s);
    RunHosts(Init(n), es, s, j);
    assert Holds(s.acts[s.hosts[j]]);
  }

  /** When every activation has returned, the lock is free and every request was completed once. */
  lemma AllReturnedMeansAllCompleted(n: nat, es: seq<Event>, t: State)
    requires Run(Init(n), es, t) && forall i | 0 <= i < |t.acts| :: t.acts[i] == Returned
    ensures !t.locked && t.inflight == []
    ensures forall r: nat :: multiset(t.completed)[r] == if r < n then 1 else 0
  {
    InitInv(n);
    RunKeepsInv(Init(n), es, t);
    forall r: nat ensures multiset(t.completed)[r] == if r < n then 1 else 0 {
      NoneLocal(t.acts, r);
      assert Places(t, r) == if r < n then 1 else 0;
    }
  }

  // ----- Termination -------------------------------------------------------------------------

  /** How far phase p is from returning while nothing is pushed and nothing more is popped. */
  function Rank(p: Phase, empty: bool): nat
  {
    match p
    case NotStarted => 0
    case AtExchange => if empty then 4 else 2
    case AtPopAll => if empty then 3 else 1
    case AtBatch(b) => 2 * |b| + 3
    case Completing(_, rest) => 2 * |rest| + 4
    case AtRelease => if empty then 2 else 4
    case AtRecheck => if empty then 1 else 3
    case Returned => 0
  }

  function Ranks(acts: seq<Phase>, empty: bool): nat
  {
    if acts == [] then 0 else Rank(acts[0], empty) + Ranks(acts[1..], empty)
  }

  function Unpushed(acts: seq<Phase>): nat
  {
    if acts == [] then 0 else (if acts[0] == NotStarted then 1 else 0) + Unpushed(acts[1..])
  }

  lemma {:induction false} RanksSet(acts: seq<Phase>, i: nat, p: Phase, empty: bool)
    requires i < |acts|
    ensures Ranks(acts[i := p], empty) + Rank(acts[i], empty) == Ranks(acts, empty) + Rank(p, empty)
    ensures Unpushed(acts[i := p]) + (if acts[i] == NotStarted then 1 else 0)
         == Unpushed(acts) + (if p == NotStarted then 1 else 0)
  {
    if i == 0 {
      assert acts[i := p][1..] == acts[1..];
    } else {
      RanksSet(acts[1..], i - 1, p, empty);
      assert acts[i := p][1..] == acts[1..][i - 1 := p];
    }
  }

  /** Requests not pushed, then requests inflight, then the ranks of all activations. */
  ghost predicate Smaller(t: State, s: State)
  {
    || Unpushed(t.acts) < Unpushed(s.acts)
    || (Unpushed(t.acts) == Unpushed(s.acts) && |t.inflight| < |s.inflight|)
    || (Unpushed(t.acts) == Unpushed(s.acts) && |t.inflight| == |s.inflight|
        && Ranks(t.acts, t.inflight == []) < Ranks(s.acts, s.inflight == []))
  }

  lemma EveryStepDescends(s: State, e: Event)
    requires Inv(s) && Enabled(s, e)
    ensures Smaller(Step(s, e), s)
  {
    var s' := Step(s, e);
    RanksSet(s.acts, e.i, s'.acts[e.i], s.inflight == []);
    if e.PopAll? { assert |e.batch| == |multiset(e.batch)| && |s.inflight| == |multiset(s.inflight)|; }
  }

  /** No schedule runs for ever. */
  lemma EveryRunEnds(f: nat -> State)
    requires Inv(f(0))
    ensures exists k :: !Moves(f, k)
  {
    if forall k :: Moves(f, k) { NoEndlessRun(f, 0); }
  }

  ghost predicate Moves(f: nat -> State, k: nat)
  {
    exists e :: Enabled(f(k), e) && f(k + 1) == Step(f(k), e)
  }

  lemma {:induction false} NoEndlessRun(f: nat -> State, k: nat)
    requires Inv(f(k)) && forall j :: Moves(f, j)
    ensures false
    decreases Unpushed(f(k).acts), |f(k).inflight|, Ranks(f(k).acts, f(k).inflight == [])
  {
    assert Moves(f, k);
    var e :| Enabled(f(k), e) && f(k + 1) == Step(f(k), e);
    StepKeepsInv(f(k), e);
    EveryStepDescends(f(k), e);
    NoEndlessRun(f, k + 1);
  }

  /** The event an activation performs next. */
  function NextOf(s: State, i: nat): Event
    requires i < |s.acts| && s.acts[i] != NotStarted && s.acts[i] != Returned
  {
    match s.acts[i]
    case AtExchange => Exchange(i)
    case AtPopAll => PopAll(i, s.inflight)
    case AtBatch(_) => BeginComplete(i)
    case Completing(_, _) => EndComplete(i)
    case AtRelease => Release(i)
    case AtRecheck => Recheck(i)
  }

  /** Nothing deadlocks: an activation under way can move, or a start() nested in it can. */
  lemma SomeoneCanMove(n: nat, es: seq<Event>, s: State, i: nat)
    requires Run(Init(n), es, s) && i < |s.acts| && s.acts[i] != NotStarted && s.acts[i] != Returned
    ensures exists j :: 0 <= j < |s.acts| && s.acts[j] != NotStarted && s.acts[j] != Returned
                        && Enabled(s, NextOf(s, j))
  {
    InitInv(n);
    RunKeepsInv(Init(n), es, s);
    if !Enabled(s, NextOf(s, i)) {
      var j :| 0 <= j < |s.acts| && NestedIn(s, j, i);
      assert s.hosts[j] != -1 && s.acts[j].AtExchange?;
      assert Enabled(s, NextOf(s, j));
    }
  }

  /** A schedule that cannot go on has completed every request pushed, and the lock is free. */
  lemma StuckMeansAllCompleted(n: nat, es: seq<Event>, t: State)
    requires Run(Init(n), es, t) && forall e :: !Enabled(t, e)
    ensures !t.locked && t.inflight == []
    ensures forall r: nat :: multiset(t.completed)[r] == if r < n then 1 else 0
  {
    InitInv(n);
    RunKeepsInv(Init(n), es, t);
    forall i | 0 <= i < n ensures t.acts[i] == Returned {
      if t.acts[i] == NotStarted {
        assert Enabled(t, Push(i, -1));
      } else if t.acts[i] != Returned {
        SomeoneCanMove(n, es, t, i);
      }
    }
    AllReturnedMeansAllCompleted(n, es, t);
  }
}

/** The lock, updated in place: each method up to Recheck is one atomic operation, Start is
    lock_operation::start as it runs when no other activation moves. */
module AsyncMutex {
  import opened MutexProtocol

  class Mutex {
    var locked: bool
    var inflight: seq<nat>
    var acts: seq<Phase>
    var hosts: seq<int>
    var completed: seq<nat>

    function Model(): State
      reads this
    {
      State(locked, inflight, acts, hosts, completed)
    }

    ghost predicate Ready(e: Event)
      reads this
    {
      Inv(Model()) && Enabled(Model(), e)
    }

    /** One step was made; it kept the invariant and brought the loop closer to its end. */
    twostate predicate Took(e: Event)
      requires old(Ready(e))
      reads this
    {
      Model() == Step(old(Model()), e) && Inv(Model()) && Smaller(Model(), old(Model()))
    }

    constructor (n: nat)
      ensures Model() == Init(n) && Inv(Model())
    {
      locked, inflight, acts, hosts, completed := false, [], seq(n, _ => NotStarted), seq(n, _ => -1), [];
      new;
      InitInv(n);
    }

    /** inflight_operations_.push_front */
    method PushFront(i: nat, host: int)
      requires Ready(Push(i, host))
      modifies this
      ensures Took(Push(i, host))
    {
      StepKeepsInv(Model(), Push(i, host));
      EveryStepDescends(Model(), Push(i, host));
      inflight := [i] + inflight;
      hosts := hosts[i := host];
      acts := acts[i := AtExchange];
    }

    /** locked_.compare_exchange_strong(false, true) */
    method CompareExchange(i: nat) returns (won: bool)
      requires Ready(Exchange(i))
      modifies this
      ensures Took(Exchange(i)) && won == !old(locked)
    {
      StepKeepsInv(Model(), Exchange(i));
      EveryStepDescends(Model(), Exchange(i));
      won := !locked;
      if won {
        locked := true;
        acts := acts[i := AtPopAll];
      } else {
        acts := acts[i := Returned];
      }
    }

    /** inflight_operations_.pop_all */
    method PopAll(i: nat)
      requires i < |acts| == |hosts| && acts[i].AtPopAll? && Inv(Model())
      modifies this
      ensures Took(Event.PopAll(i, old(inflight)))
    {
      StepKeepsInv(Model(), Event.PopAll(i, inflight));
      EveryStepDescends(Model(), Event.PopAll(i, inflight));
      acts := acts[i := if inflight == [] then AtRelease else AtBatch(inflight)];
      inflight := [];
    }

    /** pending_ops.pop_front, and the call of its completion */
    method BeginComplete(i: nat)
      requires Ready(Event.BeginComplete(i))
      modifies this
      ensures Took(Event.BeginComplete(i))
    {
      StepKeepsInv(Model(), Event.BeginComplete(i));
      EveryStepDescends(Model(), Event.BeginComplete(i));
      acts := acts[i := Completing(acts[i].batch[0], acts[i].batch[1..])];
    }

    /** the completion returns */
    method EndComplete(i: nat)
      requires Ready(Event.EndComplete(i))
      modifies this
      ensures Took(Event.EndComplete(i))
    {
      StepKeepsInv(Model(), Event.EndComplete(i));
      EveryStepDescends(Model(), Event.EndComplete(i));
      completed := completed + [acts[i].op];
      acts := acts[i := if acts[i].rest == [] then AtPopAll else AtBatch(acts[i].rest)];
    }

    /** locked_.store(false) */
    method Release(i: nat)
      requires Ready(Event.Release(i))
      modifies this
      ensures Took(Event.Release(i))
    {
      StepKeepsInv(Model(), Event.Release(i));
      EveryStepDescends(Model(), Event.Release(i));
      locked := false;
      acts := acts[i := AtRecheck];
    }

    /** inflight_operations_.empty */
    method Recheck(i: nat) returns (again: bool)
      requires Ready(Event.Recheck(i))
      modifies this
      ensures Took(Event.Recheck(i)) && again == (old(inflight) != [])
    {
      StepKeepsInv(Model(), Event.Recheck(i));
      EveryStepDescends(Model(), Event.Recheck(i));
      again := inflight != [];
      acts := acts[i := if again then AtExchange else Returned];
    }

    /** Every start() made inside a completion of activation i has returned. */
    ghost predicate NoneNested(i: nat)
      reads this
    {
      forall j | 0 <= j < |acts| :: !NestedIn(Model(), j, i)
    }

    /** Requests that are inflight, in the hands of activation i, or completed. */
    ghost function Requests(i: nat, r: nat): nat
      requires i < |acts|
      reads this
    {
      Here(inflight, acts[i], completed, r)
    }

    twostate predicate OthersStay(i: nat)
      reads this
    {
      && |acts| == |old(acts)| && hosts == old(hosts)
      && (forall j | 0 <= j < |acts| && j != i :: acts[j] == old(acts[j]))
    }

    method CompleteOne(i: nat)
      requires Ready(Event.BeginComplete(i)) && NoneNested(i)
      modifies this
      ensures Inv(Model()) && OthersStay(i) && Smaller(Model(), old(Model()))
      ensures locked == old(locked) && inflight == old(inflight)
      ensures acts[i] == AfterBatch(old(acts[i].batch)[1..]) && completed == old(completed) + [old(acts[i].batch)[0]]
      ensures NoneNested(i) && forall r: nat :: Requests(i, r) == old(Requests(i, r))
    {
      assert acts[i].batch == [acts[i].batch[0]] + acts[i].batch[1..];
      BeginComplete(i);
      EndComplete(i);
    }

    /** Activation i, holding the lock throughout, has completed requests or taken some over. */
    twostate predicate WorkedOn(i: nat)
      requires i < |old(acts)|
      reads this
    {
      && Inv(Model()) && OthersStay(i) && NoneNested(i) && locked == old(locked)
      && (forall r: nat :: Requests(i, r) == old(Requests(i, r)))
      && Smaller(Model(), old(Model()))
    }

    method PopBatch(i: nat)
      requires Inv(Model()) && i < |acts| && acts[i].AtPopAll?
      modifies this
      ensures WorkedOn(i) && (acts[i].AtBatch? || acts[i] == AtRelease)
    {
      NoneHosted(Model(), i);
      PopAll(i);
    }

    /** The do-while loop over one batch. */
    method CompleteBatch(i: nat)
      requires Inv(Model()) && i < |acts| && acts[i].AtBatch? && NoneNested(i)
      modifies this
      ensures WorkedOn(i) && acts[i].AtPopAll?
    {
      CompleteOne(i);
      while acts[i].AtBatch?
        invariant WorkedOn(i) && (acts[i].AtBatch? || acts[i].AtPopAll?)
        decreases if acts[i].AtBatch? then |acts[i].batch| else 0
      {
        CompleteOne(i);
      }
    }

    method NextBatch(i: nat)
      requires Inv(Model()) && i < |acts| && acts[i].AtBatch? && NoneNested(i)
      modifies this
      ensures WorkedOn(i) && (acts[i].AtBatch? || acts[i] == AtRelease)
    {
      CompleteBatch(i);
      PopBatch(i);
    }

    /** The loops inside start(): batch after batch until a pop finds nothing. */
    method DrainBatches(i: nat)
      requires Inv(Model()) && i < |acts| && acts[i].AtPopAll?
      modifies this
      ensures WorkedOn(i) && acts[i] == AtRelease
    {
      PopBatch(i);
      while acts[i].AtBatch?
        invariant WorkedOn(i) && (acts[i].AtBatch? || acts[i] == AtRelease)
        decreases Unpushed(acts), |inflight|, Ranks(acts, inflight == [])
      {
        NextBatch(i);
      }
    }

    /** Once round the outer loop, the lock held: true if new requests came in the meantime. */
    method Turn(i: nat) returns (again: bool)
      requires Inv(Model()) && i < |acts| && acts[i].AtPopAll?
      modifies this
      ensures Inv(Model()) && OthersStay(i) && Smaller(Model(), old(Model())) && !locked
      ensures again <==> inflight != []
      ensures acts[i] == if again then AtExchange else Returned
      ensures forall r: nat :: Requests(i, r) == old(Requests(i, r))
    {
      DrainBatches(i);
      Release(i);
      again := Recheck(i);
    }

    /** lock_operation::start: returns at once when the lock is held, and otherwise leaves the lock free,
        the queue empty and every request that was inflight completed, its own included. */
    method Start(i: nat)
      requires Ready(Push(i, -1))
      modifies this
      ensures Inv(Model()) && OthersStay(i) && acts[i] == Returned
      ensures old(locked) ==> locked && inflight == [i] + old(inflight) && completed == old(completed)
      ensures !old(locked) ==> !locked && inflight == []
      ensures !old(locked) ==> forall r: nat ::
                multiset(completed)[r] == multiset(old(completed))[r] + multiset([i] + old(inflight))[r]
    {
      var won := Enter(i);
      label entered:
      if won {
        Combine(i);
        AllCompleted@entered(i);
      }
    }

    /** start() up to the first test of the loop. */
    method Enter(i: nat) returns (won: bool)
      requires Ready(Push(i, -1))
      modifies this
      ensures Inv(Model()) && OthersStay(i) && locked && won == !old(locked)
      ensures inflight == [i] + old(inflight) && completed == old(completed)
      ensures acts[i] == if won then AtPopAll else Returned
    {
      PushFront(i, -1);
      won := CompareExchange(i);
    }

    /** Once round the outer loop and, unless it breaks, the exchange that begins the next round. */
    method Round(i: nat) returns (won: bool)
      requires Inv(Model()) && i < |acts| && acts[i].AtPopAll?
      modifies this
      ensures Inv(Model()) && OthersStay(i) && Smaller(Model(), old(Model()))
      ensures acts[i] == if won then AtPopAll else Returned
      ensures !won ==> !locked && inflight == []
      ensures forall r: nat :: Requests(i, r) == old(Requests(i, r))
    {
      won := Turn(i);
      if won {
        won := CompareExchange(i);
      }
    }

    /** The outer loop, entered with the lock. */
    method Combine(i: nat)
      requires Inv(Model()) && i < |acts| && acts[i].AtPopAll?
      modifies this
      ensures Inv(Model()) && OthersStay(i) && acts[i] == Returned && !locked && inflight == []
      ensures forall r: nat :: Requests(i, r) == old(Requests(i, r))
    {
      var won := Round(i);
      while won
        invariant Inv(Model()) && OthersStay(i) && acts[i] == (if won then AtPopAll else Returned)
        invariant !won ==> !locked && inflight == []
        invariant forall r: nat :: Requests(i, r) == old(Requests(i, r))
        decreases Unpushed(acts), |inflight|, Ranks(acts, inflight == [])
      {
        won := Round(i);
      }
    }

    /** With nothing inflight and no batch, all requests are completed ones. */
    twostate lemma AllCompleted(i: nat)
      requires i < |old(acts)| && old(acts[i]).AtPopAll?
      requires i < |acts| && acts[i] == Returned && inflight == []
      requires forall r: nat :: Requests(i, r) == old(Requests(i, r))
      ensures forall r: nat :: multiset(completed)[r] == multiset(old(completed))[r] + multiset(old(inflight))[r]
    {
      forall r: nat ensures multiset(completed)[r] == multiset(old(completed))[r] + multiset(old(inflight))[r] {
        assert Requests(i, r) == old(Requests(i, r));
      }
    }
  }

  /** Only an activation that runs a completion has a start() nested in it. */
  lemma NoneHosted(s: State, i: nat)
    requires Inv(s) && i < |s.acts| && !s.acts[i].Completing?
    ensures forall j | 0 <= j < |s.acts| :: !NestedIn(s, j, i)
  {}
}
