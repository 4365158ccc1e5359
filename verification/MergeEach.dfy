/** The join protocol of `merge_each` (source/sio/sequence/merge_each.hpp): N child sequences, a
    countdown of children still pending and one error slot guarded by a compare-exchange.
    Each atomic operation of the source is one step; steps of different children interleave freely. */
module MergeProtocol {
  import opened Wrappers

  // ----- State -------------------------------------------------------------------------------

  /** Where the completion of one child stands. */
  datatype Child<E> =
    | Waiting             // start() has not reached it
    | Running
    | Raising(error: E)   // set_error: the compare-exchange 0 -> 1 is next
    | Placing(error: E)   // won it: the slot is written next
    | Publishing          // the store of 2 is next
    | Stopping            // request_stop is next
    | Finishing           // complete(): fetch_sub is next
    | Delivering          // was last: loads error_emplaced_ and completes downstream next
    | Done

  datatype Outcome<E> = Failed(error: E) | Values

  datatype State<E> = State(
    children: seq<Child<E>>,
    pending: int,               // n_pending_ops_
    emplaced: int,              // error_emplaced_
    slot: Option<E>,            // errors_
    stopRequested: bool,        // stop_source_
    delivered: seq<Outcome<E>>, // downstream completions
    // history
    winner: Option<E>,          // the error whose compare-exchange succeeded
    raised: seq<E>)             // every error a child completed with

  datatype Event<E> =
    | Launch(c: nat)
    | EndValue(c: nat)
    | EndStopped(c: nat)
    | EndError(c: nat, error: E)
    | CompareExchange(c: nat)
    | Emplace(c: nat)
    | Publish(c: nat)
    | RequestStop(c: nat)
    | CountDown(c: nat)
    | Deliver(c: nat)

  function Init<E>(n: nat): State<E>
  {
    State(seq(n, _ => Waiting), n, 0, None, false, [], None, [])
  }

  // ----- Steps -------------------------------------------------------------------------------

  predicate Enabled<E>(s: State<E>, e: Event<E>)
  {
    e.c < |s.children| &&
    var p := s.children[e.c];
    match e
    case Launch(_) => p.Waiting?
    case EndValue(_) => p.Running?
    case EndStopped(_) => p.Running?
    case EndError(_, _) => p.Running?
    case CompareExchange(_) => p.Raising?
    case Emplace(_) => p.Placing?
    case Publish(_) => p.Publishing?
    case RequestStop(_) => p.Stopping?
    case CountDown(_) => p.Finishing?
    case Deliver(_) => p.Delivering?
  }

  function Goto<E>(s: State<E>, c: nat, p: Child<E>): State<E>
    requires c < |s.children|
  {
    s.(children := s.children[c := p])
  }

  function Step<E>(s: State<E>, e: Event<E>): State<E>
    requires Enabled(s, e)
  {
    match e
    case Launch(c) => Goto(s, c, Running)
    case EndValue(c) => Goto(s, c, Finishing)
    case EndStopped(c) => Goto(s, c, Stopping)
    case EndError(c, err) => Goto(s, c, Raising(err)).(raised := s.raised + [err])
    case CompareExchange(c) =>
      if s.emplaced == 0
      then Goto(s, c, Placing(s.children[c].error)).(emplaced := 1, winner := Some(s.children[c].error))
      else Goto(s, c, Stopping)
    case Emplace(c) => Goto(s, c, Publishing).(slot := Some(s.children[c].error))
    case Publish(c) => Goto(s, c, Stopping).(emplaced := 2)
    case RequestStop(c) => Goto(s, c, Finishing).(stopRequested := true)
    case CountDown(c) => Goto(s, c, if s.pending == 1 then Delivering else Done).(pending := s.pending - 1)
    case Deliver(c) => Goto(s, c, Done).(delivered := s.delivered + Delivery(s))
  }

  /** complete(): a published error wins, anything else is a value completion. A half-written slot
      would be delivered as a value; that this never happens is proved below. */
  function Delivery<E>(s: State<E>): seq<Outcome<E>>
  {
    if s.emplaced == 2 then (if s.slot.Some? then [Failed(s.slot.value)] else []) else [Values]
  }

  // ----- Invariant ---------------------------------------------------------------------------

  predicate Counted<E>(p: Child<E>)
  {
    !p.Done? && !p.Delivering?
  }

  function Outstanding<E>(cs: seq<Child<E>>): nat
  {
    if cs == [] then 0 else (if Counted(cs[0]) then 1 else 0) + Outstanding(cs[1..])
  }

  predicate Writing<E>(p: Child<E>)
  {
    p.Placing? || p.Publishing?
  }

  function Writers<E>(cs: seq<Child<E>>): nat
  {
    if cs == [] then 0 else (if Writing(cs[0]) then 1 else 0) + Writers(cs[1..])
  }

  function Raisers<E>(cs: seq<Child<E>>): nat
  {
    if cs == [] then 0 else (if cs[0].Raising? then 1 else 0) + Raisers(cs[1..])
  }

  function Deliverers<E>(cs: seq<Child<E>>): nat
  {
    if cs == [] then 0 else (if cs[0].Delivering? then 1 else 0) + Deliverers(cs[1..])
  }

  /** The countdown, and the one completion it leads to. */
  ghost predicate Countdown<E>(s: State<E>)
  {
    && s.pending == Outstanding(s.children)
    && |s.delivered| + Deliverers(s.children) == if s.pending == 0 && |s.children| > 0 then 1 else 0
  }

  /** The slot is written by one child, and exactly while error_emplaced_ is 1. */
  ghost predicate Slot<E>(s: State<E>)
  {
    && 0 <= s.emplaced <= 2
    && Writers(s.children) == (if s.emplaced == 1 then 1 else 0)
    && (s.winner == None <==> s.emplaced == 0)
    && (s.emplaced == 0 ==> s.slot == None && |s.raised| == Raisers(s.children))
    && (s.winner.Some? ==> s.winner.value in s.raised)
    && (forall c | 0 <= c < |s.children| && s.children[c].Raising? :: s.children[c].error in s.raised)
    && (s.emplaced == 2 ==> s.slot == s.winner)
    && (forall c | 0 <= c < |s.children| && s.children[c].Placing? :: s.winner == Some(s.children[c].error))
    && (forall c | 0 <= c < |s.children| && s.children[c].Publishing? :: s.slot == s.winner)
  }

  ghost predicate Delivered<E>(s: State<E>)
  {
    forall j | 0 <= j < |s.delivered| ::
      s.delivered[j] == if s.winner.Some? then Failed(s.winner.value) else Values
  }

  ghost predicate Inv<E>(s: State<E>)
  {
    Countdown(s) && Slot(s) && Delivered(s)
  }

  // ----- Counting lemmas ---------------------------------------------------------------------

  lemma {:induction false} CountsSet<E>(cs: seq<Child<E>>, c: nat, p: Child<E>)
    requires c < |cs|
    ensures Outstanding(cs[c := p]) + (if Counted(cs[c]) then 1 else 0)
         == Outstanding(cs) + (if Counted(p) then 1 else 0)
    ensures Writers(cs[c := p]) + (if Writing(cs[c]) then 1 else 0) == Writers(cs) + (if Writing(p) then 1 else 0)
    ensures Raisers(cs[c := p]) + (if cs[c].Raising? then 1 else 0) == Raisers(cs) + (if p.Raising? then 1 else 0)
    ensures Deliverers(cs[c := p]) + (if cs[c].Delivering? then 1 else 0)
         == Deliverers(cs) + (if p.Delivering? then 1 else 0)
  {
    if c == 0 {
      assert cs[c := p][1..] == cs[1..];
    } else {
      CountsSet(cs[1..], c - 1, p);
      assert cs[c := p][1..] == cs[1..][c - 1 := p];
    }
  }

  lemma {:induction false} CountsBound<E>(cs: seq<Child<E>>)
    ensures Outstanding(cs) + Deliverers(cs) <= |cs|
    ensures Writers(cs) + Raisers(cs) <= Outstanding(cs)
    ensures Outstanding(cs) == 0 ==> forall c | 0 <= c < |cs| :: !Counted(cs[c])
    ensures Outstanding(cs) > 0 ==> exists c :: 0 <= c < |cs| && Counted(cs[c])
    ensures Writers(cs) == 0 ==> forall c | 0 <= c < |cs| :: !Writing(cs[c])
    ensures Deliverers(cs) == 0 ==> forall c | 0 <= c < |cs| :: !cs[c].Delivering?
  {
    if cs != [] {
      CountsBound(cs[1..]);
      assert forall c | 0 < c < |cs| :: cs[c] == cs[1..][c - 1];
      if Counted(cs[0]) { assert Counted(cs[0]); }
      else if Outstanding(cs[1..]) > 0 {
        var c :| 0 <= c < |cs[1..]| && Counted(cs[1..][c]);
        assert Counted(cs[c + 1]);
      }
    }
  }

  /** Two children cannot both be writing when the count of writers is one. */
  lemma TwoWriters<E>(cs: seq<Child<E>>, c: nat, d: nat)
    requires c < d < |cs| && Writing(cs[c]) && Writing(cs[d])
    ensures Writers(cs) >= 2
  {
    CountsSet(cs, c, Done);
    CountsSet(cs[c := Done], d, Done);
  }

  // ----- Every step keeps the invariant ------------------------------------------------------

  lemma InitInv<E>(n: nat)
    ensures Inv<E>(Init(n))
  {
    AllWaiting(Init<E>(n).children);
  }

  lemma {:induction false} AllWaiting<E>(cs: seq<Child<E>>)
    requires forall c | 0 <= c < |cs| :: cs[c] == Waiting
    ensures Outstanding(cs) == |cs| && Writers(cs) == Raisers(cs) == Deliverers(cs) == 0
  {
    if cs != [] { AllWaiting(cs[1..]); }
  }

  lemma StepKeepsCountdown<E>(s: State<E>, e: Event<E>)
    requires Countdown(s) && Enabled(s, e) && (s.emplaced == 2 ==> s.slot.Some?)
    ensures Countdown(Step(s, e))
  {
    var c, p := e.c, Step(s, e).children[e.c];
    CountsSet(s.children, c, p);
    CountsBound(s.children);
  }

  predicate MovesSlot<E>(e: Event<E>)
  {
    e.CompareExchange? || e.Emplace? || e.Publish?
  }

  lemma SlotMovesKeepSlot<E>(s: State<E>, e: Event<E>)
    requires Slot(s) && Enabled(s, e) && MovesSlot(e)
    ensures Slot(Step(s, e))
  {
    var c, p := e.c, Step(s, e).children[e.c];
    CountsSet(s.children, c, p);
    OneWriter(s.children);
  }

  lemma OtherMovesKeepSlot<E>(s: State<E>, e: Event<E>)
    requires Slot(s) && Enabled(s, e) && !MovesSlot(e)
    ensures Slot(Step(s, e))
  {
    var c, p := e.c, Step(s, e).children[e.c];
    CountsSet(s.children, c, p);
    assert forall d | 0 <= d < |s.children| && d != c :: Step(s, e).children[d] == s.children[d];
  }

  lemma OneWriter<E>(cs: seq<Child<E>>)
    ensures Writers(cs) == 0 ==> forall c | 0 <= c < |cs| :: !Writing(cs[c])
    ensures Writers(cs) == 1 ==>
              forall c, d | 0 <= c < |cs| && 0 <= d < |cs| && Writing(cs[c]) && Writing(cs[d]) :: c == d
  {
    CountsBound(cs);
    forall c, d | 0 <= c < |cs| && 0 <= d < |cs| && Writing(cs[c]) && Writing(cs[d]) && Writers(cs) == 1
      ensures c == d
    {
      if c < d { TwoWriters(cs, c, d); } else if d < c { TwoWriters(cs, d, c); }
    }
  }

  lemma StepKeepsDelivered<E>(s: State<E>, e: Event<E>)
    requires Inv(s) && Enabled(s, e)
    ensures Delivered(Step(s, e))
  {
    if e.Deliver? {
      DeliveryIsWhole(s, e.c);
    } else if e.CompareExchange? {
      var c := e.c;
      CountsSet(s.children, c, Done);
      CountsBound(s.children);
    }
  }

  lemma StepKeepsInv<E>(s: State<E>, e: Event<E>)
    requires Inv(s) && Enabled(s, e)
    ensures Inv(Step(s, e))
  {
    StepKeepsCountdown(s, e);
    if MovesSlot(e) { SlotMovesKeepSlot(s, e); } else { OtherMovesKeepSlot(s, e); }
    StepKeepsDelivered(s, e);
  }

  ghost predicate Run<E>(s: State<E>, es: seq<Event<E>>, t: State<E>)
    decreases |es|
  {
    if es == [] then s == t else Enabled(s, es[0]) && Run(Step(s, es[0]), es[1..], t)
  }

  lemma {:induction false} RunKeepsInv<E>(s: State<E>, es: seq<Event<E>>, t: State<E>)
    requires Inv(s) && Run(s, es, t)
    ensures Inv(t) && |t.children| == |s.children|
    decreases |es|
  {
    if es != [] {
      StepKeepsInv(s, es[0]);
      RunKeepsInv(Step(s, es[0]), es[1..], t);
    }
  }

  // ----- Main results ------------------------------------------------------------------------

  /** In every run of N children there is at most one downstream completion; it comes only after
      every child has counted down, and once all children are done it has come. */
  lemma OneCompletionAfterAll<E>(n: nat, es: seq<Event<E>>, t: State<E>)
    requires Run(Init(n), es, t)
    ensures |t.delivered| <= 1
    ensures |t.delivered| == 1 ==> n > 0 && forall c | 0 <= c < n :: c < |t.children| && t.children[c].Done?
    ensures n > 0 && |t.children| == n && (forall c | 0 <= c < n :: t.children[c].Done?) ==> |t.delivered| == 1
  {
    InitInv<E>(n);
    RunKeepsInv(Init(n), es, t);
    CountsBound(t.children);
    if |t.children| == n && (forall c | 0 <= c < n :: t.children[c].Done?) { AllDone(t.children); }
  }

  lemma {:induction false} AllDone<E>(cs: seq<Child<E>>)
    requires forall c | 0 <= c < |cs| :: cs[c].Done?
    ensures Outstanding(cs) == Deliverers(cs) == 0
  {
    if cs != [] { AllDone(cs[1..]); }
  }

  function Raised<E>(es: seq<Event<E>>): seq<E>
  {
    if es == [] then [] else ErrorOf(es[0]) + Raised(es[1..])
  }

  /** The error of the first compare-exchange performed in the run. */
  ghost function FirstExchanged<E>(s: State<E>, es: seq<Event<E>>): Option<E>
    decreases |es|
  {
    if es == [] || !Enabled(s, es[0]) then None
    else if es[0].CompareExchange? then Some(s.children[es[0].c].error)
    else FirstExchanged(Step(s, es[0]), es[1..])
  }

  /** The completion is an error if and only if some child raised one; then it is the error of the
      child whose compare-exchange came first. */
  lemma OutcomeIff<E>(n: nat, es: seq<Event<E>>, t: State<E>)
    requires Run(Init(n), es, t) && |t.delivered| == 1
    ensures t.delivered[0].Failed? <==> Raised(es) != []
    ensures t.delivered[0].Failed? ==> t.delivered[0].error in Raised(es)
    ensures t.delivered[0].Failed? ==> FirstExchanged(Init(n), es) == Some(t.delivered[0].error)
  {
    InitInv<E>(n);
    RunKeepsInv(Init(n), es, t);
    CountsBound(t.children);
    RunHistory(Init(n), es, t);
    assert [] + Raised(es) == Raised(es);
  }

  function ErrorOf<E>(e: Event<E>): seq<E>
  {
    if e.EndError? then [e.error] else []
  }

  lemma StepHistory<E>(s: State<E>, e: Event<E>)
    requires Slot(s) && Enabled(s, e)
    ensures Step(s, e).raised == s.raised + ErrorOf(e)
    ensures Step(s, e).winner ==
              if s.winner == None && e.CompareExchange? then Some(s.children[e.c].error) else s.winner
  {
    assert s.raised + [] == s.raised;
  }

  lemma Associative<T>(a: seq<T>, b: seq<T>, c: seq<T>)
    ensures (a + b) + c == a + (b + c)
  {}

  lemma {:induction false} RunHistory<E>(s: State<E>, es: seq<Event<E>>, t: State<E>)
    requires Inv(s) && Run(s, es, t)
    ensures t.raised == s.raised + Raised(es)
    ensures t.winner == if s.winner.Some? then s.winner else FirstExchanged(s, es)
    decreases |es|
  {
    if es == [] {
      assert s.raised + [] == s.raised;
    } else {
      StepKeepsInv(s, es[0]);
      StepHistory(s, es[0]);
      RunHistory(Step(s, es[0]), es[1..], t);
      Associative(s.raised, ErrorOf(es[0]), Raised(es[1..]));
    }
  }

  lemma DeliveryIsWhole<E>(s: State<E>, c: nat)
    requires Inv(s) && c < |s.children| && s.children[c].Delivering?
    ensures s.emplaced != 1 && (s.winner.Some? <==> s.raised != [])
    ensures Delivery(s) == [if s.winner.Some? then Failed(s.winner.value) else Values]
  {
    CountsBound(s.children);
    CountsSet(s.children, c, Done);
  }

  /** In every run the child that loads error_emplaced_ never finds the slot half written: it delivers the
      error of the first compare-exchange, or values when there was none. */
  lemma NeverHalfWritten<E>(n: nat, es: seq<Event<E>>, s: State<E>, c: nat)
    requires Run(Init(n), es, s) && c < |s.children| && s.children[c].Delivering?
    ensures s.emplaced != 1
    ensures var first := FirstExchanged(Init<E>(n), es);
            Delivery(s) == [if first.Some? then Failed(first.value) else Values]
  {
    InitInv<E>(n);
    RunKeepsInv(Init(n), es, s);
    RunHistory(Init(n), es, s);
    DeliveryIsWhole(s, c);
  }

  // ----- Stop requests ------------------------------------------------------------------------

  /** A child ended stopped or with an error. */
  predicate Unwinds<E>(es: seq<Event<E>>)
  {
    es != [] && (es[0].EndStopped? || es[0].EndError? || Unwinds(es[1..]))
  }

  /** Phases that lead to a stop request. */
  predicate LeadsToStop<E>(p: Child<E>)
  {
    p.Raising? || p.Placing? || p.Publishing? || p.Stopping?
  }

  ghost predicate Unwinding<E>(s: State<E>)
  {
    s.stopRequested || exists c :: 0 <= c < |s.children| && LeadsToStop(s.children[c])
  }

  lemma StepUnwinds<E>(s: State<E>, e: Event<E>)
    requires Enabled(s, e)
    ensures Unwinding(Step(s, e)) <==> Unwinding(s) || e.EndStopped? || e.EndError?
  {
    var t := Step(s, e);
    assert e.RequestStop? || (LeadsToStop(t.children[e.c]) <==>
                                LeadsToStop(s.children[e.c]) || e.EndStopped? || e.EndError?);
    if c :| 0 <= c < |s.children| && LeadsToStop(s.children[c]) {
      assert c != e.c ==> t.children[c] == s.children[c];
      assert t.stopRequested || LeadsToStop(t.children[c]);
    }
  }

  lemma {:induction false} RunUnwinds<E>(s: State<E>, es: seq<Event<E>>, t: State<E>)
    requires Run(s, es, t)
    ensures Unwinding(t) <==> Unwinding(s) || Unwinds(es)
    decreases |es|
  {
    if es != [] {
      StepUnwinds(s, es[0]);
      RunUnwinds(Step(s, es[0]), es[1..], t);
    }
  }

  /** A stop is requested of the others just when a child ends stopped or with an error: never before, and
      always by the time that child is done. While all end by value no child is even on its way to it. */
  lemma StopsIff<E>(n: nat, es: seq<Event<E>>, t: State<E>)
    requires Run(Init(n), es, t)
    ensures !Unwinds(es) ==> !t.stopRequested && forall c | 0 <= c < |t.children| :: !LeadsToStop(t.children[c])
    ensures (forall c | 0 <= c < |t.children| :: t.children[c].Done?) ==> (t.stopRequested <==> Unwinds(es))
  {
    RunUnwinds(Init(n), es, t);
  }

  /** How many times child c ended in the run. */
  function TimesEnded<E>(es: seq<Event<E>>, c: nat): nat
  {
    if es == [] then 0
    else (if EndsBy(es[0]) && es[0].c == c then 1 else 0) + TimesEnded(es[1..], c)
  }

  predicate EndsBy<E>(e: Event<E>)
  {
    e.EndValue? || e.EndStopped? || e.EndError?
  }

  predicate HasEnded<E>(p: Child<E>)
  {
    !p.Waiting? && !p.Running?
  }

  lemma {:induction false} RunEnds<E>(s: State<E>, es: seq<Event<E>>, t: State<E>, c: nat)
    requires Run(s, es, t) && c < |s.children|
    ensures |t.children| == |s.children|
    ensures (if HasEnded(t.children[c]) then 1 else 0) == (if HasEnded(s.children[c]) then 1 else 0) + TimesEnded(es, c)
    decreases |es|
  {
    if es != [] { RunEnds(Step(s, es[0]), es[1..], t, c); }
  }

  /** A completion comes only after every child ran and ended, once. */
  lemma EveryChildEndedOnce<E>(n: nat, es: seq<Event<E>>, t: State<E>)
    requires Run(Init(n), es, t) && t.delivered != []
    ensures forall c | 0 <= c < n :: TimesEnded(es, c) == 1
  {
    InitInv<E>(n);
    RunKeepsInv(Init(n), es, t);
    OneCompletionAfterAll(n, es, t);
    forall c | 0 <= c < n ensures TimesEnded(es, c) == 1 { RunEnds(Init(n), es, t, c); }
  }

  /** No child is ever blocked: each one that is not done has a step to take. */
  function NextOf<E>(p: Child<E>, c: nat): Event<E>
    requires !p.Done?
  {
    match p
    case Waiting => Launch(c)
    case Running => EndValue(c)
    case Raising(_) => CompareExchange(c)
    case Placing(_) => Emplace(c)
    case Publishing => Publish(c)
    case Stopping => RequestStop(c)
    case Finishing => CountDown(c)
    case Delivering => Deliver(c)
  }

  function Rank<E>(p: Child<E>): nat
  {
    match p
    case Waiting => 8
    case Running => 7
    case Raising(_) => 6
    case Placing(_) => 5
    case Publishing => 4
    case Stopping => 3
    case Finishing => 2
    case Delivering => 1
    case Done => 0
  }

  function Ranks<E>(cs: seq<Child<E>>): nat
  {
    if cs == [] then 0 else Rank(cs[0]) + Ranks(cs[1..])
  }

  lemma {:induction false} RanksSet<E>(cs: seq<Child<E>>, c: nat, p: Child<E>)
    requires c < |cs|
    ensures Ranks(cs[c := p]) + Rank(cs[c]) == Ranks(cs) + Rank(p)
  {
    if c == 0 {
      assert cs[c := p][1..] == cs[1..];
    } else {
      RanksSet(cs[1..], c - 1, p);
      assert cs[c := p][1..] == cs[1..][c - 1 := p];
    }
  }

  lemma RankFalls<E>(s: State<E>, e: Event<E>)
    requires Enabled(s, e)
    ensures Ranks(Step(s, e).children) < Ranks(s.children)
  {
    RanksSet(s.children, e.c, Step(s, e).children[e.c]);
  }

  lemma {:induction false} StepsUseUpRanks<E>(s: State<E>, es: seq<Event<E>>, t: State<E>)
    requires Run(s, es, t)
    ensures |es| + Ranks(t.children) <= Ranks(s.children)
    decreases |es|
  {
    if es != [] {
      var s1 := Step(s, es[0]);
      RankFalls(s, es[0]);
      StepsUseUpRanks(s1, es[1..], t);
    }
  }

  lemma {:induction false} RanksWaiting<E>(cs: seq<Child<E>>)
    requires forall c | 0 <= c < |cs| :: cs[c] == Waiting
    ensures Ranks(cs) == 8 * |cs|
  {
    if cs != [] { RanksWaiting(cs[1..]); }
  }

  /** Every run is finite: no more than eight steps for each child. */
  lemma RunsAreBounded<E>(n: nat, es: seq<Event<E>>, t: State<E>)
    requires Run(Init(n), es, t)
    ensures |es| <= 8 * n
  {
    RanksWaiting(Init<E>(n).children);
    StepsUseUpRanks(Init(n), es, t);
  }

  /** A run that cannot go on has completed downstream exactly once. */
  lemma StuckMeansCompleted<E>(n: nat, es: seq<Event<E>>, t: State<E>)
    requires n > 0 && Run(Init(n), es, t)
    requires forall e :: !Enabled(t, e)
    ensures |t.delivered| == 1 && |t.children| == n
  {
    InitInv<E>(n);
    RunKeepsInv(Init(n), es, t);
    forall c | 0 <= c < n ensures t.children[c].Done? {
      if !t.children[c].Done? { assert Enabled(t, NextOf(t.children[c], c)); }
    }
    OneCompletionAfterAll(n, es, t);
  }
}

/** The operation of `merge_each`, updated in place: each method up to Deliver is one atomic operation,
    the others are the completions of a child as the source runs them when nothing comes between. */
module MergeEach {
  import opened MergeProtocol
  import opened Wrappers

  class Operation<E> {
    var pendingOps: int
    var errorEmplaced: int
    var errors: Option<E>
    var stopRequested: bool
    var delivered: seq<Outcome<E>>
    var children: seq<Child<E>>
    ghost var winner: Option<E>
    ghost var raised: seq<E>

    ghost function Model(): State<E>
      reads this
    {
      State(children, pendingOps, errorEmplaced, errors, stopRequested, delivered, winner, raised)
    }

    ghost predicate Ready(e: Event<E>)
      reads this
    {
      Inv(Model()) && Enabled(Model(), e)
    }

    twostate predicate Took(e: Event<E>)
      requires old(Ready(e))
      reads this
    {
      Model() == Step(old(Model()), e) && Inv(Model())
    }

    constructor (n: nat)
      ensures Model() == Init(n) && Inv(Model())
    {
      pendingOps, errorEmplaced, errors, stopRequested, delivered := n, 0, None, false, [];
      children, winner, raised := seq(n, _ => Waiting), None, [];
      new;
      InitInv<E>(n);
    }

    method Launch(c: nat)
      requires Ready(Event.Launch(c))
      modifies this
      ensures Took(Event.Launch(c))
    {
      StepKeepsInv(Model(), Event.Launch(c));
      children := children[c := Running];
    }

    method EndValue(c: nat)
      requires Ready(Event.EndValue(c))
      modifies this
      ensures Took(Event.EndValue(c))
    {
      StepKeepsInv(Model(), Event.EndValue(c));
      children := children[c := Finishing];
    }

    method EndStopped(c: nat)
      requires Ready(Event.EndStopped(c))
      modifies this
      ensures Took(Event.EndStopped(c))
    {
      StepKeepsInv(Model(), Event.EndStopped(c));
      children := children[c := Stopping];
    }

    method EndError(c: nat, error: E)
      requires Ready(Event.EndError(c, error))
      modifies this
      ensures Took(Event.EndError(c, error))
    {
      StepKeepsInv(Model(), Event.EndError(c, error));
      children, raised := children[c := Raising(error)], raised + [error];
    }

    /** error_emplaced_.compare_exchange_strong(0, 1) */
    method CompareExchange(c: nat) returns (won: bool)
      requires Ready(Event.CompareExchange(c))
      modifies this
      ensures Took(Event.CompareExchange(c)) && won == (old(errorEmplaced) == 0)
    {
      StepKeepsInv(Model(), Event.CompareExchange(c));
      won := errorEmplaced == 0;
      if won {
        errorEmplaced := 1;
        winner := Some(children[c].error);
        children := children[c := Placing(children[c].error)];
      } else {
        children := children[c := Stopping];
      }
    }

    method Emplace(c: nat)
      requires Ready(Event.Emplace(c))
      modifies this
      ensures Took(Event.Emplace(c))
    {
      StepKeepsInv(Model(), Event.Emplace(c));
      errors := Some(children[c].error);
      children := children[c := Publishing];
    }

    method Publish(c: nat)
      requires Ready(Event.Publish(c))
      modifies this
      ensures Took(Event.Publish(c))
    {
      StepKeepsInv(Model(), Event.Publish(c));
      errorEmplaced := 2;
      children := children[c := Stopping];
    }

    method RequestStop(c: nat)
      requires Ready(Event.RequestStop(c))
      modifies this
      ensures Took(Event.RequestStop(c))
    {
      StepKeepsInv(Model(), Event.RequestStop(c));
      stopRequested := true;
      children := children[c := Finishing];
    }

    /** n_pending_ops_.fetch_sub(1) */
    method CountDown(c: nat) returns (last: bool)
      requires Ready(Event.CountDown(c))
      modifies this
      ensures Took(Event.CountDown(c)) && last == (old(pendingOps) == 1)
    {
      StepKeepsInv(Model(), Event.CountDown(c));
      last := pendingOps == 1;
      pendingOps := pendingOps - 1;
      children := children[c := if last then Delivering else Done];
    }

    method Deliver(c: nat)
      requires Ready(Event.Deliver(c))
      modifies this
      ensures Took(Event.Deliver(c))
    {
      StepKeepsInv(Model(), Event.Deliver(c));
      if errorEmplaced == 2 {
        if errors.Some? { delivered := delivered + [Failed(errors.value)]; }
      } else {
        delivered := delivered + [Values];
      }
      children := children[c := Done];
    }

    /** receiver::complete */
    method Complete(c: nat)
      requires Ready(Event.CountDown(c))
      modifies this
      ensures Inv(Model()) && children == old(children)[c := Done]
      ensures pendingOps == old(pendingOps) - 1 && errors == old(errors) && stopRequested == old(stopRequested)
      ensures errorEmplaced == old(errorEmplaced) && winner == old(winner) && raised == old(raised)
      ensures delivered == if old(pendingOps) > 1 then old(delivered)
                           else old(delivered) + [if winner.Some? then Failed(winner.value) else Values]
    {
      ghost var s := Model();
      CountsBound(s.children);
      CountsSet(s.children, c, Done);
      var last := CountDown(c);
      if last {
        DeliveryIsWhole(Model(), c);
        Deliver(c);
      }
    }

    /** What a child that raises no error leaves of the error slot. */
    twostate predicate SlotStays()
      reads this
    {
      && errorEmplaced == old(errorEmplaced) && errors == old(errors)
      && winner == old(winner) && raised == old(raised)
    }

    method SetValue(c: nat)
      requires Ready(Event.EndValue(c))
      modifies this
      ensures SlotStays() && stopRequested == old(stopRequested)
      ensures Inv(Model()) && children == old(children)[c := Done] && pendingOps == old(pendingOps) - 1
      ensures delivered == if old(pendingOps) > 1 then old(delivered)
                           else old(delivered) + [if old(winner).Some? then Failed(old(winner).value) else Values]
    {
      EndValue(c);
      Complete(c);
    }

    method SetStopped(c: nat)
      requires Ready(Event.EndStopped(c))
      modifies this
      ensures SlotStays()
      ensures Inv(Model()) && children == old(children)[c := Done] && pendingOps == old(pendingOps) - 1 && stopRequested
      ensures delivered == if old(pendingOps) > 1 then old(delivered)
                           else old(delivered) + [if old(winner).Some? then Failed(old(winner).value) else Values]
    {
      EndStopped(c);
      RequestStop(c);
      Complete(c);
    }

    method SetError(c: nat, error: E)
      requires Ready(Event.EndError(c, error))
      modifies this
      ensures Inv(Model()) && children == old(children)[c := Done] && pendingOps == old(pendingOps) - 1 && stopRequested
      ensures winner == if old(errorEmplaced) == 0 then Some(error) else old(winner)
      ensures raised == old(raised) + [error]
      ensures old(errorEmplaced) == 0 ==> errors == Some(error) && errorEmplaced == 2
      ensures old(errorEmplaced) != 0 ==> errors == old(errors) && errorEmplaced == old(errorEmplaced)
      ensures winner.Some?
      ensures delivered == if old(pendingOps) > 1 then old(delivered) else old(delivered) + [Failed(winner.value)]
    {
      EndError(c, error);
      RecordError(c);
      RequestStop(c);
      Complete(c);
    }

    /** The part of set_error that decides who writes the slot. */
    method RecordError(c: nat)
      requires Ready(Event.CompareExchange(c))
      modifies this
      ensures Inv(Model()) && children == old(children)[c := Stopping]
      ensures pendingOps == old(pendingOps) && delivered == old(delivered) && raised == old(raised) && winner.Some?
      ensures old(errorEmplaced) == 0 ==>
                errorEmplaced == 2 && errors == winner == Some(old(children[c].error))
      ensures old(errorEmplaced) != 0 ==>
                errorEmplaced == old(errorEmplaced) && errors == old(errors) && winner == old(winner)
    {
      var won := CompareExchange(c);
      if won {
        Emplace(c);
        Publish(c);
      }
    }
  }
}
