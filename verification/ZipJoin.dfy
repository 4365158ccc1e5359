/** How `zip` completes (source/sio/sequence/zip.hpp, the child receiver and notify_error): a countdown
    of children, a slot for the first error noted, and a choice made by the child that ends last.

    A child counts down before it notes its error, so the last one may decide without it. */
module ZipJoinProtocol {
  import opened Wrappers

  // ----- State -------------------------------------------------------------------------------

  /** How a child ended. */
  datatype Ended<E> = ByValue | ByStop | ByError(error: E)

  datatype Child<E> =
    | Running
    | Ending(how: Ended<E>)    // fetch_sub is next
    | Noting(error: E)         // not the last; notify_error is about to note the error
    | Notifying                // not the last; notify_stop is next
    | Closing(how: Ended<E>)   // the last; the downstream completion is next
    | Done

  datatype Outcome<E> = Failed(error: E) | Stopped | Values

  datatype State<E> = State(
    children: seq<Child<E>>,
    pending: int,                 // n_pending_operations_
    noted: Option<E>,             // errors_
    stopRequested: bool,          // stop_source_
    outerStop: bool,              // a stop was requested of the downstream receiver
    delivered: seq<Outcome<E>>,
    // history
    closer: Option<Ended<E>>,     // how the child that delivered had ended
    raised: seq<E>)               // every error of a child or of an item

  datatype Event<E> =
    | ItemError(c: nat, error: E)      // an item of child c fails: notify_error
    | NotifyStop                       // an item or a zipped operation is stopped
    | OuterStop
    | End(c: nat, how: Ended<E>)
    | CountDown(c: nat)
    | Note(c: nat)
    | Notify(c: nat)
    | Deliver(c: nat)

  function Init<E>(n: nat): State<E>
  {
    State(seq(n, _ => Running), n, None, false, false, [], None, [])
  }

  // ----- Steps -------------------------------------------------------------------------------

  predicate Enabled<E>(s: State<E>, e: Event<E>)
  {
    match e
    case ItemError(c, _) => c < |s.children| && s.children[c].Running?
    case NotifyStop => true
    case OuterStop => true
    case End(c, _) => c < |s.children| && s.children[c].Running?
    case CountDown(c) => c < |s.children| && s.children[c].Ending?
    case Note(c) => c < |s.children| && s.children[c].Noting?
    case Notify(c) => c < |s.children| && s.children[c].Notifying?
    case Deliver(c) => c < |s.children| && s.children[c].Closing?
  }

  function Goto<E>(s: State<E>, c: nat, p: Child<E>): State<E>
    requires c < |s.children|
  {
    s.(children := s.children[c := p])
  }

  function First<E>(noted: Option<E>, error: E): Option<E>
  {
    if noted.Some? then noted else Some(error)
  }

  function AfterCountDown<E>(how: Ended<E>, pending: int): Child<E>
  {
    if pending <= 1 then Closing(how) else if how.ByError? then Noting(how.error) else Notifying
  }

  /** The completion the last child chooses. */
  function Verdict<E>(s: State<E>, how: Ended<E>): Outcome<E>
  {
    match how
    case ByValue => if s.outerStop then Stopped else if s.noted.Some? then Failed(s.noted.value) else Values
    case ByStop => if s.stopRequested && !s.outerStop then Values else Stopped
    case ByError(e) => Failed(e)
  }

  function Step<E>(s: State<E>, e: Event<E>): State<E>
    requires Enabled(s, e)
  {
    match e
    case ItemError(c, err) => s.(noted := First(s.noted, err), raised := s.raised + [err], stopRequested := true)
    case NotifyStop => s.(stopRequested := true)
    case OuterStop => s.(outerStop := true, stopRequested := true)
    case End(c, how) =>
      Goto(s, c, Ending(how)).(raised := if how.ByError? then s.raised + [how.error] else s.raised)
    case CountDown(c) => Goto(s, c, AfterCountDown(s.children[c].how, s.pending)).(pending := s.pending - 1)
    case Note(c) => Goto(s, c, Notifying).(noted := First(s.noted, s.children[c].error))
    case Notify(c) => Goto(s, c, Done).(stopRequested := true)
    case Deliver(c) =>
      Goto(s, c, Done).(delivered := s.delivered + [Verdict(s, s.children[c].how)], closer := Some(s.children[c].how))
  }

  // ----- Invariant ---------------------------------------------------------------------------

  predicate Counted<E>(p: Child<E>)
  {
    p.Running? || p.Ending?
  }

  function Outstanding<E>(cs: seq<Child<E>>): nat
  {
    if cs == [] then 0 else (if Counted(cs[0]) then 1 else 0) + Outstanding(cs[1..])
  }

  function Closers<E>(cs: seq<Child<E>>): nat
  {
    if cs == [] then 0 else (if cs[0].Closing? then 1 else 0) + Closers(cs[1..])
  }

  ghost predicate Countdown<E>(s: State<E>)
  {
    && s.pending == Outstanding(s.children)
    && |s.delivered| + Closers(s.children) == (if s.pending == 0 && |s.children| > 0 then 1 else 0)
    && (s.closer.Some? <==> s.delivered != [])
  }

  /** A child that carries an error not yet noted. */
  predicate Carries<E>(p: Child<E>)
  {
    p.Noting? || ((p.Ending? || p.Closing?) && p.how.ByError?)
  }

  /** Every error raised is noted, or on its way, or the last child ended with it. */
  ghost predicate Errors<E>(s: State<E>)
  {
    && (s.noted.Some? ==> s.noted.value in s.raised)
    && (forall c | 0 <= c < |s.children| && Carries(s.children[c]) :: Carried(s.children[c]) in s.raised)
    && (s.closer.Some? && s.closer.value.ByError? ==> s.closer.value.error in s.raised)
    && (s.raised != [] ==> s.noted.Some? || (s.closer.Some? && s.closer.value.ByError?)
                           || exists c :: 0 <= c < |s.children| && Carries(s.children[c]))
  }

  function Carried<E>(p: Child<E>): E
    requires Carries(p)
  {
    if p.Noting? then p.error else p.how.error
  }

  ghost predicate Inv<E>(s: State<E>)
  {
    Countdown(s) && Errors(s)
  }

  lemma {:induction false} CountsSet<E>(cs: seq<Child<E>>, c: nat, p: Child<E>)
    requires c < |cs|
    ensures Outstanding(cs[c := p]) + (if Counted(cs[c]) then 1 else 0)
         == Outstanding(cs) + (if Counted(p) then 1 else 0)
    ensures Closers(cs[c := p]) + (if cs[c].Closing? then 1 else 0) == Closers(cs) + (if p.Closing? then 1 else 0)
  {
    if c == 0 {
      assert cs[c := p][1..] == cs[1..];
    } else {
      CountsSet(cs[1..], c - 1, p);
      assert cs[c := p][1..] == cs[1..][c - 1 := p];
    }
  }

  lemma {:induction false} CountsBound<E>(cs: seq<Child<E>>)
    ensures Outstanding(cs) + Closers(cs) <= |cs|
    ensures Outstanding(cs) == 0 <==> forall c | 0 <= c < |cs| :: !Counted(cs[c])
    ensures Closers(cs) == 0 <==> forall c | 0 <= c < |cs| :: !cs[c].Closing?
  {
    if cs != [] {
      CountsBound(cs[1..]);
      assert forall c | 0 < c < |cs| :: cs[c] == cs[1..][c - 1];
      assert forall c | 0 <= c < |cs[1..]| :: cs[1..][c] == cs[c + 1];
    }
  }

  lemma StepKeepsCountdown<E>(s: State<E>, e: Event<E>)
    requires Countdown(s) && Enabled(s, e)
    ensures Countdown(Step(s, e))
  {
    if !e.ItemError? && !e.NotifyStop? && !e.OuterStop? {
      var c, p := e.c, Step(s, e).children[e.c];
      CountsSet(s.children, c, p);
      NoneClosing(s.children, c);
    }
  }

  lemma NoneClosing<E>(cs: seq<Child<E>>, c: nat)
    requires c < |cs|
    ensures Counted(cs[c]) ==> Outstanding(cs) > 0
    ensures cs[c].Closing? ==> Closers(cs) > 0
  {
    CountsBound(cs);
  }

  /** A child that moves on with its error, or without one, and nothing else of Errors changes. */
  ghost predicate MovesOn<E>(s: State<E>, t: State<E>, c: nat)
  {
    && c < |s.children| && |t.children| == |s.children| && t.children == s.children[c := t.children[c]]
    && t.noted == s.noted && t.raised == s.raised && t.closer == s.closer
    && Carries(t.children[c]) == Carries(s.children[c])
    && (Carries(t.children[c]) ==> Carried(t.children[c]) == Carried(s.children[c]))
  }

  lemma MovingOnKeepsErrors<E>(s: State<E>, t: State<E>, c: nat)
    requires Errors(s) && MovesOn(s, t, c)
    ensures Errors(t)
  {
    forall d | 0 <= d < |s.children| ensures Carries(t.children[d]) == Carries(s.children[d]) {}
  }

  lemma EndKeepsErrors<E>(s: State<E>, c: nat, how: Ended<E>)
    requires Errors(s) && Enabled(s, End(c, how))
    ensures Errors(Step(s, End(c, how)))
  {
    var t := Step(s, End(c, how));
    if how.ByError? {
      assert Carries(t.children[c]);
    } else {
      MovingOnKeepsErrors(s, t, c);
    }
  }

  lemma NoteKeepsErrors<E>(s: State<E>, c: nat)
    requires Errors(s) && Enabled(s, Note(c))
    ensures Errors(Step(s, Note(c)))
  {
    assert Carries(s.children[c]);
  }

  lemma DeliverKeepsErrors<E>(s: State<E>, c: nat)
    requires Errors(s) && Enabled(s, Deliver(c)) && s.closer == None
    ensures Errors(Step(s, Deliver(c)))
  {
    var t, how := Step(s, Deliver(c)), s.children[c].how;
    assert how.ByError? ==> Carries(s.children[c]);
    if t.raised != [] && t.noted == None && !how.ByError? {
      var d :| 0 <= d < |s.children| && Carries(s.children[d]);
      assert Carries(t.children[d]);
    }
  }

  lemma StepKeepsErrors<E>(s: State<E>, e: Event<E>)
    requires Errors(s) && Enabled(s, e) && (e.Deliver? ==> s.closer == None)
    ensures Errors(Step(s, e))
  {
    match e
    case ItemError(_, _) =>
    case NotifyStop =>
    case OuterStop =>
    case End(c, how) => EndKeepsErrors(s, c, how);
    case CountDown(c) => MovingOnKeepsErrors(s, Step(s, e), c);
    case Note(c) => NoteKeepsErrors(s, c);
    case Notify(c) => MovingOnKeepsErrors(s, Step(s, e), c);
    case Deliver(c) => DeliverKeepsErrors(s, c);
  }

  lemma StepKeepsInv<E>(s: State<E>, e: Event<E>)
    requires Inv(s) && Enabled(s, e)
    ensures Inv(Step(s, e))
  {
    StepKeepsCountdown(s, e);
    if e.Deliver? {
      CountsBound(s.children);
      CountsSet(s.children, e.c, Done);
    }
    StepKeepsErrors(s, e);
  }

  // ----- Runs --------------------------------------------------------------------------------

  ghost predicate Run<E>(s: State<E>, es: seq<Event<E>>, t: State<E>)
    decreases |es|
  {
    if es == [] then s == t else Enabled(s, es[0]) && Run(Step(s, es[0]), es[1..], t)
  }

  lemma {:induction false} AllRunning<E>(cs: seq<Child<E>>)
    requires forall c | 0 <= c < |cs| :: cs[c] == Running
    ensures Outstanding(cs) == |cs| && Closers(cs) == 0
  {
    if cs != [] { AllRunning(cs[1..]); }
  }

  lemma InitInv<E>(n: nat)
    ensures Inv<E>(Init(n))
  {
    AllRunning(Init<E>(n).children);
  }

  lemma {:induction false} RunKeepsInv<E>(s: State<E>, es: seq<Event<E>>, t: State<E>)
    requires Inv(s) && Run(s, es, t)
    ensures Inv(t) && |t.children| == |s.children|
    decreases |es|
  {
    if es != [] {
      StepKeepsInv(s, es[0]);
      RunKeepsInv(Step(s, es[0]), es[1..], t);
    }
  }

  function Raised<E>(es: seq<Event<E>>): seq<E>
  {
    if es == [] then [] else ErrorOf(es[0]) + Raised(es[1..])
  }

  function ErrorOf<E>(e: Event<E>): seq<E>
  {
    if e.ItemError? then [e.error] else if e.End? && e.how.ByError? then [e.how.error] else []
  }

  lemma {:induction false} RunRaised<E>(s: State<E>, es: seq<Event<E>>, t: State<E>)
    requires Run(s, es, t)
    ensures t.raised == s.raised + Raised(es)
    decreases |es|
  {
    if es == [] {
      assert s.raised + [] == s.raised;
    } else {
      var s1 := Step(s, es[0]);
      RunRaised(s1, es[1..], t);
      assert s1.raised == s.raised + ErrorOf(es[0]) by { assert s.raised + [] == s.raised; }
      assert (s.raised + ErrorOf(es[0])) + Raised(es[1..]) == s.raised + (ErrorOf(es[0]) + Raised(es[1..]));
    }
  }

  // ----- Main results ------------------------------------------------------------------------

  /** Exactly one completion, after every child has counted down. */
  lemma OneCompletionAfterAll<E>(n: nat, es: seq<Event<E>>, t: State<E>)
    requires Run(Init(n), es, t)
    ensures |t.delivered| <= 1 && |t.children| == n
    ensures |t.delivered| == 1 ==> n > 0 && forall c | 0 <= c < n :: !Counted(t.children[c]) && !t.children[c].Closing?
    ensures n > 0 && (forall c | 0 <= c < n :: t.children[c].Done?) ==> |t.delivered| == 1
  {
    InitInv<E>(n);
    RunKeepsInv(Init(n), es, t);
    CountsBound(t.children);
  }

  /** An error was put into the slot, or found it taken. */
  predicate Noted<E>(es: seq<Event<E>>)
  {
    exists k :: 0 <= k < |es| && (es[k].ItemError? || es[k].Note?)
  }

  predicate OuterStops<E>(es: seq<Event<E>>)
  {
    exists k :: 0 <= k < |es| && es[k].OuterStop?
  }

  /** The error noted first in the run. */
  ghost function FirstNoted<E>(s: State<E>, es: seq<Event<E>>): Option<E>
    decreases |es|
  {
    if es == [] || !Enabled(s, es[0]) then None
    else if es[0].ItemError? then Some(es[0].error)
    else if es[0].Note? then Some(s.children[es[0].c].error)
    else FirstNoted(Step(s, es[0]), es[1..])
  }

  lemma AnyAfterFirst<E>(es: seq<Event<E>>)
    requires es != []
    ensures Noted(es) <==> es[0].ItemError? || es[0].Note? || Noted(es[1..])
    ensures OuterStops(es) <==> es[0].OuterStop? || OuterStops(es[1..])
  {
    forall k | 0 <= k < |es[1..]| ensures es[1..][k] == es[k + 1] {}
    forall k | 0 < k < |es| ensures es[k] == es[1..][k - 1] {}
  }

  lemma {:induction false} RunNotes<E>(s: State<E>, es: seq<Event<E>>, t: State<E>)
    requires Run(s, es, t)
    ensures t.noted == if s.noted.Some? then s.noted else FirstNoted(s, es)
    ensures FirstNoted(s, es).Some? <==> Noted(es)
    ensures t.outerStop <==> s.outerStop || OuterStops(es)
    decreases |es|
  {
    if es != [] {
      AnyAfterFirst(es);
      RunNotes(Step(s, es[0]), es[1..], t);
    }
  }

  /** When the last child delivers, an error comes through if and only if that child ended with one, or
      ended by value with an error noted before and no stop from downstream; it is the child's own error
      or the one noted first. */
  lemma ErrorSurfacesIff<E>(n: nat, es: seq<Event<E>>, s: State<E>, c: nat)
    requires Run(Init(n), es, s) && Enabled(s, Deliver(c))
    ensures var how, outcome := s.children[c].how, Verdict(s, s.children[c].how);
            && (outcome.Failed? <==> how.ByError? || (how.ByValue? && Noted(es) && !OuterStops(es)))
            && (outcome.Failed? ==>
                  Some(outcome.error) == if how.ByError? then Some(how.error) else FirstNoted(Init(n), es))
            && (outcome.Failed? ==> outcome.error in Raised(es))
  {
    InitInv<E>(n);
    RunKeepsInv(Init(n), es, s);
    RunNotes(Init(n), es, s);
    RunRaised(Init(n), es, s);
    assert [] + Raised(es) == Raised(es);
    assert s.children[c].how.ByError? ==> Carries(s.children[c]);
  }

  // ----- Stop requests, and the outcome -------------------------------------------------------

  predicate AsksToStop<E>(e: Event<E>)
  {
    e.ItemError? || e.NotifyStop? || e.OuterStop? || e.Notify?
  }

  predicate StopAsked<E>(es: seq<Event<E>>)
  {
    es != [] && (AsksToStop(es[0]) || StopAsked(es[1..]))
  }

  lemma {:induction false} RunStops<E>(s: State<E>, es: seq<Event<E>>, t: State<E>)
    requires Run(s, es, t)
    ensures t.stopRequested <==> s.stopRequested || StopAsked(es)
    decreases |es|
  {
    if es != [] { RunStops(Step(s, es[0]), es[1..], t); }
  }

  /** How child c ended, if it did. */
  function EndOf<E>(es: seq<Event<E>>, c: nat): Option<Ended<E>>
  {
    if es == [] then None
    else if es[0].End? && es[0].c == c then Some(es[0].how)
    else EndOf(es[1..], c)
  }

  /** The phase of a child agrees with the way it ended. */
  ghost predicate Remembers<E>(p: Child<E>, how: Option<Ended<E>>)
  {
    match p
    case Running => how == None
    case Ending(h) => how == Some(h)
    case Closing(h) => how == Some(h)
    case Noting(error) => how == Some(ByError(error))
    case Notifying => how.Some?
    case Done => how.Some?
  }

  lemma StepRemembers<E>(s: State<E>, e: Event<E>, c: nat, how: Option<Ended<E>>)
    requires Enabled(s, e) && c < |s.children| && Remembers(s.children[c], how)
    ensures var t := Step(s, e);
            |t.children| == |s.children|
            && Remembers(t.children[c], if e.End? && e.c == c then Some(e.how) else how)
    ensures e.End? && e.c == c ==> how == None
  {}

  lemma {:induction false} RunRemembers<E>(
      s: State<E>, es: seq<Event<E>>, t: State<E>, c: nat, how: Option<Ended<E>>)
    requires Run(s, es, t) && c < |s.children| && Remembers(s.children[c], how)
    ensures c < |t.children| && Remembers(t.children[c], if how.Some? then how else EndOf(es, c))
    decreases |es|
  {
    if es != [] {
      var e := es[0];
      StepRemembers(s, e, c, how);
      RunRemembers(Step(s, e), es[1..], t, c, if e.End? && e.c == c then Some(e.how) else how);
    }
  }

  /** The outcome that the events of a run call for, the child that ends last having ended by `how`. */
  predicate ValuesDue<E>(es: seq<Event<E>>, how: Ended<E>)
  {
    !OuterStops(es) && ((how.ByValue? && !Noted(es)) || (how.ByStop? && StopAsked(es)))
  }

  predicate StoppedDue<E>(es: seq<Event<E>>, how: Ended<E>)
  {
    (how.ByValue? && OuterStops(es)) || (how.ByStop? && (OuterStops(es) || !StopAsked(es)))
  }

  /** What the last child delivers in any run.  Values: it ended by value and no error was noted, or it ended
      stopped and a stop was requested, as it is when sequences of unequal length are zipped; and in both cases
      without a stop from downstream.  Stopped: it ended by value and there was a stop from downstream, or it ended
      stopped and there was one, or none requested at all.  An error in all other cases. */
  lemma OutcomeIff<E>(n: nat, es: seq<Event<E>>, s: State<E>, c: nat)
    requires Run(Init(n), es, s) && Enabled(s, Deliver(c))
    ensures EndOf(es, c).Some? && s.delivered == []
    ensures var how, sent := EndOf(es, c).value, Step(s, Deliver(c)).delivered;
            && |sent| == 1
            && (sent[0].Values? <==> ValuesDue(es, how))
            && (sent[0].Stopped? <==> StoppedDue(es, how))
            && (sent[0].Failed? <==> how.ByError? || (how.ByValue? && Noted(es) && !OuterStops(es)))
            && (sent[0].Failed? ==>
                  Some(sent[0].error) == if how.ByError? then Some(how.error) else FirstNoted(Init(n), es))
  {
    InitInv<E>(n);
    RunKeepsInv(Init(n), es, s);
    RunNotes(Init(n), es, s);
    RunStops(Init(n), es, s);
    RunRemembers(Init(n), es, s, c, None);
    CountsBound(s.children);
  }

  /** If every child that counted down has noted its error by then, an error noted means just that an
      error was raised. */
  lemma PunctualErrorSurfacesIff<E>(n: nat, es: seq<Event<E>>, s: State<E>, c: nat)
    requires Run(Init(n), es, s) && Enabled(s, Deliver(c))
    requires forall d | 0 <= d < |s.children| :: !s.children[d].Noting?
    ensures var how := s.children[c].how;
            Verdict(s, how).Failed? <==> how.ByError? || (how.ByValue? && Raised(es) != [] && !s.outerStop)
  {
    InitInv<E>(n);
    RunKeepsInv(Init(n), es, s);
    AllNoted(s, c);
    assert s.raised == Raised(es) by {
      RunRaised(Init(n), es, s);
      assert [] + Raised(es) == Raised(es);
    }
  }

  lemma AllNoted<E>(s: State<E>, c: nat)
    requires Countdown(s) && Errors(s) && c < |s.children| && s.children[c].Closing?
    requires forall d | 0 <= d < |s.children| :: !s.children[d].Noting?
    ensures s.raised != [] <==> s.noted.Some? || s.children[c].how.ByError?
  {
    OnlyOneCloses(s, c);
    if s.children[c].how.ByError? {
      assert Carries(s.children[c]);
    } else {
      assert s.closer == None by { CountsBound(s.children); }
      forall d | 0 <= d < |s.children| ensures !Carries(s.children[d]) {}
    }
  }

  lemma OnlyOneCloses<E>(s: State<E>, c: nat)
    requires Countdown(s) && c < |s.children| && s.children[c].Closing?
    ensures forall d | 0 <= d < |s.children| && d != c :: !s.children[d].Closing? && !Counted(s.children[d])
  {
    CountsBound(s.children);
    CountsSet(s.children, c, Done);
    CountsBound(s.children[c := Done]);
    assert forall d | 0 <= d < |s.children| && d != c :: s.children[c := Done][d] == s.children[d];
  }

  /** The step of a child that has not ended, or not finished ending. */
  function NextOf<E>(p: Child<E>, c: nat): Event<E>
    requires !p.Done?
  {
    match p
    case Running => End(c, ByValue)
    case Ending(_) => CountDown(c)
    case Noting(_) => Note(c)
    case Notifying => Notify(c)
    case Closing(_) => Deliver(c)
  }

  /** A run that can go on only with stop requests has completed exactly once. */
  lemma StuckMeansCompleted<E>(n: nat, es: seq<Event<E>>, t: State<E>)
    requires n > 0 && Run(Init(n), es, t)
    requires forall e :: Enabled(t, e) ==> e.NotifyStop? || e.OuterStop?
    ensures |t.delivered| == 1 && |t.children| == n
  {
    InitInv<E>(n);
    RunKeepsInv(Init(n), es, t);
    forall c | 0 <= c < n ensures t.children[c].Done? {
      if !t.children[c].Done? { assert Enabled(t, NextOf(t.children[c], c)); }
    }
    OneCompletionAfterAll(n, es, t);
  }

  lemma RunStep<E>(s: State<E>, e: Event<E>, es: seq<Event<E>>, t: State<E>)
    requires Enabled(s, e) && Run(Step(s, e), es, t)
    ensures Run(s, [e] + es, t)
  {
    assert ([e] + es)[1..] == es;
  }

  /** An error that a child has yet to note is lost: two children, the first ends with an error and is
      overtaken between its countdown and its note by the second, which ends by value. */
  lemma OvertakenErrorIsLost() returns (es: seq<Event<int>>, t: State<int>)
    ensures Run(Init(2), es, t) && t.delivered == [Values] && Raised(es) == [7]
  {
    var s0 := Init<int>(2);
    var s1 := Step(s0, End(0, ByError(7)));
    assert s1.children == [Ending(ByError(7)), Running];
    var s2 := Step(s1, CountDown(0));
    var s3 := Step(s2, End(1, ByValue));
    var s4 := Step(s3, CountDown(1));
    t := Step(s4, Deliver(1));
    RunStep(s4, Deliver(1), [], t);
    RunStep(s3, CountDown(1), [Deliver(1)] + [], t);
    RunStep(s2, End(1, ByValue), [CountDown(1)] + ([Deliver(1)] + []), t);
    RunStep(s1, CountDown(0), [End(1, ByValue)] + ([CountDown(1)] + ([Deliver(1)] + [])), t);
    es := [End(0, ByError(7))] + ([CountDown(0)] + ([End(1, ByValue)] + ([CountDown(1)] + ([Deliver(1)] + []))));
    RunRaised(s0, es, t);
    assert t.raised == [7];
  }
}

/** The completions of a child of `zip`, updated in place: each method up to Deliver is one atomic
    operation, the others are the child receiver's functions when nothing comes between. */
module ZipJoin {
  import opened Wrappers
  import opened ZipJoinProtocol

  class Operation<E> {
    var pendingOperations: int
    var errors: Option<E>
    var stopRequested: bool
    var outerStop: bool
    var delivered: seq<Outcome<E>>
    var children: seq<Child<E>>
    ghost var closer: Option<Ended<E>>
    ghost var raised: seq<E>

    ghost function Model(): State<E>
      reads this
    {
      State(children, pendingOperations, errors, stopRequested, outerStop, delivered, closer, raised)
    }

    ghost predicate Ready(e: Event<E>)
      reads this
    {
      Inv(Model()) && Enabled(Model(), e)
    }

    twostate predicate Took(e: Event<E>)
      requires old(Ready(e))
      reads this
    {
      Model() == Step(old(Model()), e) && Inv(Model())
    }

    constructor (n: nat)
      ensures Model() == Init(n) && Inv(Model())
    {
      pendingOperations, errors, stopRequested, outerStop, delivered := n, None, false, false, [];
      children, closer, raised := seq(n, _ => Running), None, [];
      new;
      InitInv<E>(n);
    }

    method End(c: nat, how: Ended<E>)
      requires Ready(Event.End(c, how))
      modifies this
      ensures Took(Event.End(c, how))
    {
      StepKeepsInv(Model(), Event.End(c, how));
      children := children[c := Ending(how)];
      if how.ByError? { raised := raised + [how.error]; }
    }

    /** n_pending_operations_.fetch_sub(1) */
    method CountDown(c: nat) returns (last: bool)
      requires Ready(Event.CountDown(c))
      modifies this
      ensures Took(Event.CountDown(c)) && last == (old(pendingOperations) <= 1)
    {
      StepKeepsInv(Model(), Event.CountDown(c));
      var how := children[c].how;
      last := pendingOperations <= 1;
      pendingOperations := pendingOperations - 1;
      children := children[c := if last then Closing(how) else if how.ByError? then Noting(how.error) else Notifying];
    }

    /** notify_error up to its call of notify_stop */
    method Note(c: nat)
      requires Ready(Event.Note(c))
      modifies this
      ensures Took(Event.Note(c))
    {
      StepKeepsInv(Model(), Event.Note(c));
      if errors == None {
        errors := Some(children[c].error);
      }
      children := children[c := Notifying];
    }

    method Notify(c: nat)
      requires Ready(Event.Notify(c))
      modifies this
      ensures Took(Event.Notify(c))
    {
      StepKeepsInv(Model(), Event.Notify(c));
      stopRequested := true;
      children := children[c := Done];
    }

    method Deliver(c: nat)
      requires Ready(Event.Deliver(c))
      modifies this
      ensures Took(Event.Deliver(c))
    {
      StepKeepsInv(Model(), Event.Deliver(c));
      var how := children[c].how;
      match how {
        case ByValue =>
          if outerStop {
            delivered := delivered + [Stopped];
          } else if errors.Some? {
            delivered := delivered + [Failed(errors.value)];
          } else {
            delivered := delivered + [Values];
          }
        case ByStop =>
          if stopRequested && !outerStop {
            delivered := delivered + [Values];
          } else {
            delivered := delivered + [Stopped];
          }
        case ByError(error) =>
          delivered := delivered + [Failed(error)];
      }
      closer := Some(how);
      children := children[c := Done];
    }

    /** receiver::set_value, set_stopped and set_error of a child. */
    method Complete(c: nat, how: Ended<E>)
      requires Ready(Event.End(c, how))
      modifies this
      ensures Inv(Model()) && children == old(children)[c := Done] && pendingOperations == old(pendingOperations) - 1
      ensures old(pendingOperations) > 1 ==>
                delivered == old(delivered) && stopRequested
                && errors == if how.ByError? then First(old(errors), how.error) else old(errors)
      ensures old(pendingOperations) <= 1 ==> errors == old(errors) && stopRequested == old(stopRequested)
      ensures old(pendingOperations) <= 1 && how.ByError? ==> delivered == old(delivered) + [Failed(how.error)]
      ensures old(pendingOperations) <= 1 && how.ByValue? ==>
                delivered == old(delivered) + [if old(outerStop) then Stopped
                                               else if old(errors).Some? then Failed(old(errors).value) else Values]
      ensures old(pendingOperations) <= 1 && how.ByStop? ==>
                delivered == old(delivered) + [if old(stopRequested) && !old(outerStop) then Values else Stopped]
      ensures outerStop == old(outerStop)
    {
      End(c, how);
      var last := CountDown(c);
      if last {
        Deliver(c);
      } else {
        NotLast(c, how);
      }
    }

    /** notify_error, or notify_stop, of a child that is not the last. */
    method NotLast(c: nat, how: Ended<E>)
      requires Inv(Model()) && c < |children|
      requires children[c] == if how.ByError? then Noting(how.error) else Notifying
      modifies this
      ensures Inv(Model()) && children == old(children)[c := Done] && pendingOperations == old(pendingOperations)
      ensures delivered == old(delivered) && stopRequested && outerStop == old(outerStop)
      ensures errors == if how.ByError? then First(old(errors), how.error) else old(errors)
    {
      if how.ByError? {
        Note(c);
      }
      Notify(c);
    }
  }
}
