/** The alignment protocol of the `zip` sequence (source/sio/sequence/zip.hpp).

    N children push items into N queues.  A shared counter of ready queue fronts elects the
    activation that assembles the next tuple.  Activations are kept in a sequence that may grow
    without bound, so that "at most one activation owns the queue fronts" is proved, not built in. */
module ZipProtocol {

  // ----- State -------------------------------------------------------------------------------

  /** The k-th tuple taken from the queues, with the values collected for it. */
  datatype Assembly<T> = Assembly(k: nat, result: seq<T>)

  /** Where one activation of notify_result_completion stands; phases as numbered in zip.hpp. */
  datatype Phase<T> =
    | Claimed                                      // fetch_add returned N-1; phase 1 is next
    | Collected(result: seq<T>)                    // phase 2 is next
    | Popped(asm: Assembly<T>)                     // phase 3 is next
    | Passed(asm: Assembly<T>)                     // phase 4 is next
    | Starting(asm: Assembly<T>, owed: bool)       // phase 5 is next
    | Handing                                      // phase 6 is next
    | Gone                                         // returned

  datatype State<T> = State(
    queues: seq<seq<T>>,          // item_queues_
    ready: int,                   // n_ready_next_items_
    stopped: bool,                // stop_source_.stop_requested()
    acts: seq<Phase<T>>,          // every activation so far
    running: set<nat>,            // zipped operations started and not completed
    // history
    arrived: seq<seq<T>>,         // per child, every item accepted so far
    popped: seq<seq<T>>,          // per tuple, the items popped for it
    drained: seq<seq<T>>,         // per child, the items completed by notify_stop
    residue: nat,                 // queues the last pop left nonempty
    started: seq<Assembly<T>>,    // tuples handed downstream, in order
    finished: seq<nat>)           // tuples whose items were completed, in order

  datatype Event<T> =
    | Arrive(child: nat, item: T)
    | Collect(i: nat)
    | Pop(i: nat)
    | CheckStop(i: nat)
    | Recount(i: nat)
    | Start(i: nat)
    | HandOn(i: nat)
    | Finish(k: nat)
    | RequestStop
    | Drain

  function Init<T>(n: nat): State<T>
  {
    var empty := seq(n, _ => []);
    State(empty, 0, false, [], {}, empty, [], empty, 0, [], [])
  }

  // ----- Steps -------------------------------------------------------------------------------

  function CountNonEmpty<T>(qs: seq<seq<T>>): nat
  {
    if qs == [] then 0 else (if qs[0] == [] then 0 else 1) + CountNonEmpty(qs[1..])
  }

  predicate AllNonEmpty<T>(qs: seq<seq<T>>)
  {
    forall c | 0 <= c < |qs| :: |qs[c]| > 0
  }

  function Fronts<T>(qs: seq<seq<T>>): (r: seq<T>)
    requires AllNonEmpty(qs)
  {
    seq(|qs|, c requires 0 <= c < |qs| => qs[c][0])
  }

  function Tails<T>(qs: seq<seq<T>>): seq<seq<T>>
    requires AllNonEmpty(qs)
  {
    seq(|qs|, c requires 0 <= c < |qs| => qs[c][1..])
  }

  /** Phases that count on the queue fronts being there when they come to read or pop them. */
  predicate NeedsFronts<T>(p: Phase<T>)
  {
    p.Claimed? || p.Collected? || (p.Starting? && p.owed) || p.Handing?
  }

  /** Phases during which no other activation may take the fronts. */
  predicate Owns<T>(p: Phase<T>)
  {
    NeedsFronts(p) || p.Popped? || p.Passed?
  }

  predicate Shape<T>(s: State<T>)
  {
    |s.queues| >= 1 && |s.arrived| == |s.drained| == |s.queues|
  }

  predicate At<T>(s: State<T>, i: nat)
  {
    i < |s.acts|
  }

  /** An activation reads queue fronts only when they exist; that Inv implies it is proved below. */
  predicate Enabled<T>(s: State<T>, e: Event<T>)
  {
    Shape(s) &&
    match e
    case Arrive(c, _) => c < |s.queues|
    case Collect(i) => At(s, i) && s.acts[i].Claimed? && AllNonEmpty(s.queues)
    case Pop(i) => At(s, i) && s.acts[i].Collected? && AllNonEmpty(s.queues)
    case CheckStop(i) => At(s, i) && s.acts[i].Popped?
    case Recount(i) => At(s, i) && s.acts[i].Passed?
    case Start(i) => At(s, i) && s.acts[i].Starting?
    case HandOn(i) => At(s, i) && s.acts[i].Handing? && AllNonEmpty(s.queues)
    case Finish(k) => k in s.running
    case RequestStop => true
    case Drain => s.stopped
  }

  /** notify_result_completion up to its fetch_add: one more ready front. */
  function Announce<T>(s: State<T>): State<T>
  {
    var claims := s.ready == |s.queues| - 1;
    s.(ready := s.ready + 1,
       acts := if claims then s.acts + [Claimed] else s.acts)
  }

  function ArriveStep<T>(s: State<T>, c: nat, x: T): State<T>
    requires Shape(s) && c < |s.queues|
  {
    if s.stopped then s
    else
      var s' := s.(queues := s.queues[c := s.queues[c] + [x]],
                   arrived := s.arrived[c := s.arrived[c] + [x]]);
      if s.queues[c] != [] then s' else Announce(s')
  }

  function PopStep<T>(s: State<T>, i: nat): State<T>
    requires Enabled(s, Pop(i))
  {
    s.(popped := s.popped + [Fronts(s.queues)],
       queues := Tails(s.queues),
       ready := -1,
       residue := CountNonEmpty(Tails(s.queues)),
       acts := s.acts[i := Popped(Assembly(|s.popped|, s.acts[i].result))])
  }

  function RecountStep<T>(s: State<T>, i: nat): State<T>
    requires Enabled(s, Recount(i))
  {
    var count := CountNonEmpty(s.queues);
    var owed := count == |s.queues|;
    s.(ready := if owed then count - 1 else count,
       acts := s.acts[i := Starting(s.acts[i].asm, owed)])
  }

  function StartStep<T>(s: State<T>, i: nat): State<T>
    requires Enabled(s, Start(i))
  {
    var asm := s.acts[i].asm;
    s.(started := s.started + [asm],
       running := s.running + {asm.k},
       acts := s.acts[i := if s.acts[i].owed then Handing else Gone])
  }

  function DrainStep<T>(s: State<T>): State<T>
    requires Shape(s)
  {
    var n := |s.queues|;
    s.(ready := 0,
       queues := seq(n, _ => []),
       drained := seq(n, c requires 0 <= c < n => s.drained[c] + s.queues[c]))
  }

  function Step<T>(s: State<T>, e: Event<T>): State<T>
    requires Enabled(s, e)
  {
    match e
    case Arrive(c, x) => ArriveStep(s, c, x)
    case Collect(i) => s.(acts := s.acts[i := Collected(Fronts(s.queues))])
    case Pop(i) => PopStep(s, i)
    case CheckStop(i) =>
      var asm := s.acts[i].asm;
      if s.stopped then s.(finished := s.finished + [asm.k], acts := s.acts[i := Gone])
      else s.(acts := s.acts[i := Passed(asm)])
    case Recount(i) => RecountStep(s, i)
    case Start(i) => StartStep(s, i)
    case HandOn(i) =>
      s.(ready := s.ready + 1,
         acts := s.acts[i := if s.ready == |s.queues| - 1 then Claimed else Gone])
    case Finish(k) => s.(running := s.running - {k}, finished := s.finished + [k])
    case RequestStop => s.(stopped := true)
    case Drain => DrainStep(s)
  }

  // ----- Invariant ---------------------------------------------------------------------------

  /** Per child: what arrived is what was popped, then what was drained, then what is queued. */
  ghost predicate Ledger<T>(s: State<T>)
    requires Shape(s)
  {
    && (forall k | 0 <= k < |s.popped| :: |s.popped[k]| == |s.queues|)
    && (forall c | 0 <= c < |s.queues| ::
          |s.popped| <= |s.arrived[c]| && s.arrived[c][|s.popped|..] == s.drained[c] + s.queues[c])
    && (forall k, c | 0 <= k < |s.popped| && 0 <= c < |s.queues| :: s.popped[k][c] == s.arrived[c][k])
  }

  /** Items are drained only after a stop request, and a drain leaves nothing queued. */
  ghost predicate StopRecord<T>(s: State<T>)
    requires Shape(s)
  {
    forall c, d | 0 <= c < |s.queues| && 0 <= d < |s.queues| ::
      s.drained[c] != [] ==> s.stopped && s.queues[d] == []
  }

  /** What the readiness counter is worth while activation phase p owns the fronts. */
  ghost predicate OwnedCounter<T>(s: State<T>, p: Phase<T>)
  {
    && (NeedsFronts(p) ==> AllNonEmpty(s.queues))
    && (p.Claimed? || p.Collected? ==> s.ready == |s.queues|)
    && (p.Starting? || p.Handing? ==> s.ready == |s.queues| - 1)
    && (p.Popped? || p.Passed? ==> s.stopped || s.ready == CountNonEmpty(s.queues) - s.residue - 1)
  }

  ghost predicate SingleOwner<T>(s: State<T>)
  {
    forall i, j | 0 <= i < j < |s.acts| :: !(Owns(s.acts[i]) && Owns(s.acts[j]))
  }

  ghost predicate Counter<T>(s: State<T>)
  {
    && (forall i | 0 <= i < |s.acts| && Owns(s.acts[i]) :: OwnedCounter(s, s.acts[i]))
    && SingleOwner(s)
    && (s.stopped || (exists i :: 0 <= i < |s.acts| && Owns(s.acts[i]))
        || s.ready == CountNonEmpty(s.queues) < |s.queues|)
  }

  /** The assembly an activation is responsible for completing. */
  predicate Carries<T>(p: Phase<T>)
  {
    p.Popped? || p.Passed? || p.Starting?
  }

  /** The values of the assembly are the items popped for it. */
  ghost predicate Faithful<T>(s: State<T>, asm: Assembly<T>)
  {
    asm.k < |s.popped| && asm.result == s.popped[asm.k]
  }

  ghost predicate Results<T>(s: State<T>)
  {
    && (forall i | 0 <= i < |s.acts| && s.acts[i].Collected? ::
          AllNonEmpty(s.queues) && s.acts[i].result == Fronts(s.queues))
    && CarriedRight(s)
  }

  ghost predicate CarriedRight<T>(s: State<T>)
  {
    && (forall i | 0 <= i < |s.acts| && Carries(s.acts[i]) :: Faithful(s, s.acts[i].asm))
    && (forall j | 0 <= j < |s.started| :: Faithful(s, s.started[j]))
  }

  function Carriers<T>(acts: seq<Phase<T>>, k: nat): nat
  {
    if acts == [] then 0
    else (if Carries(acts[0]) && acts[0].asm.k == k then 1 else 0) + Carriers(acts[1..], k)
  }

  /** In how many places tuple k waits for its items to be completed, or had them completed. */
  ghost function Places<T>(s: State<T>, k: nat): nat
  {
    Carriers(s.acts, k) + (if k in s.running then 1 else 0) + multiset(s.finished)[k]
  }

  ghost predicate OnePlaceEach<T>(s: State<T>)
  {
    forall k: nat :: Places(s, k) == if k < |s.popped| then 1 else 0
  }

  ghost predicate StartedOnce<T>(s: State<T>)
  {
    && (forall j | 0 <= j < |s.started| :: Carriers(s.acts, s.started[j].k) == 0)
    && (forall i, j | 0 <= i < j < |s.started| :: s.started[i].k != s.started[j].k)
    && (!s.stopped ==>
          forall k :: k in s.running || k in s.finished ==> exists j :: 0 <= j < |s.started| && s.started[j].k == k)
  }

  ghost predicate Inv<T>(s: State<T>)
  {
    Shape(s) && Ledger(s) && StopRecord(s) && Counter(s) && Results(s) && OnePlaceEach(s) && StartedOnce(s)
  }

  // ----- Counting lemmas ---------------------------------------------------------------------

  lemma {:induction false} CountBound<T>(qs: seq<seq<T>>)
    ensures CountNonEmpty(qs) <= |qs|
    ensures CountNonEmpty(qs) == |qs| <==> AllNonEmpty(qs)
  {
    if qs != [] {
      CountBound(qs[1..]);
      assert AllNonEmpty(qs) <==> qs[0] != [] && AllNonEmpty(qs[1..]) by {
        if qs[0] != [] && AllNonEmpty(qs[1..]) {
          forall c | 0 <= c < |qs| ensures |qs[c]| > 0 { assert c > 0 ==> qs[c] == qs[1..][c - 1]; }
        }
      }
    }
  }

  lemma {:induction false} CountRefill<T>(qs: seq<seq<T>>, c: nat, q: seq<T>)
    requires c < |qs| && q != []
    ensures CountNonEmpty(qs[c := q]) == CountNonEmpty(qs) + if qs[c] == [] then 1 else 0
  {
    if c == 0 {
      assert qs[c := q][1..] == qs[1..];
    } else {
      CountRefill(qs[1..], c - 1, q);
      assert qs[c := q][1..] == qs[1..][c - 1 := q];
    }
  }

  lemma {:induction false} CarriersSet<T>(acts: seq<Phase<T>>, i: nat, p: Phase<T>, k: nat)
    requires i < |acts|
    ensures Carriers(acts[i := p], k) + (if Carries(acts[i]) && acts[i].asm.k == k then 1 else 0)
         == Carriers(acts, k) + (if Carries(p) && p.asm.k == k then 1 else 0)
  {
    if i == 0 {
      assert acts[i := p][1..] == acts[1..];
    } else {
      CarriersSet(acts[1..], i - 1, p, k);
      assert acts[i := p][1..] == acts[1..][i - 1 := p];
    }
  }

  lemma {:induction false} CarriersAppend<T>(acts: seq<Phase<T>>, p: Phase<T>, k: nat)
    requires !Carries(p)
    ensures Carriers(acts + [p], k) == Carriers(acts, k)
  {
    if acts != [] {
      CarriersAppend(acts[1..], p, k);
      assert (acts + [p])[1..] == acts[1..] + [p];
    }
  }

  /** All instances of CarriersSet for one change of activation i. */
  lemma CarriersSetAll<T>(acts: seq<Phase<T>>, i: nat, p: Phase<T>)
    requires i < |acts|
    ensures forall k: nat :: Carriers(acts[i := p], k)
                          + (if Carries(acts[i]) && acts[i].asm.k == k then 1 else 0)
                          == Carriers(acts, k) + (if Carries(p) && p.asm.k == k then 1 else 0)
  {
    forall k: nat { CarriersSet(acts, i, p, k); }
  }

  // ----- Every step keeps the invariant ------------------------------------------------------

  /** An arrival elects an assembler only when no activation owns the fronts. */
  lemma ElectedAlone<T>(s: State<T>, c: nat)
    requires Inv(s) && c < |s.queues| && s.queues[c] == [] && !s.stopped
    requires s.ready == |s.queues| - 1
    ensures forall i | 0 <= i < |s.acts| :: !Owns(s.acts[i])
  {
    CountBound(s.queues);
    assert !AllNonEmpty(s.queues);
  }

  lemma ArriveLedger<T>(s: State<T>, c: nat, x: T)
    requires Inv(s) && c < |s.queues|
    ensures Ledger(ArriveStep(s, c, x)) && StopRecord(ArriveStep(s, c, x))
  {
    var s' := ArriveStep(s, c, x);
    if !s.stopped {
      forall d | 0 <= d < |s.queues|
        ensures |s'.popped| <= |s'.arrived[d]| && s'.arrived[d][|s'.popped|..] == s'.drained[d] + s'.queues[d]
      {
        if d == c {
          assert s'.arrived[c][|s.popped|..] == s.arrived[c][|s.popped|..] + [x];
        }
      }
    }
  }

  lemma ArriveCounter<T>(s: State<T>, c: nat, x: T)
    requires Inv(s) && c < |s.queues|
    ensures Counter(ArriveStep(s, c, x))
  {
    var s' := ArriveStep(s, c, x);
    if !s.stopped {
      CountRefill(s.queues, c, s.queues[c] + [x]);
      CountBound(s.queues);
      CountBound(s'.queues);
      assert AllNonEmpty(s.queues) ==> AllNonEmpty(s'.queues);
      if s.queues[c] == [] && s.ready == |s.queues| - 1 {
        ElectedAlone(s, c);
        assert Owns(s'.acts[|s.acts|]);
      } else if i :| 0 <= i < |s.acts| && Owns(s.acts[i]) {
        assert Owns(s'.acts[i]);
      }
    }
  }

  lemma ArriveResults<T>(s: State<T>, c: nat, x: T)
    requires Inv(s) && c < |s.queues|
    ensures Results(ArriveStep(s, c, x))
  {
    var s' := ArriveStep(s, c, x);
    if AllNonEmpty(s.queues) {
      assert Fronts(s'.queues) == Fronts(s.queues);
    }
  }

  lemma ArriveKeepsInv<T>(s: State<T>, c: nat, x: T)
    requires Inv(s) && c < |s.queues|
    ensures Inv(ArriveStep(s, c, x))
  {
    var s' := ArriveStep(s, c, x);
    ArriveLedger(s, c, x);
    ArriveCounter(s, c, x);
    ArriveResults(s, c, x);
    forall k: nat ensures Carriers(s'.acts, k) == Carriers(s.acts, k) { CarriersAppend(s.acts, Claimed, k); }
    assert OnePlaceEach(s') by {
      forall k: nat ensures Places(s', k) == if k < |s'.popped| then 1 else 0 { assert Places(s', k) == Places(s, k); }
    }
    assert StartedOnce(s');
  }

  /** t is s as far as items and their histories go. */
  ghost predicate SameItems<T>(s: State<T>, t: State<T>)
  {
    && t.queues == s.queues && t.arrived == s.arrived && t.drained == s.drained && t.popped == s.popped
    && (s.stopped ==> t.stopped)
  }

  lemma ItemsKept<T>(s: State<T>, t: State<T>)
    requires Shape(s) && Ledger(s) && StopRecord(s) && SameItems(s, t)
    ensures Shape(t) && Ledger(t) && StopRecord(t)
  {}

  /** t is s with activation i in another phase that carries the same tuple, if any. */
  ghost predicate SameTuples<T>(s: State<T>, t: State<T>, i: nat)
  {
    && i < |s.acts| && |t.acts| == |s.acts| && t.acts == s.acts[i := t.acts[i]]
    && Carries(t.acts[i]) == Carries(s.acts[i]) && (Carries(s.acts[i]) ==> t.acts[i].asm == s.acts[i].asm)
    && t.popped == s.popped && t.running == s.running && t.finished == s.finished
    && t.started == s.started && t.stopped == s.stopped
  }

  lemma TuplesKept<T>(s: State<T>, t: State<T>, i: nat)
    requires OnePlaceEach(s) && StartedOnce(s) && SameTuples(s, t, i)
    ensures OnePlaceEach(t) && StartedOnce(t)
  {
    var p := t.acts[i];
    CarriersSetAll(s.acts, i, p);
    forall k: nat ensures Places(t, k) == if k < |t.popped| then 1 else 0 { assert Places(t, k) == Places(s, k); }
  }

  lemma CarriedKept<T>(s: State<T>, t: State<T>, i: nat)
    requires CarriedRight(s) && SameTuples(s, t, i)
    ensures CarriedRight(t)
  {
    assert forall j | 0 <= j < |s.acts| && j != i :: t.acts[j] == s.acts[j];
  }

  lemma ResultsKept<T>(s: State<T>, t: State<T>, i: nat)
    requires Results(s) && SameTuples(s, t, i) && SameItems(s, t) && !t.acts[i].Collected?
    ensures Results(t)
  {
    assert forall j | 0 <= j < |s.acts| && j != i :: t.acts[j] == s.acts[j];
  }

  lemma CollectCounter<T>(s: State<T>, i: nat)
    requires Counter(s) && Enabled(s, Collect(i))
    ensures Counter(Step(s, Collect(i)))
  {
    assert Owns(Step(s, Collect(i)).acts[i]);
  }

  lemma CollectKeepsInv<T>(s: State<T>, i: nat)
    requires Inv(s) && Enabled(s, Collect(i))
    ensures Inv(Step(s, Collect(i)))
  {
    var s' := Step(s, Collect(i));
    ItemsKept(s, s');
    TuplesKept(s, s', i);
    CollectCounter(s, i);
  }

  lemma PopLedger<T>(s: State<T>, i: nat)
    requires Inv(s) && Enabled(s, Pop(i))
    ensures Ledger(Step(s, Pop(i))) && StopRecord(Step(s, Pop(i)))
  {
    var s' := Step(s, Pop(i));
    var p := |s.popped|;
    forall c | 0 <= c < |s.queues|
      ensures |s'.popped| <= |s'.arrived[c]|
      ensures s'.arrived[c][|s'.popped|..] == s'.drained[c] + s'.queues[c]
      ensures s'.popped[p][c] == s'.arrived[c][p]
    {
      assert s.arrived[c][p..] == s.queues[c];
      assert s.arrived[c][p..][0] == s.arrived[c][p];
      assert s.arrived[c][p + 1..] == s.arrived[c][p..][1..];
    }
  }

  lemma PopCounter<T>(s: State<T>, i: nat)
    requires Counter(s) && Enabled(s, Pop(i))
    ensures Counter(Step(s, Pop(i)))
  {
    assert Owns(s.acts[i]) && Owns(Step(s, Pop(i)).acts[i]);
  }

  lemma PopPlaces<T>(s: State<T>, i: nat)
    requires OnePlaceEach(s) && StartedOnce(s) && Results(s) && Enabled(s, Pop(i))
    ensures OnePlaceEach(Step(s, Pop(i))) && StartedOnce(Step(s, Pop(i)))
  {
    var s' := Step(s, Pop(i));
    var p := s'.acts[i];
    CarriersSetAll(s.acts, i, p);
    forall k: nat ensures Places(s', k) == if k < |s'.popped| then 1 else 0 {
      assert Places(s', k) == Places(s, k) + if k == |s.popped| then 1 else 0;
    }
  }

  lemma PopResults<T>(s: State<T>, i: nat)
    requires Results(s) && Counter(s) && Enabled(s, Pop(i))
    ensures Results(Step(s, Pop(i)))
  {
    var s' := Step(s, Pop(i));
    assert s'.popped[|s.popped|] == Fronts(s.queues);
    assert forall k | 0 <= k < |s.popped| :: s'.popped[k] == s.popped[k];
    assert Owns(s.acts[i]);
  }

  lemma PopKeepsInv<T>(s: State<T>, i: nat)
    requires Inv(s) && Enabled(s, Pop(i))
    ensures Inv(Step(s, Pop(i)))
  {
    PopLedger(s, i);
    PopCounter(s, i);
    PopPlaces(s, i);
    PopResults(s, i);
  }

  lemma CheckStopCounter<T>(s: State<T>, i: nat)
    requires Counter(s) && Enabled(s, CheckStop(i))
    ensures Counter(Step(s, CheckStop(i)))
  {
    var s' := Step(s, CheckStop(i));
    assert Owns(s.acts[i]) && (!s.stopped ==> Owns(s'.acts[i]));
  }

  /** A stopped assembly completes its items and returns. */
  lemma StoppedTuple<T>(s: State<T>, i: nat)
    requires OnePlaceEach(s) && StartedOnce(s) && CarriedRight(s) && Enabled(s, CheckStop(i)) && s.stopped
    ensures var t := Step(s, CheckStop(i)); OnePlaceEach(t) && StartedOnce(t) && CarriedRight(t)
  {
    var t := Step(s, CheckStop(i));
    var p := t.acts[i];
    CarriersSetAll(s.acts, i, p);
    forall k: nat ensures Places(t, k) == if k < |t.popped| then 1 else 0 { assert Places(t, k) == Places(s, k); }
  }

  lemma CheckStopKeepsInv<T>(s: State<T>, i: nat)
    requires Inv(s) && Enabled(s, CheckStop(i))
    ensures Inv(Step(s, CheckStop(i)))
  {
    var s' := Step(s, CheckStop(i));
    ItemsKept(s, s');
    CheckStopCounter(s, i);
    if s.stopped {
      StoppedTuple(s, i);
    } else {
      TuplesKept(s, s', i);
      ResultsKept(s, s', i);
    }
  }

  lemma RecountCounter<T>(s: State<T>, i: nat)
    requires Counter(s) && Enabled(s, Recount(i))
    ensures Counter(Step(s, Recount(i)))
  {
    var s' := Step(s, Recount(i));
    CountBound(s.queues);
    assert Owns(s.acts[i]) && (s'.acts[i].owed ==> Owns(s'.acts[i]));
  }

  lemma RecountKeepsInv<T>(s: State<T>, i: nat)
    requires Inv(s) && Enabled(s, Recount(i))
    ensures Inv(Step(s, Recount(i)))
  {
    var s' := Step(s, Recount(i));
    ItemsKept(s, s');
    TuplesKept(s, s', i);
    ResultsKept(s, s', i);
    RecountCounter(s, i);
  }

  lemma StartCounter<T>(s: State<T>, i: nat)
    requires Counter(s) && Enabled(s, Start(i))
    ensures Counter(Step(s, Start(i)))
  {
    var s' := Step(s, Start(i));
    if s.acts[i].owed {
      assert Owns(s.acts[i]) && Owns(s'.acts[i]);
    } else if j :| 0 <= j < |s.acts| && Owns(s.acts[j]) {
      assert Owns(s'.acts[j]);
    }
  }

  lemma StartPlaces<T>(s: State<T>, i: nat)
    requires OnePlaceEach(s) && CarriedRight(s) && Enabled(s, Start(i))
    ensures s.acts[i].asm.k !in s.running
    ensures Carriers(Step(s, Start(i)).acts, s.acts[i].asm.k) == 0
    ensures OnePlaceEach(Step(s, Start(i)))
    ensures forall k: nat :: Carriers(Step(s, Start(i)).acts, k) <= Carriers(s.acts, k)
  {
    var s' := Step(s, Start(i));
    var k0 := s.acts[i].asm.k;
    CarriersSetAll(s.acts, i, s'.acts[i]);
    assert Places(s, k0) == 1;
    forall k: nat ensures Places(s', k) == if k < |s'.popped| then 1 else 0 { assert Places(s', k) == Places(s, k); }
  }

  lemma StartOnceMore<T>(s: State<T>, i: nat)
    requires OnePlaceEach(s) && CarriedRight(s) && StartedOnce(s) && Enabled(s, Start(i))
    ensures StartedOnce(Step(s, Start(i)))
  {
    var s' := Step(s, Start(i));
    var k0 := s.acts[i].asm.k;
    StartPlaces(s, i);
    CarriersSet(s.acts, i, s'.acts[i], k0);
    assert s'.started[|s.started|].k == k0;
    forall j | 0 <= j < |s.started| ensures s.started[j].k != k0 && s'.started[j] == s.started[j] {
      assert Carriers(s.acts, s.started[j].k) == 0;
    }
    forall k | !s.stopped && (k in s'.running || k in s'.finished)
      ensures exists j :: 0 <= j < |s'.started| && s'.started[j].k == k
    {
      if k != k0 {
        var j :| 0 <= j < |s.started| && s.started[j].k == k;
        assert s'.started[j].k == k;
      }
    }
  }

  lemma StartResults<T>(s: State<T>, i: nat)
    requires CarriedRight(s) && Enabled(s, Start(i))
    ensures CarriedRight(Step(s, Start(i)))
  {}

  lemma StartKeepsInv<T>(s: State<T>, i: nat)
    requires Inv(s) && Enabled(s, Start(i))
    ensures Inv(Step(s, Start(i)))
  {
    ItemsKept(s, Step(s, Start(i)));
    StartCounter(s, i);
    StartPlaces(s, i);
    StartOnceMore(s, i);
    StartResults(s, i);
  }

  lemma HandOnCounter<T>(s: State<T>, i: nat)
    requires Counter(s) && Enabled(s, HandOn(i))
    ensures Counter(Step(s, HandOn(i)))
  {
    var s' := Step(s, HandOn(i));
    assert Owns(s.acts[i]);
    assert OwnedCounter(s, s.acts[i]);
    assert Owns(s'.acts[i]);
  }

  lemma HandOnKeepsInv<T>(s: State<T>, i: nat)
    requires Inv(s) && Enabled(s, HandOn(i))
    ensures Inv(Step(s, HandOn(i)))
  {
    var s' := Step(s, HandOn(i));
    ItemsKept(s, s');
    TuplesKept(s, s', i);
    ResultsKept(s, s', i);
    HandOnCounter(s, i);
  }

  lemma FinishTuples<T>(s: State<T>, k0: nat)
    requires OnePlaceEach(s) && StartedOnce(s) && Enabled(s, Finish(k0))
    ensures OnePlaceEach(Step(s, Finish(k0))) && StartedOnce(Step(s, Finish(k0)))
  {
    var s' := Step(s, Finish(k0));
    assert s'.acts == s.acts;
    forall k: nat ensures Places(s', k) == if k < |s'.popped| then 1 else 0 { assert Places(s', k) == Places(s, k); }
  }

  lemma FinishKeepsInv<T>(s: State<T>, k0: nat)
    requires Inv(s) && Enabled(s, Finish(k0))
    ensures Inv(Step(s, Finish(k0)))
  {
    assert Step(s, Finish(k0)).acts == s.acts;
    ItemsKept(s, Step(s, Finish(k0)));
    FinishTuples(s, k0);
  }

  lemma RequestStopKeepsInv<T>(s: State<T>)
    requires Inv(s)
    ensures Inv(Step(s, RequestStop))
  {
    var s' := Step(s, RequestStop);
    assert s'.acts == s.acts;
    assert Counter(s');
    assert OnePlaceEach(s') by {
      forall k: nat ensures Places(s', k) == if k < |s'.popped| then 1 else 0 { assert Places(s', k) == Places(s, k); }
    }
    assert StartedOnce(s');
  }

  /** notify_stop may empty the queues only while no activation counts on their fronts. */
  predicate Safe<T>(s: State<T>, e: Event<T>)
  {
    e.Drain? ==> forall i | 0 <= i < |s.acts| :: !NeedsFronts(s.acts[i])
  }

  lemma DrainKeepsInvIff<T>(s: State<T>)
    requires Inv(s) && Enabled(s, Drain)
    ensures Inv(Step(s, Drain)) <==> Safe(s, Drain)
  {
    var s' := Step(s, Drain);
    assert s'.queues[0] == [];
    if Safe(s, Drain) {
      forall c | 0 <= c < |s.queues| ensures s'.arrived[c][|s'.popped|..] == s'.drained[c] + s'.queues[c] {
        assert s'.drained[c] + [] == s'.drained[c];
      }
      assert Counter(s');
      assert OnePlaceEach(s') by {
        forall k: nat ensures Places(s', k) == if k < |s'.popped| then 1 else 0 {
          assert Places(s', k) == Places(s, k);
        }
      }
      assert StartedOnce(s');
    } else {
      var i :| 0 <= i < |s.acts| && NeedsFronts(s.acts[i]);
      assert Owns(s'.acts[i]);
      assert !OwnedCounter(s', s'.acts[i]);
    }
  }

  /** A step keeps the invariant, except a drain that robs an activation of its fronts. */
  lemma StepKeepsInvIff<T>(s: State<T>, e: Event<T>)
    requires Inv(s) && Enabled(s, e)
    ensures Inv(Step(s, e)) <==> Safe(s, e)
  {
    match e
    case Arrive(c, x) => ArriveKeepsInv(s, c, x);
    case Collect(i) => CollectKeepsInv(s, i);
    case Pop(i) => PopKeepsInv(s, i);
    case CheckStop(i) => CheckStopKeepsInv(s, i);
    case Recount(i) => RecountKeepsInv(s, i);
    case Start(i) => StartKeepsInv(s, i);
    case HandOn(i) => HandOnKeepsInv(s, i);
    case Finish(k) => FinishKeepsInv(s, k);
    case RequestStop => RequestStopKeepsInv(s);
    case Drain => DrainKeepsInvIff(s);
  }

  // ----- Runs --------------------------------------------------------------------------------

  ghost predicate Run<T>(s: State<T>, es: seq<Event<T>>, t: State<T>)
    decreases |es|
  {
    if es == [] then s == t else Enabled(s, es[0]) && Run(Step(s, es[0]), es[1..], t)
  }

  /** No drain of the run robs an activation of its fronts. */
  ghost predicate Safely<T>(s: State<T>, es: seq<Event<T>>)
    decreases |es|
  {
    es == [] || (Enabled(s, es[0]) && Safe(s, es[0]) && Safely(Step(s, es[0]), es[1..]))
  }

  predicate StopFree<T>(es: seq<Event<T>>)
  {
    forall i | 0 <= i < |es| :: !es[i].RequestStop?
  }

  /** The items the events hand to child c, in order. */
  function Items<T>(es: seq<Event<T>>, c: nat): seq<T>
  {
    if es == [] then []
    else ItemFor(es[0], c) + Items(es[1..], c)
  }

  lemma InitInv<T>(n: nat)
    requires n >= 1
    ensures Inv<T>(Init(n))
  {
    var s := Init<T>(n);
    assert s.queues[0] == [];
    assert CountNonEmpty(s.queues) == 0 by { NoneNonEmpty(s.queues); }
  }

  lemma {:induction false} NoneNonEmpty<T>(qs: seq<seq<T>>)
    requires forall c | 0 <= c < |qs| :: qs[c] == []
    ensures CountNonEmpty(qs) == 0
  {
    if qs != [] { NoneNonEmpty(qs[1..]); }
  }

  lemma {:induction false} RunKeepsInv<T>(s: State<T>, es: seq<Event<T>>, t: State<T>)
    requires Inv(s) && Run(s, es, t) && Safely(s, es)
    ensures Inv(t) && |t.queues| == |s.queues|
    decreases |es|
  {
    if es != [] {
      StepKeepsInvIff(s, es[0]);
      RunKeepsInv(Step(s, es[0]), es[1..], t);
    }
  }

  predicate Drains<T>(es: seq<Event<T>>)
  {
    exists i :: 0 <= i < |es| && es[i].Drain?
  }

  lemma {:induction false} WithoutDrainSafe<T>(s: State<T>, es: seq<Event<T>>, t: State<T>)
    requires Run(s, es, t) && !Drains(es)
    ensures Safely(s, es)
    decreases |es|
  {
    if es != [] {
      assert forall i | 0 <= i < |es[1..]| :: es[1..][i] == es[i + 1];
      WithoutDrainSafe(Step(s, es[0]), es[1..], t);
    }
  }

  lemma {:induction false} StopFreeDrainFree<T>(s: State<T>, es: seq<Event<T>>, t: State<T>)
    requires Run(s, es, t) && StopFree(es) && !s.stopped
    ensures !Drains(es) && !t.stopped
    decreases |es|
  {
    if es != [] {
      assert forall i | 0 <= i < |es[1..]| :: es[1..][i] == es[i + 1];
      StopFreeDrainFree(Step(s, es[0]), es[1..], t);
      assert forall i | 0 < i < |es| :: es[i] == es[1..][i - 1];
    }
  }

  /** In a stop-free run the invariant holds throughout. */
  lemma StopFreeKeepsInv<T>(n: nat, es: seq<Event<T>>, t: State<T>)
    requires n >= 1 && Run(Init(n), es, t) && StopFree(es)
    ensures Inv(t) && |t.queues| == n && !t.stopped
  {
    InitInv<T>(n);
    StopFreeDrainFree(Init(n), es, t);
    WithoutDrainSafe(Init(n), es, t);
    RunKeepsInv(Init(n), es, t);
  }

  // ----- After a drain -----------------------------------------------------------------------

  ghost predicate NothingQueued<T>(s: State<T>)
  {
    forall c | 0 <= c < |s.queues| :: s.queues[c] == []
  }

  /** What holds in every state of every run, robbed activations or not. */
  ghost predicate Kept<T>(s: State<T>)
  {
    && Shape(s) && Ledger(s) && StopRecord(s) && SingleOwner(s) && CarriedRight(s) && OnePlaceEach(s) && StartedOnce(s)
  }

  /** A state after a drain. */
  ghost predicate Drained<T>(s: State<T>)
  {
    Kept(s) && s.stopped && NothingQueued(s)
  }

  lemma DrainedDrains<T>(s: State<T>)
    requires Kept(s) && Enabled(s, Drain)
    ensures Drained(Step(s, Drain))
  {
    var t := Step(s, Drain);
    forall c | 0 <= c < |s.queues| ensures t.arrived[c][|t.popped|..] == t.drained[c] + t.queues[c] {
      assert t.drained[c] + [] == t.drained[c];
    }
    assert t.acts == s.acts;
    forall k: nat ensures Places(t, k) == if k < |t.popped| then 1 else 0 { assert Places(t, k) == Places(s, k); }
  }

  lemma DrainedChecksStop<T>(s: State<T>, i: nat)
    requires Drained(s) && Enabled(s, CheckStop(i))
    ensures Drained(Step(s, CheckStop(i)))
  {
    StoppedTuple(s, i);
    ItemsKept(s, Step(s, CheckStop(i)));
  }

  lemma DrainedRecounts<T>(s: State<T>, i: nat)
    requires Drained(s) && Enabled(s, Recount(i))
    ensures Drained(Step(s, Recount(i)))
  {
    var t := Step(s, Recount(i));
    NoneNonEmpty(s.queues);
    TuplesKept(s, t, i);
    CarriedKept(s, t, i);
    ItemsKept(s, t);
    assert !Owns(t.acts[i]);
  }

  lemma DrainedStarts<T>(s: State<T>, i: nat)
    requires Drained(s) && Enabled(s, Start(i))
    ensures Drained(Step(s, Start(i)))
  {
    var t := Step(s, Start(i));
    StartPlaces(s, i);
    StartOnceMore(s, i);
    StartResults(s, i);
    ItemsKept(s, t);
    assert Owns(t.acts[i]) ==> Owns(s.acts[i]);
  }

  lemma StepKeepsDrained<T>(s: State<T>, e: Event<T>)
    requires Drained(s) && Enabled(s, e)
    ensures Drained(Step(s, e))
  {
    assert s.queues[0] == [];
    match e
    case Arrive(_, _) =>
    case CheckStop(i) => DrainedChecksStop(s, i);
    case Recount(i) => DrainedRecounts(s, i);
    case Start(i) => DrainedStarts(s, i);
    case Finish(k) => FinishTuples(s, k); ItemsKept(s, Step(s, e));
    case RequestStop =>
    case Drain => DrainedDrains(s);
    case _ =>
  }

  /** Every run: the invariant holds, or a drain has emptied the queues for good. */
  lemma {:induction false} RunKeeps<T>(s: State<T>, es: seq<Event<T>>, t: State<T>)
    requires (Inv(s) || Drained(s)) && Run(s, es, t)
    ensures (Inv(t) || Drained(t)) && |t.queues| == |s.queues|
    decreases |es|
  {
    if es != [] {
      var s1 := Step(s, es[0]);
      if Drained(s) { StepKeepsDrained(s, es[0]); }
      else {
        StepKeepsInvIff(s, es[0]);
        if es[0].Drain? { DrainedDrains(s); }
      }
      RunKeeps(s1, es[1..], t);
    }
  }

  /** An activation waits for fronts that a drain has taken away. */
  ghost predicate Robbed<T>(s: State<T>)
  {
    Shape(s) && s.stopped && NothingQueued(s) && exists i :: 0 <= i < |s.acts| && NeedsFronts(s.acts[i])
  }

  lemma {:induction false} RobbedForGood<T>(s: State<T>, es: seq<Event<T>>, t: State<T>)
    requires Robbed(s) && Run(s, es, t)
    ensures Robbed(t) && !Inv(t)
    decreases |es|
  {
    var i :| 0 <= i < |s.acts| && NeedsFronts(s.acts[i]);
    assert s.queues[0] == [];
    if es == [] {
      assert Owns(s.acts[i]) && !OwnedCounter(s, s.acts[i]);
    } else {
      assert NeedsFronts(Step(s, es[0]).acts[i]);
      RobbedForGood(Step(s, es[0]), es[1..], t);
    }
  }

  /** The first unsafe drain of a run robs an activation for good. */
  lemma {:induction false} UnsafeIsRobbed<T>(s: State<T>, es: seq<Event<T>>, t: State<T>)
    requires Inv(s) && Run(s, es, t) && !Safely(s, es)
    ensures Robbed(t) && !Inv(t)
    decreases |es|
  {
    var s1 := Step(s, es[0]);
    StepKeepsInvIff(s, es[0]);
    if Safe(s, es[0]) {
      UnsafeIsRobbed(s1, es[1..], t);
    } else {
      var i :| 0 <= i < |s.acts| && NeedsFronts(s.acts[i]);
      assert NeedsFronts(s1.acts[i]);
      RobbedForGood(s1, es[1..], t);
    }
  }

  /** The invariant holds at the end of a run if and only if no drain of the run robbed an activation. */
  lemma RunKeepsInvIff<T>(s: State<T>, es: seq<Event<T>>, t: State<T>)
    requires Inv(s) && Run(s, es, t)
    ensures Inv(t) <==> Safely(s, es)
  {
    if Safely(s, es) { RunKeepsInv(s, es, t); } else { UnsafeIsRobbed(s, es, t); }
  }

  function ItemFor<T>(e: Event<T>, c: nat): seq<T>
  {
    if e.Arrive? && e.child == c then [e.item] else []
  }

  lemma StepArrivals<T>(s: State<T>, e: Event<T>, c: nat)
    requires Enabled(s, e) && !s.stopped && !e.RequestStop? && c < |s.queues|
    ensures !Step(s, e).stopped && c < |Step(s, e).arrived| && |Step(s, e).queues| == |s.queues|
    ensures Step(s, e).arrived[c] == s.arrived[c] + ItemFor(e, c)
  {
    assert s.arrived[c] + [] == s.arrived[c];
  }

  lemma Associative<T>(a: seq<T>, b: seq<T>, c: seq<T>)
    ensures (a + b) + c == a + (b + c)
  {}

  lemma {:induction false} RunArrivals<T>(s: State<T>, es: seq<Event<T>>, t: State<T>, c: nat)
    requires Run(s, es, t) && StopFree(es) && !s.stopped && c < |s.queues| == |s.arrived|
    ensures !t.stopped && c < |t.arrived| && t.arrived[c] == s.arrived[c] + Items(es, c)
    decreases |es|
  {
    if es == [] {
      assert s.arrived[c] + [] == s.arrived[c];
    } else {
      var s1 := Step(s, es[0]);
      StepArrivals(s, es[0], c);
      forall i | 0 <= i < |es[1..]| ensures !es[1..][i].RequestStop? { assert es[1..][i] == es[i + 1]; }
      RunArrivals(s1, es[1..], t, c);
      Associative(s.arrived[c], ItemFor(es[0], c), Items(es[1..], c));
    }
  }

  // ----- Main results ------------------------------------------------------------------------

  predicate StopAsked<T>(es: seq<Event<T>>)
  {
    es != [] && (es[0].RequestStop? || StopAsked(es[1..]))
  }

  /** The events before the first stop request. */
  function BeforeStop<T>(es: seq<Event<T>>): seq<Event<T>>
  {
    if es == [] || es[0].RequestStop? then [] else [es[0]] + BeforeStop(es[1..])
  }

  lemma ItemsSplit<T>(e: Event<T>, es: seq<Event<T>>, c: nat)
    ensures Items([e] + es, c) == ItemFor(e, c) + Items(es, c)
  {
    assert ([e] + es)[1..] == es;
  }

  lemma {:induction false} RunAccepts<T>(s: State<T>, es: seq<Event<T>>, t: State<T>, c: nat)
    requires Run(s, es, t) && c < |s.queues| == |s.arrived|
    ensures c < |t.arrived| && (t.stopped <==> s.stopped || StopAsked(es))
    ensures t.arrived[c] == s.arrived[c] + if s.stopped then [] else Items(BeforeStop(es), c)
    decreases |es|
  {
    if es == [] {
      assert s.arrived[c] + [] == s.arrived[c];
    } else {
      var s1 := Step(s, es[0]);
      RunAccepts(s1, es[1..], t, c);
      if !s.stopped && !es[0].RequestStop? {
        StepArrivals(s, es[0], c);
        ItemsSplit(es[0], BeforeStop(es[1..]), c);
        Associative(s.arrived[c], ItemFor(es[0], c), Items(BeforeStop(es[1..]), c));
      }
    }
  }

  /** What is accepted from a child is, in every run, what it delivered before the first stop request. */
  lemma AcceptedIsBeforeStop<T>(n: nat, es: seq<Event<T>>, t: State<T>, c: nat)
    requires n >= 1 && Run(Init(n), es, t) && c < n
    ensures c < |t.arrived| && t.arrived[c] == Items(BeforeStop(es), c)
    ensures Items(BeforeStop(es), c) <= Items(es, c)
  {
    RunAccepts(Init(n), es, t, c);
    assert [] + Items(BeforeStop(es), c) == Items(BeforeStop(es), c);
    BeforeStopIsFirstPart(es, c);
  }

  lemma {:induction false} BeforeStopIsFirstPart<T>(es: seq<Event<T>>, c: nat)
    ensures Items(BeforeStop(es), c) <= Items(es, c)
  {
    if es != [] && !es[0].RequestStop? {
      BeforeStopIsFirstPart(es[1..], c);
      ItemsSplit(es[0], BeforeStop(es[1..]), c);
    }
  }

  /** Alignment, in every run: the k-th tuple is made of the k-th item of every child, downstream
      included. */
  lemma Alignment<T>(n: nat, es: seq<Event<T>>, t: State<T>)
    requires n >= 1 && Run(Init(n), es, t)
    ensures forall k, c | 0 <= k < |t.popped| && 0 <= c < n ::
              c < |t.popped[k]| && k < |Items(es, c)| && t.popped[k][c] == Items(es, c)[k]
    ensures forall j | 0 <= j < |t.started| ::
              t.started[j].k < |t.popped| && t.started[j].result == t.popped[t.started[j].k]
  {
    InitInv<T>(n);
    RunKeeps(Init(n), es, t);
    forall c | 0 <= c < n ensures c < |t.arrived| && t.arrived[c] <= Items(es, c) {
      AcceptedIsBeforeStop(n, es, t, c);
    }
  }

  /** In a stop-free run every item of a child is in a tuple or in its queue. */
  lemma InTupleOrQueue<T>(n: nat, es: seq<Event<T>>, t: State<T>, c: nat)
    requires n >= 1 && Run(Init(n), es, t) && StopFree(es) && c < n
    ensures |t.queues| == n && |t.popped| + |t.queues[c]| == |Items(es, c)|
  {
    StopFreeKeepsInv(n, es, t);
    RunArrivals(Init(n), es, t, c);
    var arrived := t.arrived[c];
    assert arrived == Items(es, c) by { assert [] + Items(es, c) == Items(es, c); }
    assert |arrived[|t.popped|..]| == |t.drained[c] + t.queues[c]| && t.drained[c] == [];
  }

  lemma SomeQueueIsEmpty<T>(s: State<T>)
    requires Counter(s) && !s.stopped && forall i | 0 <= i < |s.acts| :: !Owns(s.acts[i])
    ensures exists c :: 0 <= c < |s.queues| && |s.queues[c]| == 0
  {
    CountBound(s.queues);
  }

  /** Outside an assembly: as many tuples were formed as the slowest child delivered items. */
  lemma TuplesAreTheMinimum<T>(n: nat, es: seq<Event<T>>, t: State<T>)
    requires n >= 1 && Run(Init(n), es, t) && StopFree(es)
    requires forall i | 0 <= i < |t.acts| :: !Owns(t.acts[i])
    ensures forall c | 0 <= c < n :: |t.popped| <= |Items(es, c)|
    ensures exists c :: 0 <= c < n && |t.popped| == |Items(es, c)|
  {
    forall c | 0 <= c < n ensures |t.queues| == n && |t.popped| + |t.queues[c]| == |Items(es, c)| {
      InTupleOrQueue(n, es, t, c);
    }
    assert Counter(t) && !t.stopped by { StopFreeKeepsInv(n, es, t); }
    InTupleOrQueue(n, es, t, 0);
    SomeQueueIsEmpty(t);
    var c :| 0 <= c < |t.queues| && |t.queues[c]| == 0;
    assert |t.popped| == |Items(es, c)|;
  }

  lemma CounterOf<T>(s: State<T>)
    requires Inv(s)
    ensures !s.stopped && (forall i | 0 <= i < |s.acts| :: !Owns(s.acts[i])) ==>
              s.ready == CountNonEmpty(s.queues) < |s.queues|
    ensures forall i | 0 <= i < |s.acts| && (s.acts[i].Popped? || s.acts[i].Passed?) && !s.stopped ::
              s.ready == -1 + (CountNonEmpty(s.queues) - s.residue)
              && (!AllNonEmpty(s.queues) ==> s.ready < |s.queues| - 1)
    ensures forall i | 0 <= i < |s.acts| && Owns(s.acts[i]) && (s.acts[i].Starting? || s.acts[i].Handing?) ::
              s.ready == |s.queues| - 1 && AllNonEmpty(s.queues)
  {
    CountBound(s.queues);
    forall i | 0 <= i < |s.acts| && Owns(s.acts[i]) ensures OwnedCounter(s, s.acts[i]) {}
  }

  /** The single owner of the queue fronts, in every run, and what the readiness counter is worth: the
      last unless a drain robbed an activation, the others until a stop is requested. */
  lemma ReadinessCounter<T>(n: nat, es: seq<Event<T>>, t: State<T>)
    requires n >= 1 && Run(Init(n), es, t)
    ensures forall i, j | 0 <= i < |t.acts| && 0 <= j < |t.acts| && Owns(t.acts[i]) && Owns(t.acts[j]) :: i == j
    ensures !t.stopped && (forall i | 0 <= i < |t.acts| :: !Owns(t.acts[i])) ==>
              t.ready == CountNonEmpty(t.queues) < n
    ensures forall i | 0 <= i < |t.acts| && (t.acts[i].Popped? || t.acts[i].Passed?) && !t.stopped ::
              t.ready == -1 + (CountNonEmpty(t.queues) - t.residue)
              && (!AllNonEmpty(t.queues) ==> t.ready < n - 1)
    ensures Safely(Init(n), es) ==>
              forall i | 0 <= i < |t.acts| && Owns(t.acts[i]) && (t.acts[i].Starting? || t.acts[i].Handing?) ::
                t.ready == n - 1 && AllNonEmpty(t.queues)
  {
    InitInv<T>(n);
    RunKeeps(Init(n), es, t);
    RunKeepsInvIff(Init(n), es, t);
    if Inv(t) { CounterOf(t); }
  }

  /** The event an activation performs next. */
  function NextOf<T>(p: Phase<T>, i: nat): Event<T>
    requires !p.Gone?
  {
    match p
    case Claimed => Collect(i)
    case Collected(_) => Pop(i)
    case Popped(_) => CheckStop(i)
    case Passed(_) => Recount(i)
    case Starting(_, _) => Start(i)
    case Handing => HandOn(i)
  }

  /** No activation meets an empty front, and a hand-over always claims the next tuple. */
  lemma NoMissingFront<T>(s: State<T>, i: nat)
    requires Inv(s) && i < |s.acts| && !s.acts[i].Gone?
    ensures Enabled(s, NextOf(s.acts[i], i))
    ensures s.acts[i].Handing? ==> Step(s, HandOn(i)).acts[i].Claimed?
  {
    if Owns(s.acts[i]) { assert OwnedCounter(s, s.acts[i]); }
  }

  /** Phases whose next step reads the fronts. */
  predicate WaitsForFronts<T>(p: Phase<T>)
  {
    p.Claimed? || p.Collected? || p.Handing?
  }

  /** In every run an activation is blocked if and only if it needs fronts that a drain took away; and
      without a drain a hand-over always claims the next tuple. */
  lemma BlockedIffDrained<T>(n: nat, es: seq<Event<T>>, t: State<T>, i: nat)
    requires n >= 1 && Run(Init(n), es, t) && i < |t.acts| && !t.acts[i].Gone?
    ensures !Enabled(t, NextOf(t.acts[i], i)) <==> Drains(es) && WaitsForFronts(t.acts[i])
    ensures t.acts[i].Handing? && !Drains(es) ==> Step(t, HandOn(i)).acts[i].Claimed?
  {
    InitInv<T>(n);
    RunKeeps(Init(n), es, t);
    if Drains(es) {
      DrainedStaysEmpty(Init(n), es, t);
      assert t.queues[0] == [];
    } else {
      WithoutDrainSafe(Init(n), es, t);
      RunKeepsInv(Init(n), es, t);
      NoMissingFront(t, i);
    }
  }

  ghost predicate CompletedOnce<T>(s: State<T>, k: nat)
  {
    multiset(s.finished)[k] == 1
  }

  /** Exactly once: a tuple's items are completed at most once in any run, and when no activation and no
      zipped operation carries any they have been completed exactly once for every tuple formed. */
  lemma EveryTupleCompletedOnce<T>(n: nat, es: seq<Event<T>>, t: State<T>)
    requires n >= 1 && Run(Init(n), es, t)
    ensures forall k :: multiset(t.finished)[k] <= 1
    ensures forall k | k in t.finished :: k < |t.popped|
    ensures (forall i | 0 <= i < |t.acts| :: !Carries(t.acts[i])) && t.running == {} ==>
              forall k | 0 <= k < |t.popped| :: CompletedOnce(t, k)
  {
    InitInv<T>(n);
    RunKeeps(Init(n), es, t);
    assert OnePlaceEach(t);
    forall k: nat ensures multiset(t.finished)[k] <= 1 {
      assert Places(t, k) <= 1;
    }
    forall k: nat | k in t.finished ensures k < |t.popped| {
      assert multiset(t.finished)[k] >= 1;
      assert Places(t, k) >= 1;
    }
    if (forall i | 0 <= i < |t.acts| :: !Carries(t.acts[i])) && t.running == {} {
      forall k | 0 <= k < |t.popped| ensures CompletedOnce(t, k) {
        NoCarriers(t.acts, k);
        assert Places(t, k) == 1;
      }
    }
  }

  lemma {:induction false} NoCarriers<T>(acts: seq<Phase<T>>, k: nat)
    requires forall i | 0 <= i < |acts| :: !Carries(acts[i])
    ensures Carriers(acts, k) == 0
  {
    if acts != [] { NoCarriers(acts[1..], k); }
  }

  /** Once a drain has run the queues are empty and the counter is 0, and they stay so. */
  lemma {:induction false} DrainedStaysEmpty<T>(s: State<T>, es: seq<Event<T>>, t: State<T>)
    requires Shape(s) && Run(s, es, t) && (Drains(es) || (s.stopped && NothingQueued(s)))
    ensures t.stopped && NothingQueued(t)
    ensures Drains(es) || s.ready == 0 ==> t.ready == 0
    decreases |es|
  {
    if es != [] {
      var s1 := Step(s, es[0]);
      if s.stopped && NothingQueued(s) {
        assert s.queues[0] == [];
        NoneNonEmpty(s.queues);
      } else if !es[0].Drain? {
        var i :| 0 <= i < |es| && es[i].Drain?;
        assert es[1..][i - 1].Drain?;
      }
      DrainedStaysEmpty(s1, es[1..], t);
    }
  }

  /** No item is lost to a stop: whatever a child delivered and no tuple took was drained, in
      order, or is still queued; once a drain has run nothing is queued, and nothing will be. */
  lemma StopLosesNothing<T>(n: nat, es: seq<Event<T>>, t: State<T>, c: nat)
    requires n >= 1 && Run(Init(n), es, t) && c < n
    ensures |t.arrived| == |t.drained| == |t.queues| == n && |t.popped| <= |t.arrived[c]|
    ensures t.arrived[c][|t.popped|..] == t.drained[c] + t.queues[c]
    ensures Drains(es) ==> t.arrived[c][|t.popped|..] == t.drained[c]
  {
    InitInv<T>(n);
    RunKeeps(Init(n), es, t);
    if Drains(es) {
      DrainedStaysEmpty(Init(n), es, t);
      assert t.drained[c] + t.queues[c] == t.drained[c];
    }
  }

  // ----- Stop requests -----------------------------------------------------------------------

  /** The step completes the items of tuple k because a stop was requested. */
  ghost predicate Discards<T>(s: State<T>, e: Event<T>, k: nat)
  {
    Enabled(s, e) && e.CheckStop? && s.stopped && s.acts[e.i].asm.k == k
  }

  ghost predicate Discarded<T>(s: State<T>, es: seq<Event<T>>, k: nat)
    decreases |es|
  {
    es != [] && Enabled(s, es[0]) && (Discards(s, es[0], k) || Discarded(Step(s, es[0]), es[1..], k))
  }

  ghost predicate WasStarted<T>(s: State<T>, k: nat)
  {
    exists j :: 0 <= j < |s.started| && s.started[j].k == k
  }

  /** Tuple k has left its activation. */
  ghost predicate Out<T>(s: State<T>, k: nat)
  {
    k in s.running || k in s.finished
  }

  lemma StartedIsOut<T>(s: State<T>, k: nat)
    requires Kept(s) && WasStarted(s, k)
    ensures Out(s, k)
  {
    assert Places(s, k) == 1;
  }

  lemma CarriedIsNotOut<T>(s: State<T>, i: nat)
    requires Kept(s) && i < |s.acts| && Carries(s.acts[i])
    ensures !Out(s, s.acts[i].asm.k)
  {
    var k := s.acts[i].asm.k;
    CarriersSet(s.acts, i, Gone, k);
    assert Places(s, k) == 1;
  }

  /** A tuple leaves its activation once: downstream, or discarded. */
  lemma StepStarts<T>(s: State<T>, e: Event<T>, k: nat)
    requires Kept(s) && Enabled(s, e)
    ensures var t := Step(s, e);
            && (Out(s, k) ==> Out(t, k) && !Discards(s, e, k) && (WasStarted(t, k) <==> WasStarted(s, k)))
            && (!Out(s, k) && Out(t, k) ==> (WasStarted(t, k) <==> !Discards(s, e, k)))
            && (!Out(t, k) ==> !Discards(s, e, k))
  {
    var t := Step(s, e);
    if e.CheckStop? || e.Start? { CarriedIsNotOut(s, e.i); }
    if WasStarted(s, k) {
      StartedIsOut(s, k);
      var j :| 0 <= j < |s.started| && s.started[j].k == k;
      assert t.started[j].k == k;
    }
    if e.Start? && s.acts[e.i].asm.k == k { assert t.started[|s.started|].k == k; }
  }

  lemma StepKeepsKept<T>(s: State<T>, e: Event<T>)
    requires (Inv(s) || Drained(s)) && Enabled(s, e)
    ensures Inv(Step(s, e)) || Drained(Step(s, e))
  {
    RunKeeps(s, [e], Step(s, e));
  }

  lemma {:induction false} RunStarts<T>(s: State<T>, es: seq<Event<T>>, t: State<T>, k: nat)
    requires (Inv(s) || Drained(s)) && Run(s, es, t)
    ensures Out(s, k) ==> Out(t, k) && !Discarded(s, es, k) && (WasStarted(t, k) <==> WasStarted(s, k))
    ensures !Out(s, k) && Out(t, k) ==> (WasStarted(t, k) <==> !Discarded(s, es, k))
    decreases |es|
  {
    if es != [] {
      StepStarts(s, es[0], k);
      StepKeepsKept(s, es[0]);
      RunStarts(Step(s, es[0]), es[1..], t, k);
    }
  }

  /** In every run a tuple that has left its activation was handed downstream, unless a stop had been
      requested when the activation tested for one. */
  lemma HandedDownUnlessStopped<T>(n: nat, es: seq<Event<T>>, t: State<T>, k: nat)
    requires n >= 1 && Run(Init(n), es, t) && (k in t.running || k in t.finished)
    ensures (exists j :: 0 <= j < |t.started| && t.started[j].k == k) <==> !Discarded(Init(n), es, k)
    ensures t.stopped <==> StopAsked(es)
  {
    InitInv<T>(n);
    RunStarts(Init(n), es, t, k);
    RunAccepts(Init(n), es, t, 0);
  }

  /** The tuple whose items event e completes, if it does: a zipped operation completed, or a stop was found. */
  ghost function CompletedBy<T>(s: State<T>, e: Event<T>): seq<nat>
    requires Enabled(s, e)
  {
    if e.Finish? then [e.k] else if e.CheckStop? && s.stopped then [s.acts[e.i].asm.k] else []
  }

  ghost function CompletedIn<T>(s: State<T>, es: seq<Event<T>>): seq<nat>
    decreases |es|
  {
    if es == [] || !Enabled(s, es[0]) then [] else CompletedBy(s, es[0]) + CompletedIn(Step(s, es[0]), es[1..])
  }

  /** Items of tuples are completed in the order in which the run completes them. */
  lemma {:induction false} CompletedInOrder<T>(s: State<T>, es: seq<Event<T>>, t: State<T>)
    requires Run(s, es, t)
    ensures t.finished == s.finished + CompletedIn(s, es)
    decreases |es|
  {
    if es == [] {
      assert s.finished + [] == s.finished;
    } else {
      assert Step(s, es[0]).finished == s.finished + CompletedBy(s, es[0]) by { assert s.finished + [] == s.finished; }
      CompletedInOrder(Step(s, es[0]), es[1..], t);
      Associative(s.finished, CompletedBy(s, es[0]), CompletedIn(Step(s, es[0]), es[1..]));
    }
  }

  /** The test for a stop in phase 3: the tuple is given up, its items completed and the activation over, if
      and only if a stop was requested before. */
  lemma GivesUpIff<T>(n: nat, es: seq<Event<T>>, s: State<T>, i: nat)
    requires n >= 1 && Run(Init(n), es, s) && Enabled(s, CheckStop(i))
    ensures var t, k := Step(s, CheckStop(i)), s.acts[i].asm.k;
            && (t.acts[i].Gone? <==> StopAsked(es))
            && (t.acts[i].Passed? <==> !StopAsked(es))
            && t.finished == s.finished + (if StopAsked(es) then [k] else [])
            && t.started == s.started
  {
    InitInv<T>(n);
    RunKeeps(Init(n), es, s);
    RunAccepts(Init(n), es, s, 0);
  }

  // ----- Progress ----------------------------------------------------------------------------

  /** Steps of activations and of zipped operations; the others are up to the environment. */
  predicate Internal<T>(e: Event<T>)
  {
    !e.Arrive? && !e.RequestStop? && !e.Drain?
  }

  function InternalSteps<T>(es: seq<Event<T>>): nat
  {
    if es == [] then 0 else (if Internal(es[0]) then 1 else 0) + InternalSteps(es[1..])
  }

  function Arrivals<T>(es: seq<Event<T>>): nat
  {
    if es == [] then 0 else (if es[0].Arrive? then 1 else 0) + Arrivals(es[1..])
  }

  function Work<T>(p: Phase<T>): nat
  {
    match p
    case Claimed => 2
    case Collected(_) => 1
    case Popped(_) => 7
    case Passed(_) => 6
    case Starting(_, _) => 5
    case Handing => 3
    case Gone => 0
  }

  function Works<T>(acts: seq<Phase<T>>): nat
  {
    if acts == [] then 0 else Work(acts[0]) + Works(acts[1..])
  }

  lemma {:induction false} WorksSet<T>(acts: seq<Phase<T>>, i: nat, p: Phase<T>)
    requires i < |acts|
    ensures Works(acts[i := p]) + Work(acts[i]) == Works(acts) + Work(p)
  {
    if i == 0 {
      assert acts[i := p][1..] == acts[1..];
    } else {
      WorksSet(acts[1..], i - 1, p);
      assert acts[i := p][1..] == acts[1..][i - 1 := p];
    }
  }

  lemma {:induction false} WorksAppend<T>(acts: seq<Phase<T>>, p: Phase<T>)
    ensures Works(acts + [p]) == Works(acts) + Work(p)
  {
    if acts != [] {
      WorksAppend(acts[1..], p);
      assert (acts + [p])[1..] == acts[1..] + [p];
    }
  }

  /** The work left: what the items of one queue, the activations and the zipped operations can still do. */
  function WorkLeft<T>(s: State<T>): nat
    requires Shape(s)
  {
    8 * |s.queues[0]| + Works(s.acts) + |s.running|
  }

  lemma ArrivalAddsWork<T>(s: State<T>, c: nat, x: T)
    requires Enabled(s, Arrive(c, x))
    ensures WorkLeft(ArriveStep(s, c, x)) <= WorkLeft(s) + 10
  {
    WorksAppend(s.acts, Claimed);
  }

  lemma StepUsesWork<T>(s: State<T>, e: Event<T>)
    requires Enabled(s, e) && Internal(e)
    ensures Shape(Step(s, e)) && WorkLeft(Step(s, e)) < WorkLeft(s)
  {
    if e.Finish? {
      assert |s.running - {e.k}| == |s.running| - 1;
    } else {
      var p := Step(s, e).acts[e.i];
      WorksSet(s.acts, e.i, p);
      assert e.Start? ==> |s.running + {s.acts[e.i].asm.k}| <= |s.running| + 1;
    }
  }

  lemma {:induction false} RunUsesWork<T>(s: State<T>, es: seq<Event<T>>, t: State<T>)
    requires Shape(s) && Run(s, es, t)
    ensures Shape(t) && InternalSteps(es) + WorkLeft(t) <= WorkLeft(s) + 10 * Arrivals(es)
    decreases |es|
  {
    if es != [] {
      if Internal(es[0]) { StepUsesWork(s, es[0]); }
      else if es[0].Arrive? { ArrivalAddsWork(s, es[0].child, es[0].item); }
      RunUsesWork(Step(s, es[0]), es[1..], t);
    }
  }

  /** Activations and zipped operations together take at most ten steps for each item that arrives. */
  lemma RunsAreBounded<T>(n: nat, es: seq<Event<T>>, t: State<T>)
    requires n >= 1 && Run(Init(n), es, t)
    ensures InternalSteps(es) <= 10 * Arrivals(es)
  {
    RunUsesWork(Init(n), es, t);
  }

  /** Tuple k was handed downstream, and its items were completed exactly once. */
  ghost predicate HandedDown<T>(s: State<T>, k: nat)
  {
    CompletedOnce(s, k) && exists j :: 0 <= j < |s.started| && s.started[j].k == k
  }

  /** With no step of an activation or a zipped operation to make, only robbed activations are left. */
  lemma OnlyRobbedAreLeft<T>(n: nat, es: seq<Event<T>>, t: State<T>)
    requires n >= 1 && Run(Init(n), es, t) && forall e :: Enabled(t, e) ==> !Internal(e)
    ensures t.running == {} && forall i | 0 <= i < |t.acts| && !t.acts[i].Gone? :: WaitsForFronts(t.acts[i])
    ensures Inv(t) ==> AllReturned(t)
  {
    InitInv<T>(n);
    RunKeeps(Init(n), es, t);
    if k :| k in t.running {
      assert Enabled(t, Finish(k));
    }
    forall i | 0 <= i < |t.acts| && !t.acts[i].Gone? ensures WaitsForFronts(t.acts[i]) && !Inv(t) {
      BlockedIffDrained(n, es, t, i);
      if Inv(t) { NoMissingFront(t, i); }
    }
  }

  /** Any run that can go on only with an item, a stop request or a drain: the items of every tuple were
      completed exactly once, and nothing is under way except activations that a drain robbed; so every
      activation has returned if and only if no drain robbed one. */
  lemma EndOfRun<T>(n: nat, es: seq<Event<T>>, t: State<T>)
    requires n >= 1 && Run(Init(n), es, t) && forall e :: Enabled(t, e) ==> !Internal(e)
    ensures t.running == {} && forall i | 0 <= i < |t.acts| && !t.acts[i].Gone? :: WaitsForFronts(t.acts[i])
    ensures forall k | 0 <= k < |t.popped| :: CompletedOnce(t, k)
    ensures AllReturned(t) <==> Safely(Init(n), es)
  {
    OnlyRobbedAreLeft(n, es, t);
    assert forall i | 0 <= i < |t.acts| :: !Carries(t.acts[i]);
    EveryTupleCompletedOnce(n, es, t);
    InitInv<T>(n);
    RunKeepsInvIff(Init(n), es, t);
    if !Safely(Init(n), es) { UnsafeIsRobbed(Init(n), es, t); }
  }

  predicate AllReturned<T>(s: State<T>)
  {
    forall i | 0 <= i < |s.acts| :: s.acts[i].Gone?
  }

  /** A stop-free run that can go on only with an item, a stop request or a drain: every activation has
      returned, the tuples are as many as the items of the slowest child, and each was handed downstream
      and its items were completed exactly once. */
  lemma EndOfStopFreeRun<T>(n: nat, es: seq<Event<T>>, t: State<T>)
    requires n >= 1 && Run(Init(n), es, t) && StopFree(es) && forall e :: Enabled(t, e) ==> !Internal(e)
    ensures AllReturned(t) && t.running == {}
    ensures forall c | 0 <= c < n :: |t.popped| <= |Items(es, c)|
    ensures exists c :: 0 <= c < n && |t.popped| == |Items(es, c)|
    ensures forall k | 0 <= k < |t.popped| :: HandedDown(t, k)
  {
    StopFreeKeepsInv(n, es, t);
    InitInv<T>(n);
    RunKeepsInvIff(Init(n), es, t);
    EndOfRun(n, es, t);
    TuplesAreTheMinimum(n, es, t);
    forall k | 0 <= k < |t.popped| ensures HandedDown(t, k) {
      assert CompletedOnce(t, k);
      assert k in t.finished;
    }
  }

  // ----- Downstream order --------------------------------------------------------------------

  ghost predicate InOrder<T>(s: State<T>)
  {
    forall j | 0 <= j < |s.started| :: s.started[j].k == j
  }

  /** Every Start in the run takes the oldest tuple not yet started. */
  ghost predicate OldestFirst<T>(s: State<T>, es: seq<Event<T>>)
    decreases |es|
  {
    es == [] || (Enabled(s, es[0]) && (es[0].Start? ==> IsOldest(s, es[0].i)) && OldestFirst(Step(s, es[0]), es[1..]))
  }

  predicate IsOldest<T>(s: State<T>, i: nat)
  {
    i < |s.acts| && Carries(s.acts[i]) &&
    forall j | 0 <= j < |s.acts| && Carries(s.acts[j]) :: s.acts[i].asm.k <= s.acts[j].asm.k
  }

  /** While the order has been kept, the next tuple due downstream is the oldest one waiting. */
  lemma OldestIsNext<T>(s: State<T>, i: nat)
    requires Inv(s) && !s.stopped && InOrder(s) && Enabled(s, Start(i))
    ensures IsOldest(s, i) <==> s.acts[i].asm.k == |s.started|
  {
    var m := |s.started|;
    forall j | 0 <= j < |s.acts| && Carries(s.acts[j]) ensures s.acts[j].asm.k >= m {
      CarriersSet(s.acts, j, Gone, s.acts[j].asm.k);
      assert forall k | 0 <= k < m :: s.started[k].k == k && Carriers(s.acts, k) == 0;
    }
    if s.acts[i].asm.k != m {
      assert m < |s.popped|;
      assert Places(s, m) == 1;
      assert m !in s.running && m !in s.finished;
      FindCarrier(s.acts, m);
    }
  }

  lemma {:induction false} FindCarrier<T>(acts: seq<Phase<T>>, k: nat)
    requires Carriers(acts, k) > 0
    ensures exists j :: 0 <= j < |acts| && Carries(acts[j]) && acts[j].asm.k == k
  {
    if !(Carries(acts[0]) && acts[0].asm.k == k) {
      FindCarrier(acts[1..], k);
      var j :| 0 <= j < |acts[1..]| && Carries(acts[1..][j]) && acts[1..][j].asm.k == k;
      assert acts[j + 1] == acts[1..][j];
    }
  }

  /** Tuples reach the downstream receiver in order if and only if the oldest always goes first. */
  lemma {:induction false} DownstreamOrderIff<T>(s: State<T>, es: seq<Event<T>>, t: State<T>)
    requires Inv(s) && !s.stopped && InOrder(s) && Run(s, es, t) && StopFree(es)
    ensures InOrder(t) <==> OldestFirst(s, es)
    decreases |es|
  {
    if es != [] {
      var s1 := Step(s, es[0]);
      StepKeepsInvIff(s, es[0]);
      StartedGrows(s1, es[1..], t);
      if es[0].Start? {
        OldestIsNext(s, es[0].i);
        assert s1.started[|s.started|] == s.acts[es[0].i].asm;
        if !IsOldest(s, es[0].i) {
          assert t.started[|s.started|].k != |s.started|;
        }
      }
      if InOrder(s1) { DownstreamOrderIff(s1, es[1..], t); }
    }
  }

  lemma {:induction false} StartedGrows<T>(s: State<T>, es: seq<Event<T>>, t: State<T>)
    requires Run(s, es, t)
    ensures s.started <= t.started
    decreases |es|
  {
    if es != [] { StartedGrows(Step(s, es[0]), es[1..], t); }
  }

  /** One assembly at a time: no pop while an earlier tuple still waits to be started. */
  ghost predicate OneAtATime<T>(s: State<T>, es: seq<Event<T>>)
    decreases |es|
  {
    es == [] || (Enabled(s, es[0])
                 && (es[0].Pop? ==> forall j | 0 <= j < |s.acts| :: !Carries(s.acts[j]))
                 && OneAtATime(Step(s, es[0]), es[1..]))
  }

  ghost predicate Single<T>(s: State<T>)
  {
    forall i, j | 0 <= i < j < |s.acts| :: !(Carries(s.acts[i]) && Carries(s.acts[j]))
  }

  lemma {:induction false} OneAtATimeIsOldestFirst<T>(s: State<T>, es: seq<Event<T>>)
    requires Single(s) && OneAtATime(s, es)
    ensures OldestFirst(s, es)
    decreases |es|
  {
    if es != [] { OneAtATimeIsOldestFirst(Step(s, es[0]), es[1..]); }
  }

  /** With assemblies run one at a time, tuple k is the k-th one downstream. */
  lemma SerialAssembliesKeepOrder<T>(n: nat, es: seq<Event<T>>, t: State<T>)
    requires n >= 1 && Run(Init(n), es, t) && StopFree(es) && OneAtATime(Init(n), es)
    ensures forall j | 0 <= j < |t.started| :: t.started[j].k == j
  {
    InitInv<T>(n);
    OneAtATimeIsOldestFirst(Init(n), es);
    DownstreamOrderIff(Init(n), es, t);
  }

  lemma RunStep<T>(s: State<T>, e: Event<T>, es: seq<Event<T>>, t: State<T>)
    requires Enabled(s, e) && Run(Step(s, e), es, t)
    ensures Run(s, [e] + es, t)
  {
    assert ([e] + es)[1..] == es;
  }

  /** One child, its queue empty and no activation owning fronts. */
  ghost predicate Idle1<T>(s: State<T>)
  {
    s.queues == [[]] && |s.arrived| == |s.drained| == 1 && s.ready == 0 && !s.stopped
  }

  /** An arrival, and its activation up to phase 5. */
  function UpToStart<T>(i: nat, x: T): seq<Event<T>>
  {
    [Arrive(0, x), Collect(i), Pop(i), CheckStop(i), Recount(i)]
  }

  lemma OneMoreWaiting<T>(s: State<T>, x: T) returns (u: State<T>)
    requires Idle1(s)
    ensures Idle1(u) && u.started == s.started
    ensures u.acts == s.acts + [Starting(Assembly(|s.popped|, [x]), false)] && |u.popped| == |s.popped| + 1
    ensures forall es, t :: Run(u, es, t) ==> Run(s, UpToStart(|s.acts|, x) + es, t)
  {
    var i, asm := |s.acts|, Assembly(|s.popped|, [x]);
    var s1 := Step(s, Arrive(0, x));
    assert s1.queues[0] == [x];
    assert s1.queues == [s1.queues[0]] && s1.acts == s.acts + [Claimed];
    assert Fronts(s1.queues) == [x];
    var s2 := Step(s1, Collect(i));
    assert s2.acts == s.acts + [Collected([x])];
    assert Tails(s2.queues)[0] == [];
    var s3 := Step(s2, Pop(i));
    assert s3.queues == [s3.queues[0]] && s3.acts == s.acts + [Popped(asm)];
    var s4 := Step(s3, CheckStop(i));
    assert s4.queues == [[]] && s4.acts == s.acts + [Passed(asm)];
    NoneNonEmpty(s4.queues);
    u := Step(s4, Recount(i));
    assert u.queues == [[]] && u.acts == s.acts + [Starting(asm, false)];
    forall es, t | Run(u, es, t) ensures Run(s, UpToStart(i, x) + es, t) {
      var e4 := [Recount(i)] + es;
      var e3 := [CheckStop(i)] + e4;
      var e2 := [Pop(i)] + e3;
      var e1 := [Collect(i)] + e2;
      RunStep(s4, Recount(i), es, t);
      RunStep(s3, CheckStop(i), e4, t);
      RunStep(s2, Pop(i), e3, t);
      RunStep(s1, Collect(i), e2, t);
      RunStep(s, Arrive(0, x), e1, t);
      assert UpToStart(i, x) + es == [Arrive(0, x)] + e1;
    }
  }

  /** Two assemblies under way at once can reach the downstream receiver in the wrong order: with
      one child, tuple 1 is formed and started while tuple 0 still waits before phase 5. */
  lemma OverlapCanReorder() returns (es: seq<Event<int>>, t: State<int>)
    ensures Run(Init(1), es, t) && StopFree(es) && !InOrder(t)
  {
    var s := OneMoreWaiting(Init(1), 7);
    var u := OneMoreWaiting(s, 8);
    t := Step(u, Start(1));
    assert t.started[0].k == 1;
    RunStep(u, Start(1), [], t);
    es := UpToStart(0, 7) + (UpToStart(1, 8) + ([Start(1)] + []));
  }

  /** A drain can rob an activation: one child delivers an item, a stop is requested and the queue is
      drained before phase 1.  The item is completed, and the activation waits for a front for ever. */
  lemma DrainCanRob() returns (es: seq<Event<int>>, s: State<int>, t: State<int>)
    ensures Run(Init(1), es, s) && Enabled(s, Drain) && !Safe(s, Drain) && t == Step(s, Drain)
    ensures t.acts == [Claimed] && t.queues == [[]] && t.drained == [[7]] && !Enabled(t, Collect(0)) && !Inv(t)
  {
    var s1 := Step(Init<int>(1), Arrive(0, 7));
    assert s1.queues[0] == [7];
    assert s1.acts == [Claimed];
    s := Step(s1, RequestStop);
    t := Step(s, Drain);
    RunStep(s1, RequestStop, [], s);
    es := [Arrive(0, 7)] + ([RequestStop] + []);
    assert NeedsFronts(s.acts[0]) && t.drained[0] == [7] && t.queues[0] == [];
    assert Owns(t.acts[0]) && !OwnedCounter(t, t.acts[0]);
  }
}

/** The sequence operation of `zip`, updated in place: each method up to ClearQueues is one step of the
    protocol, Assemble is what notify_result_completion does when nothing comes between. */
module Zip {
  import opened ZipProtocol

  class Operation<T> {
    var itemQueues: seq<seq<T>>
    var readyNextItems: int
    var stopRequested: bool
    var acts: seq<Phase<T>>
    var running: set<nat>
    var popped: seq<seq<T>>
    ghost var arrived: seq<seq<T>>
    ghost var drained: seq<seq<T>>
    ghost var residue: nat
    ghost var started: seq<Assembly<T>>
    ghost var finished: seq<nat>

    ghost function Model(): State<T>
      reads this
    {
      State(itemQueues, readyNextItems, stopRequested, acts, running,
        arrived, popped, drained, residue, started, finished)
    }

    ghost predicate Ready(e: Event<T>)
      reads this
    {
      Inv(Model()) && Enabled(Model(), e) && Safe(Model(), e)
    }

    twostate predicate Took(e: Event<T>)
      requires old(Ready(e))
      reads this
    {
      Model() == Step(old(Model()), e) && Inv(Model())
    }

    constructor (n: nat)
      requires n >= 1
      ensures Model() == Init(n) && Inv(Model())
    {
      itemQueues, readyNextItems, stopRequested, acts, running := seq(n, _ => []), 0, false, [], {};
      arrived, popped, drained, residue, started, finished := seq(n, _ => []), [], seq(n, _ => []), 0, [], [];
      new;
      InitInv<T>(n);
    }

    /** push_back_item_op, and notify_result_completion up to its fetch_add; an item not accepted is completed
        as stopped by the caller. */
    method PushBackItem(c: nat, item: T) returns (accepted: bool)
      requires Ready(Arrive(c, item))
      modifies this
      ensures Took(Arrive(c, item)) && accepted == !stopRequested
      ensures accepted ==> itemQueues == old(itemQueues)[c := old(itemQueues)[c] + [item]]
      ensures !accepted ==> Model() == old(Model())
    {
      StepKeepsInvIff(Model(), Arrive(c, item));
      accepted := !stopRequested;
      if !accepted {
        return;
      }
      var first := itemQueues[c] == [];
      itemQueues := itemQueues[c := itemQueues[c] + [item]];
      arrived := arrived[c := arrived[c] + [item]];
      if first {
        if readyNextItems == |itemQueues| - 1 {
          acts := acts + [Claimed];
        }
        readyNextItems := readyNextItems + 1;
      }
    }

    /** phase 1 */
    method CollectResults(i: nat)
      requires Ready(Collect(i))
      modifies this
      ensures Took(Collect(i))
    {
      StepKeepsInvIff(Model(), Collect(i));
      acts := acts[i := Collected(Fronts(itemQueues))];
    }

    /** phase 2 */
    method PopFronts(i: nat)
      requires Ready(Pop(i))
      modifies this
      ensures Took(Pop(i))
    {
      StepKeepsInvIff(Model(), Pop(i));
      acts := acts[i := Popped(Assembly(|popped|, acts[i].result))];
      popped := popped + [Fronts(itemQueues)];
      itemQueues := Tails(itemQueues);
      readyNextItems := -1;
      residue := CountNonEmpty(itemQueues);
    }

    /** phase 3 */
    method CheckStop(i: nat)
      requires Ready(Event.CheckStop(i))
      modifies this
      ensures Took(Event.CheckStop(i))
    {
      StepKeepsInvIff(Model(), Event.CheckStop(i));
      if stopRequested {
        finished := finished + [acts[i].asm.k];
        acts := acts[i := Gone];
      } else {
        acts := acts[i := Passed(acts[i].asm)];
      }
    }

    static method CountQueues(queues: seq<seq<T>>) returns (count: nat)
      ensures count == CountNonEmpty(queues)
    {
      count := 0;
      for c := |queues| downto 0
        invariant count == CountNonEmpty(queues[c..])
      {
        assert queues[c..][0] == queues[c] && queues[c..][1..] == queues[c + 1..];
        count := count + if queues[c] == [] then 0 else 1;
      }
    }

    /** phase 4 */
    method Recount(i: nat)
      requires Ready(Event.Recount(i))
      modifies this
      ensures Took(Event.Recount(i))
    {
      StepKeepsInvIff(Model(), Event.Recount(i));
      var count := CountQueues(itemQueues);
      var isNextCompletion := count == |itemQueues|;
      readyNextItems := if isNextCompletion then count - 1 else count;
      acts := acts[i := Starting(acts[i].asm, isNextCompletion)];
    }

    /** phase 5 */
    method Start(i: nat)
      requires Ready(Event.Start(i))
      modifies this
      ensures Took(Event.Start(i))
    {
      StepKeepsInvIff(Model(), Event.Start(i));
      started := started + [acts[i].asm];
      running := running + {acts[i].asm.k};
      acts := acts[i := if acts[i].owed then Handing else Gone];
    }

    /** phase 6: notify_result_completion of the next front, up to its fetch_add */
    method HandOn(i: nat)
      requires Ready(Event.HandOn(i))
      modifies this
      ensures Took(Event.HandOn(i))
    {
      StepKeepsInvIff(Model(), Event.HandOn(i));
      acts := acts[i := if readyNextItems == |itemQueues| - 1 then Claimed else Gone];
      readyNextItems := readyNextItems + 1;
    }

    /** zipped_receiver::set_value: complete_all_item_ops */
    method Finish(k: nat)
      requires Ready(Event.Finish(k))
      modifies this
      ensures Took(Event.Finish(k))
    {
      StepKeepsInvIff(Model(), Event.Finish(k));
      running := running - {k};
      finished := finished + [k];
    }

    method RequestStop()
      requires Inv(Model())
      modifies this
      ensures Took(Event.RequestStop)
    {
      StepKeepsInvIff(Model(), Event.RequestStop);
      stopRequested := true;
    }

    /** notify_stop after its request: takes the queues away and completes their items, queue by queue. */
    method ClearQueues()
      requires Inv(Model()) && Enabled(Model(), Drain)
      modifies this
      ensures Model() == Step(old(Model()), Drain)
      ensures Inv(Model()) <==> Safe(old(Model()), Drain)
    {
      StepKeepsInvIff(Model(), Drain);
      var n, localQueues := |itemQueues|, itemQueues;
      itemQueues, readyNextItems := seq(n, _ => []), 0;
      ghost var was := drained;
      for c := 0 to n
        invariant |drained| == n && Model() == old(Model()).(queues := seq(n, _ => []), ready := 0, drained := drained)
        invariant forall d | 0 <= d < c :: drained[d] == was[d] + localQueues[d]
        invariant forall d | c <= d < n :: drained[d] == was[d]
      {
        var items := ClearQueue(localQueues[c]);
        drained := drained[c := drained[c] + items];
      }
    }

    /** clear_queue: the items in the order their completions run */
    static method ClearQueue(items: seq<T>) returns (completed: seq<T>)
      ensures completed == items
    {
      var queue := items;
      completed := [];
      while queue != []
        invariant completed + queue == items
      {
        var op := queue[0];
        queue := queue[1..];
        completed := completed + [op];
      }
    }

    /** Phases 1 to 6, once: takes the front of every queue and hands the tuple downstream, unless a
        stop was requested; Claimed again if the next tuple is owed. */
    method AssembleOne(i: nat)
      requires Inv(Model()) && i < |acts| && acts[i].Claimed?
      modifies this
      ensures Inv(Model()) && |acts| == |old(acts)| && stopRequested == old(stopRequested)
      ensures AllNonEmpty(old(itemQueues)) && itemQueues == Tails(old(itemQueues))
      ensures popped == old(popped) + [Fronts(old(itemQueues))]
      ensures stopRequested ==> acts[i].Gone? && started == old(started)
      ensures !stopRequested ==> started == old(started) + [Assembly(|old(popped)|, Fronts(old(itemQueues)))]
      ensures !stopRequested ==> acts[i] == if AllNonEmpty(itemQueues) then Claimed else Gone
    {
      TakeFronts(i);
      CheckStop(i);
      if !stopRequested {
        HandDown(i);
      }
    }

    /** Phases 1 and 2. */
    method TakeFronts(i: nat)
      requires Inv(Model()) && i < |acts| && acts[i].Claimed?
      modifies this
      ensures Inv(Model()) && |acts| == |old(acts)| && stopRequested == old(stopRequested) && started == old(started)
      ensures AllNonEmpty(old(itemQueues)) && itemQueues == Tails(old(itemQueues))
      ensures popped == old(popped) + [Fronts(old(itemQueues))]
      ensures acts[i] == Popped(Assembly(|old(popped)|, Fronts(old(itemQueues))))
    {
      NoMissingFront(Model(), i);
      CollectResults(i);
      NoMissingFront(Model(), i);
      PopFronts(i);
    }

    /** Phases 4 to 6. */
    method HandDown(i: nat)
      requires Inv(Model()) && i < |acts| && acts[i].Passed?
      modifies this
      ensures Inv(Model()) && |acts| == |old(acts)| && stopRequested == old(stopRequested)
      ensures itemQueues == old(itemQueues) && popped == old(popped) && started == old(started) + [old(acts[i].asm)]
      ensures acts[i] == if AllNonEmpty(itemQueues) then Claimed else Gone
    {
      CountBound(itemQueues);
      Recount(i);
      Start(i);
      if acts[i].Handing? {
        NoMissingFront(Model(), i);
        HandOn(i);
      }
    }

    /** notify_result_completion, from a won fetch_add on: without a stop it forms tuples until some
        queue is empty, each from the items at the same place of every queue, and hands them on in order. */
    method Assemble(i: nat) returns (m: nat)
      requires Inv(Model()) && i < |acts| && acts[i].Claimed? && !stopRequested
      modifies this
      ensures Inv(Model()) && |acts| == |old(acts)| && acts[i].Gone? && !AllNonEmpty(itemQueues)
      ensures LeftAfter(itemQueues, old(itemQueues), m)
      ensures TuplesFrom(popped, |old(popped)|, old(itemQueues), m)
      ensures AllStarted(started, |old(started)|, popped, |old(popped)|)
    {
      m := 0;
      while acts[i].Claimed?
        invariant Inv(Model()) && |acts| == |old(acts)| && !stopRequested
        invariant acts[i].Claimed? || (acts[i].Gone? && !AllNonEmpty(itemQueues))
        invariant LeftAfter(itemQueues, old(itemQueues), m)
        invariant TuplesFrom(popped, |old(popped)|, old(itemQueues), m)
        invariant AllStarted(started, |old(started)|, popped, |old(popped)|)
        decreases |itemQueues[0]|
      {
        NoMissingFront(Model(), i);
        OneTupleMore(popped, |old(popped)|, itemQueues, old(itemQueues), m);
        OneStartedMore(started, |old(started)|, popped, |old(popped)|, Fronts(itemQueues));
        AssembleOne(i);
        m := m + 1;
      }
    }
  }

  /** left is what remains of the queues when m items were taken from each. */
  ghost predicate LeftAfter<T>(left: seq<seq<T>>, queues: seq<seq<T>>, m: nat)
  {
    |left| == |queues| >= 1 && forall c | 0 <= c < |queues| :: m <= |queues[c]| && left[c] == queues[c][m..]
  }

  /** The tuple is made of the k-th items of the queues. */
  ghost predicate TupleAt<T>(tuple: seq<T>, queues: seq<seq<T>>, k: int)
  {
    |tuple| == |queues| && forall c | 0 <= c < |queues| :: 0 <= k < |queues[c]| && tuple[c] == queues[c][k]
  }

  /** From the first on, popped holds the m tuples of the queues. */
  ghost predicate TuplesFrom<T>(popped: seq<seq<T>>, first: nat, queues: seq<seq<T>>, m: nat)
  {
    |popped| == first + m && forall j | first <= j < |popped| :: TupleAt(popped[j], queues, j - first)
  }

  /** From `before` on, started hands down the tuples popped from the first on, in order. */
  ghost predicate AllStarted<T>(started: seq<Assembly<T>>, before: nat, popped: seq<seq<T>>, first: nat)
  {
    && first <= |popped| && |started| - before == |popped| - first
    && forall j | before <= j < |started| :: started[j] == Assembly(first + j - before, popped[first + j - before])
  }

  lemma OneStartedMore<T>(started: seq<Assembly<T>>, before: nat, popped: seq<seq<T>>, first: nat, tuple: seq<T>)
    requires AllStarted(started, before, popped, first)
    ensures AllStarted(started + [Assembly(|popped|, tuple)], before, popped + [tuple], first)
  {}

  lemma OneTupleMore<T>(popped: seq<seq<T>>, first: nat, left: seq<seq<T>>, queues: seq<seq<T>>, m: nat)
    requires LeftAfter(left, queues, m) && TuplesFrom(popped, first, queues, m) && AllNonEmpty(left)
    ensures LeftAfter(Tails(left), queues, m + 1) && |Tails(left)[0]| < |left[0]|
    ensures TuplesFrom(popped + [Fronts(left)], first, queues, m + 1)
  {
    forall c | 0 <= c < |queues|
      ensures m < |queues[c]| && left[c][0] == queues[c][m] && left[c][1..] == queues[c][m + 1..]
    {
      assert |left[c]| > 0;
    }
  }
}
