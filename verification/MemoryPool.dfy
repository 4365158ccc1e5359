/** The allocator of source/sio/memory_pool.hpp and memory_pool.cpp: one free list and one queue of
    waiting operations for each of 32 size classes.

    PoolProtocol says what each critical section does to the lists as a whole, for any blocks B and
    allocate operations O; MemoryPool below does it on linked headers and intrusive lists. */
module PoolProtocol {
  import opened Sequences
  import opened SizeClass
  import opened Wrappers

  // ----- State -------------------------------------------------------------------------------

  type Class = i: nat | i < CLASSES

  type Lists<T> = s: seq<seq<T>> | |s| == CLASSES
    ghost witness seq(CLASSES, _ => [])

  /** An allocate operation that completed: with a block, or stopped. */
  datatype Completion<B, O> = Completion(op: O, block: Option<B>)

  datatype State<B, O> = State(
    free: Lists<B>,                        // block_lists_, the head of each list first
    waiting: Lists<O>,                     // pending_allocation_, oldest first
    // history
    header: map<B, Class>,                 // every block obtained from upstream, and its class
    held: set<B>,                          // blocks in the hands of clients
    ops: map<O, Class>,                    // every operation started, and its class
    done: set<O>,                          // the operations that have completed
    completions: seq<Completion<B, O>>,    // in order
    queued: Lists<O>,                      // per class, every operation that had to wait
    served: Lists<O>,                      // per class, the waiters that were given a block
    cancelled: set<O>,                     // the waiters that were stopped
    armed: map<O, Option<O>>,              // served, stop callback still registered; who was next in the queue
    late: set<O>)                          // the operations stopped after they were served

  /** The critical sections, and Disarm, where the completion of a served waiter resets its stop callback.
      When the free list is empty, `upstream` is what the upstream resource answers: a block never seen
      before, or null.  LateCancel is a stop callback that gets the mutex between the two, when the
      operation has left the queue already. */
  datatype Event<B, O> =
    | Allocate(op: O, index: Class, upstream: Option<B>)
    | Reclaim(block: Option<B>)
    | Disarm(op: O)
    | Cancel(op: O)
    | LateCancel(op: O)

  function Init<B, O>(): State<B, O>
  {
    var none := seq(CLASSES, _ => []);
    var nobody := seq(CLASSES, _ => []);
    State(none, nobody, map[], {}, map[], {}, [], nobody, nobody, {}, map[], {})
  }

  // ----- Steps -------------------------------------------------------------------------------

  function First<T>(q: seq<T>): Option<T>
  {
    if q == [] then None else Some(q[0])
  }

  /** A late callback unlinks the operation once more, through the links it left the queue with; that does
      not damage the queue if who was next then is the first now. */
  ghost predicate Enabled<B, O>(s: State<B, O>, e: Event<B, O>)
  {
    match e
    case Allocate(op, i, up) => op !in s.ops && (up.Some? ==> up.value !in s.header)
    case Reclaim(b) => b.Some? ==> b.value in s.held && b.value in s.header
    case Disarm(op) => op in s.armed
    case Cancel(op) => op in s.ops && op in s.waiting[s.ops[op]]
    case LateCancel(op) => op in s.armed && op !in s.late && op in s.ops && First(s.waiting[s.ops[op]]) == s.armed[op]
  }

  ghost function Complete<B, O>(s: State<B, O>, c: Completion<B, O>): State<B, O>
  {
    s.(done := s.done + {c.op}, completions := s.completions + [c])
  }

  /** Block b goes to operation op. */
  ghost function Grant<B, O>(s: State<B, O>, op: O, b: B): State<B, O>
  {
    Complete(s, Completion(op, Some(b))).(held := s.held + {b})
  }

  ghost function AllocateStep<B, O>(s: State<B, O>, op: O, i: Class, up: Option<B>): State<B, O>
  {
    var s1 := s.(ops := s.ops[op := i]);
    if s.free[i] != [] then Grant(s1, op, s.free[i][0]).(free := s.free[i := s.free[i][1..]])
    else if up.Some? then Grant(s1, op, up.value).(header := s.header[up.value := i])
    else s1.(waiting := s.waiting[i := s.waiting[i] + [op]], queued := s.queued[i := s.queued[i] + [op]])
  }

  ghost function ReclaimStep<B, O>(s: State<B, O>, b: B): State<B, O>
    requires b in s.header
  {
    var i := s.header[b];
    if s.waiting[i] != [] then
      var op := s.waiting[i][0];
      Grant(s, op, b).(
        waiting := s.waiting[i := s.waiting[i][1..]],
        served := s.served[i := s.served[i] + [op]],
        armed := s.armed[op := First(s.waiting[i][1..])])
    else s.(free := s.free[i := [b] + s.free[i]], held := s.held - {b})
  }

  ghost function CancelStep<B, O>(s: State<B, O>, op: O): State<B, O>
    requires Enabled(s, Cancel(op))
  {
    var i := s.ops[op];
    Complete(s, Completion(op, None)).(
      waiting := s.waiting[i := Without(s.waiting[i], IndexOf(s.waiting[i], op))],
      cancelled := s.cancelled + {op})
  }

  ghost function LateCancelStep<B, O>(s: State<B, O>, op: O): State<B, O>
  {
    s.(completions := s.completions + [Completion(op, None)], late := s.late + {op})
  }

  ghost function Step<B, O>(s: State<B, O>, e: Event<B, O>): State<B, O>
    requires Enabled(s, e)
  {
    match e
    case Allocate(op, i, up) => AllocateStep(s, op, i, up)
    case Reclaim(b) => if b.Some? then ReclaimStep(s, b.value) else s
    case Disarm(op) => s.(armed := s.armed - {op})
    case Cancel(op) => CancelStep(s, op)
    case LateCancel(op) => LateCancelStep(s, op)
  }

  // ----- Invariant ---------------------------------------------------------------------------

  /** Every block obtained is with a client or in the free list of its class, and nowhere else. */
  ghost predicate OnePlaceEach<B, O>(s: State<B, O>)
  {
    && (forall i: Class :: Distinct(s.free[i]))
    && (forall i: Class, b | b in s.free[i] :: b in s.header && s.header[b] == i && b !in s.held)
    && (forall b | b in s.held :: b in s.header)
    && (forall b | b in s.header :: b in s.held || b in s.free[s.header[b]])
  }

  /** Nobody waits beside a free block. */
  ghost predicate NoIdleBlock<B, O>(s: State<B, O>)
  {
    forall i: Class :: s.waiting[i] == [] || s.free[i] == []
  }

  /** Every operation started either waits in its class or is done. */
  ghost predicate WaitingOrDone<B, O>(s: State<B, O>)
  {
    && s.cancelled <= s.done
    && (forall op | op in s.done :: op in s.ops)
    && (forall op | op in s.ops :: op in s.waiting[s.ops[op]] <==> op !in s.done)
    && (forall i: Class, op | op in s.waiting[i] :: op in s.ops && s.ops[op] == i)
  }

  /** How often the record says that operation op completed with a block, or as stopped. */
  function Times<B, O(==)>(record: seq<Completion<B, O>>, op: O, block: bool): nat
  {
    if record == [] then 0
    else Times(record[..|record| - 1], op, block) + Hit(record[|record| - 1], op, block)
  }

  function Hit<B, O(==)>(c: Completion<B, O>, op: O, block: bool): nat
  {
    if c.op == op && c.block.Some? == block then 1 else 0
  }

  ghost predicate Served<B, O>(s: State<B, O>, op: O)
  {
    op in s.done && op !in s.cancelled
  }

  ghost predicate WasStopped<B, O>(s: State<B, O>, op: O)
  {
    op in s.cancelled || op in s.late
  }

  /** Served operations completed with a block, cancelled ones as stopped, late ones both ways. */
  ghost predicate CompletedRight<B, O>(s: State<B, O>, op: O)
  {
    && Times(s.completions, op, true) == (if Served(s, op) then 1 else 0)
    && Times(s.completions, op, false) == (if WasStopped(s, op) then 1 else 0)
  }

  /** An operation completes only with a block of its own class. */
  ghost predicate Proper<B, O>(s: State<B, O>, c: Completion<B, O>)
  {
    && c.op in s.ops
    && (c.block.Some? ==> c.block.value in s.header && s.header[c.block.value] == s.ops[c.op])
  }

  ghost predicate RecordRight<B, O>(s: State<B, O>)
  {
    && (forall j | 0 <= j < |s.completions| :: Proper(s, s.completions[j]))
    && (forall op | op in s.ops :: CompletedRight(s, op))
  }

  /** A stop can come late only to an operation that was served. */
  ghost predicate LateWereServed<B, O>(s: State<B, O>)
  {
    && (forall op | op in s.armed :: Served(s, op))
    && (forall op | op in s.late :: Served(s, op))
  }

  function Keep<O(==)>(q: seq<O>, dropped: set<O>): seq<O>
  {
    if q == [] then [] else (if q[0] in dropped then [] else [q[0]]) + Keep(q[1..], dropped)
  }

  /** Waiters are served in the order they queued, the stopped ones left out. */
  ghost predicate FirstInFirstOut<B, O>(s: State<B, O>)
  {
    && (forall i: Class :: Distinct(s.queued[i]))
    && (forall i: Class, op | op in s.queued[i] :: op in s.ops && s.ops[op] == i)
    && (forall i: Class :: Keep(s.queued[i], s.cancelled) == s.served[i] + s.waiting[i])
  }

  ghost predicate Inv<B, O>(s: State<B, O>)
  {
    && OnePlaceEach(s) && NoIdleBlock(s) && WaitingOrDone(s) && FirstInFirstOut(s)
    && RecordRight(s) && LateWereServed(s)
  }

  // ----- Filtering a queue -------------------------------------------------------------------

  lemma {:induction false} KeepAppend<O>(q: seq<O>, dropped: set<O>, x: O)
    requires x !in dropped
    ensures Keep(q + [x], dropped) == Keep(q, dropped) + [x]
  {
    if q != [] {
      KeepAppend(q[1..], dropped, x);
      assert (q + [x])[1..] == q[1..] + [x];
    }
  }

  lemma {:induction false} KeepElements<O>(q: seq<O>, dropped: set<O>)
    ensures forall x | x in Keep(q, dropped) :: x in q && x !in dropped
    ensures Distinct(q) ==> Distinct(Keep(q, dropped))
  {
    if q != [] { KeepElements(q[1..], dropped); }
  }

  lemma {:induction false} KeepAll<O>(q: seq<O>, x: O)
    requires x !in q
    ensures Keep(q, {x}) == q
  {
    if q != [] { KeepAll(q[1..], x); }
  }

  lemma {:induction false} KeepKeep<O>(q: seq<O>, dropped: set<O>, x: O)
    ensures Keep(q, dropped + {x}) == Keep(Keep(q, dropped), {x})
  {
    if q != [] {
      KeepKeep(q[1..], dropped, x);
      if q[0] !in dropped { assert Keep(q, dropped) == [q[0]] + Keep(q[1..], dropped); }
      else { assert Keep(q, dropped) == Keep(q[1..], dropped); }
    }
  }

  /** Dropping one element takes it out of its place and leaves the order of the rest. */
  lemma {:induction false} KeepIsWithout<O>(q: seq<O>, k: nat)
    requires Distinct(q) && k < |q|
    ensures Keep(q, {q[k]}) == Without(q, k)
  {
    if k == 0 {
      KeepAll(q[1..], q[0]);
    } else {
      KeepIsWithout(q[1..], k - 1);
      assert Without(q, k) == [q[0]] + Without(q[1..], k - 1);
    }
  }

  // ----- Every critical section keeps the invariant ------------------------------------------

  lemma InitInv<B, O>()
    ensures Inv<B, O>(Init())
  {}

  lemma TimesOneMore<B, O>(record: seq<Completion<B, O>>, c: Completion<B, O>, op: O, block: bool)
    ensures Times(record + [c], op, block) == Times(record, op, block) + Hit(c, op, block)
  {
    assert (record + [c])[..|record|] == record;
  }

  lemma {:induction false} NotRecorded<B, O>(s: State<B, O>, record: seq<Completion<B, O>>, op: O, block: bool)
    requires op !in s.ops && forall j | 0 <= j < |record| :: Proper(s, record[j])
    ensures Times(record, op, block) == 0
  {
    if record != [] {
      assert Proper(s, record[|record| - 1]);
      NotRecorded(s, record[..|record| - 1], op, block);
    }
  }

  /** What operations and blocks were stays true. */
  ghost predicate Extends<B, O>(s: State<B, O>, s': State<B, O>)
  {
    && (forall op | op in s.ops :: op in s'.ops && s'.ops[op] == s.ops[op])
    && (forall b | b in s.header :: b in s'.header && s'.header[b] == s.header[b])
  }

  /** All operations but one are as they were. */
  ghost predicate OthersAsBefore<B, O>(s: State<B, O>, s': State<B, O>, op: O)
  {
    && s'.ops.Keys == s.ops.Keys + {op}
    && s.done <= s'.done <= s.done + {op}
    && s.cancelled <= s'.cancelled <= s.cancelled + {op}
    && s.late <= s'.late <= s.late + {op}
  }

  /** One more completion keeps the record straight. */
  lemma CompletionAdded<B, O>(s: State<B, O>, s': State<B, O>, c: Completion<B, O>)
    requires RecordRight(s) && WaitingOrDone(s) && LateWereServed(s)
    requires Extends(s, s') && OthersAsBefore(s, s', c.op) && Proper(s', c) && s'.completions == s.completions + [c]
    requires if c.block.Some?
             then !Served(s, c.op) && Served(s', c.op) && (WasStopped(s, c.op) <==> WasStopped(s', c.op))
             else !WasStopped(s, c.op) && WasStopped(s', c.op) && (Served(s, c.op) <==> Served(s', c.op))
    ensures RecordRight(s')
  {
    forall j | 0 <= j < |s'.completions| ensures Proper(s', s'.completions[j]) {
      if j < |s.completions| { assert Proper(s, s.completions[j]); }
    }
    forall op | op in s'.ops ensures CompletedRight(s', op) {
      forall block ensures Times(s'.completions, op, block) == Times(s.completions, op, block) + Hit(c, op, block) {
        TimesOneMore(s.completions, c, op, block);
      }
      if op in s.ops {
        assert CompletedRight(s, op);
      } else {
        NotRecorded(s, s.completions, op, true);
        NotRecorded(s, s.completions, op, false);
      }
    }
  }

  /** No completion, and no change of what the record says. */
  lemma RecordKept<B, O>(s: State<B, O>, s': State<B, O>)
    requires RecordRight(s) && WaitingOrDone(s) && LateWereServed(s)
    requires Extends(s, s') && s'.completions == s.completions
    requires s'.done == s.done && s'.cancelled == s.cancelled && s'.late == s.late
    ensures RecordRight(s')
  {
    forall j | 0 <= j < |s.completions| ensures Proper(s', s.completions[j]) { assert Proper(s, s.completions[j]); }
    forall op | op in s'.ops ensures CompletedRight(s', op) {
      if op in s.ops {
        assert CompletedRight(s, op);
      } else {
        NotRecorded(s, s.completions, op, true);
        NotRecorded(s, s.completions, op, false);
      }
    }
  }

  lemma AllocateKeepsPlaces<B, O>(s: State<B, O>, op: O, i: Class, up: Option<B>)
    requires OnePlaceEach(s) && NoIdleBlock(s) && Enabled(s, Allocate(op, i, up))
    ensures OnePlaceEach(AllocateStep(s, op, i, up)) && NoIdleBlock(AllocateStep(s, op, i, up))
  {
    if s.free[i] != [] { assert s.free[i] == [s.free[i][0]] + s.free[i][1..]; }
  }

  lemma AllocateKeepsWaiting<B, O>(s: State<B, O>, op: O, i: Class, up: Option<B>)
    requires WaitingOrDone(s) && Enabled(s, Allocate(op, i, up))
    ensures WaitingOrDone(AllocateStep(s, op, i, up))
  {
    if s.free[i] == [] && up == None { OneMoreWaits(s, op, i); } else { assert op !in s.waiting[i]; }
  }

  lemma OneMoreWaits<B, O>(s: State<B, O>, op: O, i: Class)
    requires WaitingOrDone(s) && op !in s.ops && s.free[i] == []
    ensures WaitingOrDone(AllocateStep(s, op, i, None))
  {
    var s' := AllocateStep(s, op, i, None);
    assert s'.waiting == s.waiting[i := s.waiting[i] + [op]] && s'.done == s.done && op !in s.done;
  }

  lemma AllocateKeepsRecord<B, O>(s: State<B, O>, op: O, i: Class, up: Option<B>)
    requires OnePlaceEach(s) && WaitingOrDone(s) && RecordRight(s) && LateWereServed(s)
    requires Enabled(s, Allocate(op, i, up))
    ensures RecordRight(AllocateStep(s, op, i, up)) && LateWereServed(AllocateStep(s, op, i, up))
  {
    var s' := AllocateStep(s, op, i, up);
    if s.free[i] != [] {
      TakeKeepsRecord(s, op, i, up, s.free[i][0]);
    } else if up.Some? {
      GrantRecorded(s, s', op, i, up.value);
    } else {
      RecordKept(s, s');
    }
  }

  lemma TakeKeepsRecord<B, O>(s: State<B, O>, op: O, i: Class, up: Option<B>, b: B)
    requires OnePlaceEach(s) && WaitingOrDone(s) && RecordRight(s) && LateWereServed(s)
    requires Enabled(s, Allocate(op, i, up))
    requires s.free[i] != [] && b == s.free[i][0]
    ensures RecordRight(AllocateStep(s, op, i, up)) && LateWereServed(AllocateStep(s, op, i, up))
  {
    assert b in s.free[i];
    GrantRecorded(s, AllocateStep(s, op, i, up), op, i, b);
  }

  /** A new operation that gets block b at once. */
  lemma GrantRecorded<B, O>(s: State<B, O>, s': State<B, O>, op: O, i: Class, b: B)
    requires WaitingOrDone(s) && RecordRight(s) && LateWereServed(s) && op !in s.ops && Extends(s, s')
    requires s'.ops == s.ops[op := i] && s'.done == s.done + {op} && b in s'.header && s'.header[b] == i
    requires s'.completions == s.completions + [Completion(op, Some(b))]
    requires s'.cancelled == s.cancelled && s'.armed == s.armed && s'.late == s.late
    ensures RecordRight(s') && LateWereServed(s')
  {
    CompletionAdded(s, s', Completion(op, Some(b)));
  }

  lemma AllocateKeepsOrder<B, O>(s: State<B, O>, op: O, i: Class, up: Option<B>)
    requires FirstInFirstOut(s) && WaitingOrDone(s) && Enabled(s, Allocate(op, i, up))
    ensures FirstInFirstOut(AllocateStep(s, op, i, up))
  {
    if s.free[i] == [] && up == None {
      assert op !in s.cancelled && op !in s.queued[i];
      QueuedOneMore(s, AllocateStep(s, op, i, up), op, i);
    }
  }

  lemma QueuedOneMore<B, O>(s: State<B, O>, s': State<B, O>, op: O, i: Class)
    requires FirstInFirstOut(s) && op !in s.cancelled && op !in s.queued[i] && op !in s.ops
    requires s'.queued == s.queued[i := s.queued[i] + [op]] && s'.waiting == s.waiting[i := s.waiting[i] + [op]]
    requires s'.served == s.served && s'.cancelled == s.cancelled && s'.ops == s.ops[op := i]
    ensures FirstInFirstOut(s')
  {
    forall j: Class ensures Keep(s'.queued[j], s'.cancelled) == s'.served[j] + s'.waiting[j] {
      if j == i {
        KeepAppend(s.queued[i], s.cancelled, op);
        assert s.served[i] + (s.waiting[i] + [op]) == s.served[i] + s.waiting[i] + [op];
      }
    }
  }

  lemma ReclaimKeepsPlaces<B, O>(s: State<B, O>, b: B)
    requires OnePlaceEach(s) && NoIdleBlock(s) && Enabled(s, Reclaim(Some(b)))
    ensures OnePlaceEach(ReclaimStep(s, b)) && NoIdleBlock(ReclaimStep(s, b))
  {}

  lemma WaitingIsDistinct<B, O>(s: State<B, O>, i: Class)
    requires FirstInFirstOut(s)
    ensures Distinct(s.served[i] + s.waiting[i]) && Distinct(s.waiting[i])
  {
    KeepElements(s.queued[i], s.cancelled);
    var all := s.served[i] + s.waiting[i];
    forall j, k | 0 <= j < k < |s.waiting[i]| ensures s.waiting[i][j] != s.waiting[i][k] {
      assert all[|s.served[i]| + j] == s.waiting[i][j] && all[|s.served[i]| + k] == s.waiting[i][k];
    }
  }

  lemma ReclaimKeepsWaiting<B, O>(s: State<B, O>, b: B)
    requires WaitingOrDone(s) && FirstInFirstOut(s) && Enabled(s, Reclaim(Some(b)))
    ensures WaitingOrDone(ReclaimStep(s, b))
  {
    var i := s.header[b];
    if s.waiting[i] != [] {
      WaitingIsDistinct(s, i);
      assert s.waiting[i] == [s.waiting[i][0]] + s.waiting[i][1..];
    }
  }

  lemma ReclaimKeepsRecord<B, O>(s: State<B, O>, b: B)
    requires WaitingOrDone(s) && RecordRight(s) && LateWereServed(s) && Enabled(s, Reclaim(Some(b)))
    ensures RecordRight(ReclaimStep(s, b)) && LateWereServed(ReclaimStep(s, b))
  {
    var s' := ReclaimStep(s, b);
    if s.waiting[s.header[b]] != [] {
      assert s.waiting[s.header[b]][0] in s.waiting[s.header[b]];
      CompletionAdded(s, s', s'.completions[|s.completions|]);
    } else {
      RecordKept(s, s');
    }
  }

  lemma ReclaimKeepsOrder<B, O>(s: State<B, O>, b: B)
    requires FirstInFirstOut(s) && Enabled(s, Reclaim(Some(b)))
    ensures FirstInFirstOut(ReclaimStep(s, b))
  {
    var i := s.header[b];
    if s.waiting[i] != [] {
      assert s.served[i] + [s.waiting[i][0]] + s.waiting[i][1..] == s.served[i] + s.waiting[i];
    }
  }

  lemma CancelKeepsOrder<B, O>(s: State<B, O>, op: O)
    requires FirstInFirstOut(s) && Enabled(s, Cancel(op))
    ensures FirstInFirstOut(CancelStep(s, op))
  {
    var s' := CancelStep(s, op);
    forall j: Class ensures Keep(s.queued[j], s'.cancelled) == s'.served[j] + s'.waiting[j] {
      KeepKeep(s.queued[j], s.cancelled, op);
      if j == s.ops[op] {
        CancelledLeaves(s.served[j], s.waiting[j], IndexOf(s.waiting[j], op), s, j);
      } else {
        KeepElements(s.queued[j], s.cancelled);
        KeepAll(Keep(s.queued[j], s.cancelled), op);
      }
    }
  }

  lemma CancelledLeaves<B, O>(served: seq<O>, waiting: seq<O>, k: nat, s: State<B, O>, i: Class)
    requires FirstInFirstOut(s) && served == s.served[i] && waiting == s.waiting[i] && k < |waiting|
    ensures Keep(served + waiting, {waiting[k]}) == served + Without(waiting, k)
  {
    WaitingIsDistinct(s, i);
    KeepIsWithout(served + waiting, |served| + k);
    assert Without(served + waiting, |served| + k) == served + Without(waiting, k);
  }

  lemma CancelKeepsWaiting<B, O>(s: State<B, O>, op: O)
    requires WaitingOrDone(s) && FirstInFirstOut(s) && Enabled(s, Cancel(op))
    ensures WaitingOrDone(CancelStep(s, op))
  {
    var i := s.ops[op];
    WaitingIsDistinct(s, i);
    WithoutElements(s.waiting[i], IndexOf(s.waiting[i], op));
  }

  lemma CancelKeepsRecord<B, O>(s: State<B, O>, op: O)
    requires WaitingOrDone(s) && RecordRight(s) && LateWereServed(s) && Enabled(s, Cancel(op))
    ensures RecordRight(CancelStep(s, op)) && LateWereServed(CancelStep(s, op))
  {
    CompletionAdded(s, CancelStep(s, op), Completion(op, None));
  }

  /** A step that touches only the record and the callbacks. */
  lemma QueuesKept<B, O>(s: State<B, O>, s': State<B, O>)
    requires OnePlaceEach(s) && NoIdleBlock(s) && WaitingOrDone(s) && FirstInFirstOut(s)
    requires s' == s.(completions := s'.completions, armed := s'.armed, late := s'.late)
    ensures OnePlaceEach(s') && NoIdleBlock(s') && WaitingOrDone(s') && FirstInFirstOut(s')
  {}

  lemma LateCancelKeepsRecord<B, O>(s: State<B, O>, op: O)
    requires WaitingOrDone(s) && RecordRight(s) && LateWereServed(s) && Enabled(s, LateCancel(op))
    ensures RecordRight(LateCancelStep(s, op)) && LateWereServed(LateCancelStep(s, op))
  {
    CompletionAdded(s, LateCancelStep(s, op), Completion(op, None));
  }

  lemma LateCancelKeepsInv<B, O>(s: State<B, O>, op: O)
    requires Inv(s) && Enabled(s, LateCancel(op))
    ensures Inv(LateCancelStep(s, op))
  {
    LateCancelKeepsRecord(s, op);
    QueuesKept(s, LateCancelStep(s, op));
  }

  lemma DisarmKeepsRecord<B, O>(s: State<B, O>, op: O)
    requires WaitingOrDone(s) && RecordRight(s) && LateWereServed(s) && Enabled(s, Disarm(op))
    ensures RecordRight(Step(s, Disarm(op))) && LateWereServed(Step(s, Disarm(op)))
  {
    RecordKept(s, Step(s, Disarm(op)));
  }

  lemma DisarmKeepsInv<B, O>(s: State<B, O>, op: O)
    requires Inv(s) && Enabled(s, Disarm(op))
    ensures Inv(Step(s, Disarm(op)))
  {
    DisarmKeepsRecord(s, op);
    QueuesKept(s, Step(s, Disarm(op)));
  }

  lemma CancelKeepsPlaces<B, O>(s: State<B, O>, op: O)
    requires OnePlaceEach(s) && NoIdleBlock(s) && Enabled(s, Cancel(op))
    ensures OnePlaceEach(CancelStep(s, op)) && NoIdleBlock(CancelStep(s, op))
  {}

  lemma AllocateKeepsInv<B, O>(s: State<B, O>, op: O, i: Class, up: Option<B>)
    requires Inv(s) && Enabled(s, Allocate(op, i, up))
    ensures Inv(AllocateStep(s, op, i, up))
  {
    AllocateKeepsPlaces(s, op, i, up);
    AllocateKeepsWaiting(s, op, i, up);
    AllocateKeepsRecord(s, op, i, up);
    AllocateKeepsOrder(s, op, i, up);
  }

  lemma ReclaimKeepsInv<B, O>(s: State<B, O>, b: B)
    requires Inv(s) && Enabled(s, Reclaim(Some(b)))
    ensures Inv(ReclaimStep(s, b))
  {
    ReclaimKeepsPlaces(s, b);
    ReclaimKeepsWaiting(s, b);
    ReclaimKeepsRecord(s, b);
    ReclaimKeepsOrder(s, b);
  }

  lemma CancelKeepsInv<B, O>(s: State<B, O>, op: O)
    requires Inv(s) && Enabled(s, Cancel(op))
    ensures Inv(CancelStep(s, op))
  {
    CancelKeepsPlaces(s, op);
    CancelKeepsWaiting(s, op);
    CancelKeepsRecord(s, op);
    CancelKeepsOrder(s, op);
  }

  lemma StepKeepsInv<B, O>(s: State<B, O>, e: Event<B, O>)
    requires Inv(s) && Enabled(s, e)
    ensures Inv(Step(s, e))
  {
    match e
    case Allocate(op, i, up) => AllocateKeepsInv(s, op, i, up);
    case Reclaim(b) => if b.Some? { ReclaimKeepsInv(s, b.value); }
    case Disarm(op) => DisarmKeepsInv(s, op);
    case Cancel(op) => CancelKeepsInv(s, op);
    case LateCancel(op) => LateCancelKeepsInv(s, op);
  }

  // ----- Runs --------------------------------------------------------------------------------

  ghost predicate Run<B, O>(s: State<B, O>, es: seq<Event<B, O>>, t: State<B, O>)
    decreases |es|
  {
    if es == [] then s == t else Enabled(s, es[0]) && Run(Step(s, es[0]), es[1..], t)
  }

  lemma {:induction false} RunKeepsInv<B, O>(s: State<B, O>, es: seq<Event<B, O>>, t: State<B, O>)
    requires Inv(s) && Run(s, es, t)
    ensures Inv(t)
    decreases |es|
  {
    if es != [] {
      StepKeepsInv(s, es[0]);
      RunKeepsInv(Step(s, es[0]), es[1..], t);
    }
  }

  // ----- Main results ------------------------------------------------------------------------

  /** Ownership: in every run a block obtained from upstream is either with a client or at one
      position of one free list, the one its header names. */
  lemma BlocksAreInOnePlace<B, O>(es: seq<Event<B, O>>, t: State<B, O>)
    requires Run(Init(), es, t)
    ensures forall b | b in t.header :: b in t.held <==> b !in t.free[t.header[b]]
    ensures forall i: Class, b | b in t.free[i] :: b in t.header && t.header[b] == i
    ensures forall i: Class :: Distinct(t.free[i])
  {
    InitInv<B, O>();
    RunKeepsInv(Init(), es, t);
  }

  ghost function TimesCompleted<B, O>(s: State<B, O>, op: O): nat
  {
    Times(s.completions, op, true) + Times(s.completions, op, false)
  }

  /** Every operation is waiting in the queue of its class, or has completed once. */
  ghost predicate ExactlyOnce<B, O>(s: State<B, O>)
  {
    forall op | op in s.ops :: TimesCompleted(s, op) == if op in s.waiting[s.ops[op]] then 0 else 1
  }

  predicate StopsLate<B, O>(es: seq<Event<B, O>>)
  {
    exists j :: 0 <= j < |es| && es[j].LateCancel?
  }

  lemma {:induction false} LateIffStopsLate<B, O>(s: State<B, O>, es: seq<Event<B, O>>, t: State<B, O>)
    requires Run(s, es, t)
    ensures t.late != {} <==> s.late != {} || StopsLate(es)
    decreases |es|
  {
    if es != [] {
      LateIffStopsLate(Step(s, es[0]), es[1..], t);
      assert forall j | 0 < j < |es| :: es[j] == es[1..][j - 1];
      assert forall j | 0 <= j < |es[1..]| :: es[1..][j] == es[j + 1];
    }
  }

  /** Once the completion of a served operation has reset its stop callback, no stop comes late to it. */
  lemma {:induction false} NoStopAfterDisarm<B, O>(s: State<B, O>, es: seq<Event<B, O>>, t: State<B, O>, op: O)
    requires Inv(s) && Run(s, es, t) && op in s.done && op !in s.armed
    ensures op !in t.armed && (op in t.late <==> op in s.late)
    decreases |es|
  {
    if es != [] {
      StepKeepsInv(s, es[0]);
      NotArmedAgain(s, es[0], op);
      NoStopAfterDisarm(Step(s, es[0]), es[1..], t, op);
    }
  }

  lemma NotArmedAgain<B, O>(s: State<B, O>, e: Event<B, O>, op: O)
    requires WaitingOrDone(s) && Enabled(s, e) && op in s.done && op !in s.armed
    ensures op in Step(s, e).done && op !in Step(s, e).armed && (op in Step(s, e).late <==> op in s.late)
  {
    if e.Reclaim? && e.block.Some? && s.waiting[s.header[e.block.value]] != [] {
      assert s.waiting[s.header[e.block.value]][0] in s.waiting[s.header[e.block.value]];
    }
  }

  lemma DisarmEndsLateStops<B, O>(s: State<B, O>, op: O, es: seq<Event<B, O>>, t: State<B, O>)
    requires Inv(s) && Enabled(s, Disarm(op)) && Run(Step(s, Disarm(op)), es, t)
    ensures !Enabled(t, LateCancel(op)) && (op in t.late <==> op in s.late)
  {
    DisarmKeepsInv(s, op);
    NoStopAfterDisarm(Step(s, Disarm(op)), es, t, op);
  }

  /** In every run an operation that is not waiting completed with a block of its class, or as stopped if it
      was cancelled while it waited; and once more, as stopped, if its stop came late. */
  lemma CompletionsOfAnOperation<B, O>(es: seq<Event<B, O>>, t: State<B, O>, op: O)
    requires Run(Init(), es, t) && op in t.ops
    ensures op in t.waiting[t.ops[op]] <==> TimesCompleted(t, op) == 0
    ensures op in t.cancelled <==> TimesCompleted(t, op) == 1 && Times(t.completions, op, false) == 1
    ensures op in t.late <==> TimesCompleted(t, op) == 2
    ensures Times(t.completions, op, true) <= 1
    ensures forall j | 0 <= j < |t.completions| && t.completions[j].op == op && t.completions[j].block.Some? ::
              t.completions[j].block.value in t.header && t.header[t.completions[j].block.value] == t.ops[op]
  {
    InitInv<B, O>();
    RunKeepsInv(Init(), es, t);
    assert CompletedRight(t, op);
    forall j | 0 <= j < |t.completions| ensures Proper(t, t.completions[j]) {}
  }

  /** Exactly once: in a run every operation waits or has completed once, and no other ever completed, if and
      only if no stop came late. */
  lemma ExactlyOnceIff<B, O>(es: seq<Event<B, O>>, t: State<B, O>)
    requires Run(Init(), es, t)
    ensures ExactlyOnce(t) <==> !StopsLate(es)
    ensures forall j | 0 <= j < |t.completions| :: t.completions[j].op in t.ops
  {
    InitInv<B, O>();
    RunKeepsInv(Init(), es, t);
    LateIffStopsLate(Init(), es, t);
    forall op | op in t.ops ensures TimesCompleted(t, op) == 2 <==> op in t.late {
      CompletionsOfAnOperation(es, t, op);
    }
    forall op | op in t.ops ensures TimesCompleted(t, op) == 0 <==> op in t.waiting[t.ops[op]] {
      CompletionsOfAnOperation(es, t, op);
    }
    forall op | op in t.ops ensures TimesCompleted(t, op) <= 2 { assert CompletedRight(t, op); }
    if op :| op in t.late { assert op in t.ops; }
    forall j | 0 <= j < |t.completions| ensures t.completions[j].op in t.ops {
      assert Proper(t, t.completions[j]);
    }
  }

  /** A late stop: operation 2 waits, is handed the block operation 1 gives back, and is stopped before its
      completion resets the callback.  It completes twice. */
  lemma LateStopCompletesTwice() returns (es: seq<Event<int, int>>, t: State<int, int>)
    ensures Run(Init(), es, t) && TimesCompleted(t, 2) == 2 && !ExactlyOnce(t)
  {
    var s1 := Step(Init<int, int>(), Allocate(1, 0, Some(10)));
    var s2 := Step(s1, Allocate(2, 0, None));
    var s3 := Step(s2, Reclaim(Some(10)));
    t := Step(s3, LateCancel(2));
    es := [Allocate(1, 0, Some(10)), Allocate(2, 0, None), Reclaim(Some(10)), LateCancel(2)];
    assert es[1..][1..][1..][1..] == [];
    assert es[1..][1..][1..] == [LateCancel(2)];
    assert Run(s3, es[1..][1..][1..], t);
    assert Run(s2, es[1..][1..], t);
    assert Run(s1, es[1..], t);
    ExactlyOnceIff(es, t);
    CompletionsOfAnOperation(es, t, 2);
    assert es[3].LateCancel?;
  }

  /** Nobody starves beside a free block, and waiters are served in the order they came: what queued
      in a class, less those stopped, is what was served followed by what still waits. */
  lemma WaitersAreServedInOrder<B, O>(es: seq<Event<B, O>>, t: State<B, O>, i: Class)
    requires Run(Init(), es, t)
    ensures t.waiting[i] != [] ==> t.free[i] == []
    ensures Keep(t.queued[i], t.cancelled) == t.served[i] + t.waiting[i]
    ensures t.cancelled == {} ==> t.queued[i] == t.served[i] + t.waiting[i]
  {
    InitInv<B, O>();
    RunKeepsInv(Init(), es, t);
    if t.cancelled == {} { KeepEverything(t.queued[i]); }
  }

  lemma {:induction false} KeepEverything<O>(q: seq<O>)
    ensures Keep(q, {}) == q
  {
    if q != [] { KeepEverything(q[1..]); }
  }

  /** Stopping one waiter leaves the order of all others, in every class. */
  lemma CancelLeavesTheRest<B, O>(s: State<B, O>, op: O, i: Class)
    requires Inv(s) && Enabled(s, Cancel(op))
    ensures Step(s, Cancel(op)).waiting[i] == Keep(s.waiting[i], {op})
    ensures Step(s, Cancel(op)).free == s.free && Step(s, Cancel(op)).held == s.held
  {
    WaitingIsDistinct(s, i);
    if i == s.ops[op] {
      KeepIsWithout(s.waiting[i], IndexOf(s.waiting[i], op));
    } else {
      KeepAll(s.waiting[i], op);
    }
  }

  /** With nobody waiting, the block given back last is the first handed out again, and then the free lists
      and the clients' blocks are what they were. */
  lemma LastReturnedIsFirstReused<B, O>(s: State<B, O>, b: B, op: O, up: Option<B>)
    requires Inv(s) && Enabled(s, Reclaim(Some(b))) && s.waiting[s.header[b]] == []
    requires Enabled(Step(s, Reclaim(Some(b))), Allocate(op, s.header[b], up))
    ensures var t := Step(Step(s, Reclaim(Some(b))), Allocate(op, s.header[b], up));
            && t.free == s.free && t.held == s.held && t.header == s.header && t.waiting == s.waiting
            && t.completions == s.completions + [Completion(op, Some(b))]
  {
    var i := s.header[b];
    var s1 := Step(s, Reclaim(Some(b)));
    assert s1.free[i] == [b] + s.free[i] && s1.free[i][1..] == s.free[i];
    assert s1.free[i := s.free[i]] == s.free;
  }

  // ----- The pool asks for no more than the peak -----------------------------------------------

  ghost function ObtainedSet<B, O>(s: State<B, O>, i: Class): set<B>
  {
    set b | b in s.header && s.header[b] == i
  }

  ghost function InUseSet<B, O>(s: State<B, O>, i: Class): set<B>
  {
    set b | b in s.held && b in s.header && s.header[b] == i
  }

  /** The most blocks of class i in the hands of clients at any time of the run. */
  ghost function Peak<B, O>(s: State<B, O>, es: seq<Event<B, O>>, i: Class): nat
    decreases |es|
  {
    if es == [] || !Enabled(s, es[0]) then |InUseSet(s, i)|
    else Max(|InUseSet(s, i)|, Peak(Step(s, es[0]), es[1..], i))
  }

  function Max(a: nat, b: nat): nat
  {
    if a < b then b else a
  }

  lemma {:induction false} Smaller<T>(a: set<T>, b: set<T>)
    requires a <= b
    ensures |a| <= |b|
  {
    if x :| x in a { Smaller(a - {x}, b - {x}); }
  }

  predicate AsksUpstream<B, O>(s: State<B, O>, e: Event<B, O>)
  {
    e.Allocate? && s.free[e.index] == [] && e.upstream.Some?
  }

  lemma HeaderAfter<B, O>(s: State<B, O>, e: Event<B, O>)
    requires Enabled(s, e)
    ensures Step(s, e).header == if AsksUpstream(s, e) then s.header[e.upstream.value := e.index] else s.header
    ensures AsksUpstream(s, e) ==> Step(s, e).free == s.free && e.upstream.value !in s.header
  {}

  /** With an empty free list, every block of the class is in use. */
  lemma NoneFreeMeansAllInUse<B, O>(s: State<B, O>, i: Class)
    requires OnePlaceEach(s) && s.free[i] == []
    ensures ObtainedSet(s, i) == InUseSet(s, i)
  {}

  lemma ObtainedGrows<B, O>(s: State<B, O>, s': State<B, O>, b: B, c: Class, i: Class)
    requires b !in s.header && s'.header == s.header[b := c]
    ensures ObtainedSet(s', i) == if i == c then ObtainedSet(s, i) + {b} else ObtainedSet(s, i)
  {}

  /** Only a request that finds its free list empty obtains a block, and then all are in use. */
  lemma ObtainsOnlyWhenAllInUse<B, O>(s: State<B, O>, e: Event<B, O>, i: Class)
    requires Inv(s) && Enabled(s, e)
    ensures ObtainedSet(s, i) <= ObtainedSet(Step(s, e), i)
    ensures ObtainedSet(Step(s, e), i) == ObtainedSet(s, i) || ObtainedSet(Step(s, e), i) == InUseSet(Step(s, e), i)
  {
    var s' := Step(s, e);
    HeaderAfter(s, e);
    if AsksUpstream(s, e) {
      ObtainedGrows(s, s', e.upstream.value, e.index, i);
      if i == e.index {
        StepKeepsInv(s, e);
        NoneFreeMeansAllInUse(s', i);
      }
    }
  }

  lemma {:induction false} ObtainedFollowsPeak<B, O>(s: State<B, O>, es: seq<Event<B, O>>, t: State<B, O>, i: Class)
    requires Inv(s) && Run(s, es, t)
    ensures |ObtainedSet(t, i)| == Max(|ObtainedSet(s, i)|, Peak(s, es, i))
    decreases |es|
  {
    Smaller(InUseSet(s, i), ObtainedSet(s, i));
    if es != [] {
      var s1 := Step(s, es[0]);
      StepKeepsInv(s, es[0]);
      ObtainsOnlyWhenAllInUse(s, es[0], i);
      Smaller(ObtainedSet(s, i), ObtainedSet(s1, i));
      ObtainedFollowsPeak(s1, es[1..], t, i);
    }
  }

  /** The blocks of a class ever obtained from upstream are as many as were in use at the peak. */
  lemma ObtainedIsThePeak<B, O>(es: seq<Event<B, O>>, t: State<B, O>, i: Class)
    requires Run(Init(), es, t)
    ensures |ObtainedSet(t, i)| == Peak(Init(), es, i)
  {
    InitInv<B, O>();
    ObtainedFollowsPeak(Init(), es, t, i);
    assert ObtainedSet<B, O>(Init(), i) == {};
  }

  // ----- The destructor ----------------------------------------------------------------------

  /** The blocks of one list with the size they are returned with. */
  function Sized<B>(blocks: seq<B>, i: Class): seq<(B, Option<nat>)>
  {
    seq(|blocks|, k requires 0 <= k < |blocks| => (blocks[k], BlockBytes(i)))
  }

  /** What the destructor hands to upstream from the lists before the i-th. */
  ghost function Returned<B, O>(s: State<B, O>, i: nat): seq<(B, Option<nat>)>
    requires i <= CLASSES
  {
    if i == 0 then [] else Returned(s, i - 1) + Sized(s.free[i - 1], i - 1)
  }

  /** An entry of the destructor's calls: a free block of a class below i, with the size of its class. */
  ghost predicate ReturnedFrom<B, O>(s: State<B, O>, i: nat, r: (B, Option<nat>))
  {
    r.0 in s.header && s.header[r.0] < i && r.0 in s.free[s.header[r.0]] && r.1 == BlockBytes(s.header[r.0])
  }

  lemma {:induction false} ReturnedAreFree<B, O>(s: State<B, O>, i: nat)
    requires OnePlaceEach(s) && i <= CLASSES
    ensures forall j | 0 <= j < |Returned(s, i)| :: ReturnedFrom(s, i, Returned(s, i)[j])
  {
    if i > 0 {
      var before, here := Returned(s, i - 1), Sized(s.free[i - 1], i - 1);
      ReturnedAreFree(s, i - 1);
      var all := Returned(s, i);
      forall j | 0 <= j < |all| ensures ReturnedFrom(s, i, all[j]) {
        if j < |before| { assert ReturnedFrom(s, i - 1, before[j]); }
        else { assert here[j - |before|].0 == s.free[i - 1][j - |before|]; }
      }
    }
  }

  lemma {:induction false} ReturnedAreDistinct<B, O>(s: State<B, O>, i: nat)
    requires OnePlaceEach(s) && i <= CLASSES
    ensures forall j, k | 0 <= j < k < |Returned(s, i)| :: Returned(s, i)[j].0 != Returned(s, i)[k].0
  {
    if i > 0 {
      var before, here := Returned(s, i - 1), Sized(s.free[i - 1], i - 1);
      ReturnedAreDistinct(s, i - 1);
      ReturnedAreFree(s, i - 1);
      var all := Returned(s, i);
      forall j, k | 0 <= j < k < |all| ensures all[j].0 != all[k].0 {
        if k >= |before| {
          assert all[k].0 == s.free[i - 1][k - |before|];
          if j < |before| { assert ReturnedFrom(s, i - 1, before[j]); }
        }
      }
    }
  }

  lemma {:induction false} FreeAreReturned<B, O>(s: State<B, O>, i: nat, b: B)
    requires OnePlaceEach(s) && i <= CLASSES && b in s.header && b !in s.held && s.header[b] < i
    ensures (b, BlockBytes(s.header[b])) in Returned(s, i)
  {
    if s.header[b] == i - 1 {
      var here := Sized(s.free[i - 1], i - 1);
      assert here[IndexOf(s.free[i - 1], b)] == (b, BlockBytes(i - 1));
    } else {
      FreeAreReturned(s, i - 1, b);
    }
  }

  /** The destructor returns every block no client holds, once, with the size it was obtained with. */
  lemma DestructorReturnsFreeBlocksOnce<B, O>(es: seq<Event<B, O>>, t: State<B, O>)
    requires Run(Init(), es, t)
    ensures forall j | 0 <= j < |Returned(t, CLASSES)| ::
              var r := Returned(t, CLASSES)[j]; r.0 in t.header && r.0 !in t.held && r.1 == BlockBytes(t.header[r.0])
    ensures forall j, k | 0 <= j < k < |Returned(t, CLASSES)| :: Returned(t, CLASSES)[j].0 != Returned(t, CLASSES)[k].0
    ensures forall b | b in t.header && b !in t.held :: (b, BlockBytes(t.header[b])) in Returned(t, CLASSES)
  {
    InitInv<B, O>();
    RunKeepsInv(Init(), es, t);
    ReturnedAreFree(t, CLASSES);
    ReturnedAreDistinct(t, CLASSES);
    forall j | 0 <= j < |Returned(t, CLASSES)| ensures ReturnedFrom(t, CLASSES, Returned(t, CLASSES)[j]) {}
    forall b | b in t.header && b !in t.held { FreeAreReturned(t, CLASSES, b); }
  }
}

/** The allocator on the heap. */
module MemoryPool {
  import opened IntrusiveList
  import Q = IntrusiveQueue
  import opened PoolProtocol
  import opened Sequences
  import opened SizeClass
  import opened Wrappers

  /** A block, seen through its header: the link to the next free block and the class index. */
  type Block = Q.Item<nat>
  type BlockPtr = Q.Item?<nat>

  /** allocate_operation_base; its next_ and prev_ are those of the list item that carries it. */
  class Request {
    const index: Class
    var result: Option<Block>

    constructor (index: Class)
      ensures this.index == index && result == None
    {
      this.index, result := index, None;
    }
  }

  type Operation = Item<Request>

  ghost function Members<T>(lists: Lists<T>): (r: set<T>)
    ensures forall i: Class, x | x in lists[i] :: x in r
  {
    set i: Class, x | x in lists[i] :: x
  }

  class Pool {
    const blockLists: array<BlockPtr>
    const pending: seq<List<Request>>
    ghost var model: State<Block, Operation>

    ghost function Waiters(): set<Operation>
      reads this
    {
      Members(model.waiting)
    }

    ghost predicate FreeLists(free: Lists<Block>)
      reads blockLists, Members(free)
    {
      blockLists.Length == CLASSES && forall i: Class :: Q.Linked(blockLists[i], free[i])
    }

    ghost predicate Queues(waiting: Lists<Operation>)
      reads pending, Members(waiting)
    {
      && |pending| == CLASSES
      && (forall i, j | 0 <= i < j < CLASSES :: pending[i] != pending[j])
      && (forall i: Class :: pending[i].items == waiting[i] && pending[i].Valid())
      && (forall i: Class, op | op in waiting[i] :: op.value.index == i)
    }

    /** The heads and links are those of the lists of the model. */
    ghost predicate Linked()
      reads this, blockLists, pending, Waiters(), Members(model.free)
    {
      FreeLists(model.free) && Queues(model.waiting)
    }

    /** Headers and operations carry the classes the model says. */
    ghost predicate Labelled()
      reads this
    {
      && (forall b | b in model.header :: b.value == model.header[b])
      && (forall op | op in model.ops :: op.value.index == model.ops[op])
    }

    ghost predicate Valid()
      reads this, blockLists, pending, Waiters(), Members(model.free)
    {
      Linked() && Labelled() && Inv(model)
    }

    constructor ()
      ensures Valid() && model == Init() && fresh(blockLists) && fresh(pending)
    {
      var lists: seq<List<Request>> := [];
      for k := 0 to CLASSES
        invariant |lists| == k && fresh(lists)
        invariant forall i, j | 0 <= i < j < k :: lists[i] != lists[j]
        invariant forall i | 0 <= i < k :: lists[i].Valid() && lists[i].items == []
      {
        var list := new List<Request>();
        lists := lists + [list];
      }
      blockLists := new BlockPtr[CLASSES](_ => null);
      pending := lists;
      model := Init();
      InitInv<Block, Operation>();
    }

    /** What upstream answered, if it was asked. */
    static ghost function Answer(s: State<Block, Operation>, i: Class, block: BlockPtr): Option<Block>
    {
      if s.free[i] == [] && block != null then Some(block) else None
    }

    /** allocate_operation::start; `grant` says whether upstream has memory, `asked` lists the sizes it was
        asked for.  A null result means that the operation waits. */
    method Start(op: Operation, grant: bool) returns (block: BlockPtr, asked: seq<Option<nat>>)
      requires Valid() && op !in model.ops
      modifies this, blockLists, pending, Waiters(), op
      ensures Valid()
      ensures asked == if old(model).free[op.value.index] == [] then [BlockBytes(op.value.index)] else []
      ensures block == null <==> old(model).free[op.value.index] == [] && !grant
      ensures old(model).free[op.value.index] != [] ==> block == old(model).free[op.value.index][0]
      ensures old(model).free[op.value.index] == [] && block != null ==> fresh(block)
      ensures block != null ==> Handed(old(model), model, op, block)
      ensures block == null ==> model.completions == old(model).completions && model.held == old(model).held
      ensures Enabled(old(model), Allocate(op, op.value.index, Answer(old(model), op.value.index, block)))
      ensures model == Step(old(model), Allocate(op, op.value.index, Answer(old(model), op.value.index, block)))
    {
      ghost var i, was := op.value.index, model;
      block, asked := blockLists[op.value.index], [];
      if block != null {
        TakeFree(op);
      } else {
        asked := [BlockBytes(op.value.index)];
        if grant {
          block := AskUpstream(op);
        } else {
          assert op !in model.waiting[i];
          Wait(op);
        }
      }
      AllocateKeepsInv(was, op, i, Answer(was, i, block));
    }

    /** The block went to op, and to op alone. */
    static ghost predicate Handed(s: State<Block, Operation>, t: State<Block, Operation>, op: Operation, block: Block)
    {
      && block !in s.held && t.held == s.held + {block}
      && t.completions == s.completions + [Completion(op, Some(block))]
      && block.value == op.value.index
    }

    method TakeFree(op: Operation)
      requires Linked() && Labelled() && model.free[op.value.index] != []
      modifies this, blockLists
      ensures Linked() && Labelled() && model == AllocateStep(old(model), op, op.value.index, None)
    {
      var i := op.value.index;
      var head := blockLists[i];
      Q.LinkedTail(head, model.free[i]);
      blockLists[i] := head.next;
      model := AllocateStep(model, op, i, None);
    }

    method AskUpstream(op: Operation) returns (block: Block)
      requires Linked() && Labelled() && model.free[op.value.index] == []
      modifies this
      ensures Linked() && Labelled() && fresh(block) && block !in old(model).header
      ensures model == AllocateStep(old(model), op, op.value.index, Some(block))
    {
      var i := op.value.index;
      block := new Q.Item(i);
      model := AllocateStep(model, op, i, Some(block));
    }

    method Wait(op: Operation)
      requires Linked() && Labelled() && model.free[op.value.index] == [] && op !in model.waiting[op.value.index]
      modifies this, pending, Waiters(), op
      ensures Linked() && Labelled() && model == AllocateStep(old(model), op, op.value.index, None)
    {
      var i := op.value.index;
      pending[i].PushBack(op);
      OthersStay(i);
      model := AllocateStep(model, op, i, None);
    }

    static function Given(block: BlockPtr): Option<Block>
    {
      if block == null then None else Some(block)
    }

    /** memory_pool::reclaim_memory: the block goes to the operation that has waited longest in its
        class, which then completes, or to the front of the free list. */
    method ReclaimMemory(block: BlockPtr) returns (served: Option<Operation>)
      requires Valid() && (block != null ==> block in model.held)
      modifies this, blockLists, pending, Waiters(), set op | op in Waiters() :: op.value
      modifies if block == null then {} else {block}
      ensures Valid()
      ensures Enabled(old(model), Reclaim(Given(block)))
      ensures var m := Step(old(model), Reclaim(Given(block)));
              if served == None then model == m
              else Enabled(m, Disarm(served.value)) && model == Step(m, Disarm(served.value))
      ensures served.Some? ==> served.value.value.result == Some(block)
      ensures served == if block != null && old(model).waiting[block.value] != []
                        then Some(old(model).waiting[block.value][0]) else None
    {
      served := TakeBack(block);
      if served.Some? { ResetStopCallback(served.value); }
    }

    /** The completion of a served operation resets its stop callback. */
    ghost method ResetStopCallback(op: Operation)
      requires Valid() && Enabled(model, Disarm(op))
      modifies this`model
      ensures Valid() && model == Step(old(model), Disarm(op))
    {
      ghost var was := model;
      Note(Step(was, Disarm(op)));
      DisarmKeepsInv(was, op);
    }

    /** A step that touches only the record and the callbacks. */
    ghost method Note(s: State<Block, Operation>)
      requires Linked() && Labelled()
      requires s == model.(completions := s.completions, armed := s.armed, late := s.late)
      modifies this`model
      ensures Linked() && Labelled() && model == s
    {
      model := s;
    }

    /** The critical section of reclaim_memory. A served operation leaves with the links it had at the front. */
    method TakeBack(block: BlockPtr) returns (served: Option<Operation>)
      requires Valid() && (block != null ==> block in model.held)
      modifies this, blockLists, pending, Waiters(), set op | op in Waiters() :: op.value
      modifies if block == null then {} else {block}
      ensures Valid()
      ensures Enabled(old(model), Reclaim(Given(block)))
      ensures model == Step(old(model), Reclaim(Given(block)))
      ensures served.Some? ==> served.value.value.result == Some(block) && Enabled(model, Disarm(served.value))
      ensures served.Some? ==> Left(served.value)
      ensures served == if block != null && old(model).waiting[block.value] != []
                        then Some(old(model).waiting[block.value][0]) else None
    {
      if block == null {
        return None;
      }
      ghost var was := model;
      var empty := pending[block.value].Empty();
      if !empty {
        var op := Serve(block);
        served := Some(op);
      } else {
        PutBack(block);
        served := None;
      }
      ReclaimKeepsInv(was, block);
    }

    /** op has the links with which it left the front of its queue, and they still fit the queue. */
    ghost predicate Left(op: Operation)
      requires |pending| == CLASSES
      reads op, pending
    {
      op.prev == null && op.next == pending[op.value.index].head
    }

    method Serve(block: Block) returns (op: Operation)
      requires Linked() && Labelled() && block in model.header && model.waiting[block.value] != []
      modifies this, pending, Waiters(), set w | w in Waiters() :: w.value
      ensures Linked() && Labelled() && model == ReclaimStep(old(model), block)
      ensures op == old(model).waiting[block.value][0] && op.value.result == Some(block) && Left(op)
    {
      op := PopWaiter(block);
      op.value.result := Some(block);
    }

    method PopWaiter(block: Block) returns (op: Operation)
      requires Linked() && Labelled() && block in model.header && model.waiting[block.value] != []
      modifies this, pending, Waiters()
      ensures Linked() && Labelled() && model == ReclaimStep(old(model), block)
      ensures op == old(model).waiting[block.value][0] && Left(op)
    {
      var i := block.value;
      op := pending[i].PopFront();
      OthersStay(i);
      model := ReclaimStep(model, block);
    }

    method PutBack(block: Block)
      requires Linked() && Labelled() && block in model.header && model.waiting[block.value] == []
      requires block !in Members(model.free)
      modifies this, blockLists, block
      ensures Linked() && Labelled() && model == ReclaimStep(old(model), block)
    {
      var i := block.value;
      block.next := blockLists[i];
      Q.LinkedCons(block, model.free[i]);
      blockLists[i] := block;
      model := ReclaimStep(model, block);
    }

    /** The stop callback of a waiting operation. */
    method OnReceiverStop(op: Operation)
      requires Valid() && Enabled(model, Cancel(op))
      modifies this, pending, Waiters()
      ensures Valid() && model == Step(old(model), Cancel(op))
    {
      ghost var was := model;
      Unlink(op);
      CancelKeepsInv(was, op);
    }

    /** The stop callback of an operation that was served while the callback waited for the mutex: the
        operation is unlinked once more, from a queue it has left, and completes a second time. */
    method OnLateStop(op: Operation)
      requires Valid() && Enabled(model, LateCancel(op)) && Left(op)
      modifies this, pending, Waiters()
      ensures Valid() && model == Step(old(model), LateCancel(op))
    {
      ghost var was := model;
      EraseAgain(op);
      Note(LateCancelStep(was, op));
      LateCancelKeepsInv(was, op);
    }

    method EraseAgain(op: Operation)
      requires Linked() && Labelled() && op !in model.waiting[op.value.index] && Left(op)
      modifies pending, Waiters()
      ensures Linked() && Labelled()
    {
      pending[op.value.index].ErasePopped(op);
      OthersStay(op.value.index);
    }

    method Unlink(op: Operation)
      requires Linked() && Labelled() && Enabled(model, Cancel(op))
      modifies this, pending, Waiters()
      ensures Linked() && Labelled() && model == CancelStep(old(model), op)
    {
      assert op.value.index == model.ops[op];
      EraseWaiter(op);
      model := CancelStep(model, op);
    }

    method EraseWaiter(op: Operation)
      requires Linked() && op in model.waiting[op.value.index]
      modifies pending, Waiters()
      ensures FreeLists(model.free)
      ensures var i := op.value.index;
              Queues(model.waiting[i := Without(model.waiting[i], IndexOf(model.waiting[i], op))])
    {
      var i := op.value.index;
      pending[i].Erase(op, IndexOf(model.waiting[i], op));
      OthersStay(i);
    }

    /** Writing to the operations of one class leaves the queue of every other class valid. */
    twostate lemma OthersStay(i: Class)
      requires old(Linked()) && model == old(model)
      requires forall j: Class | j != i :: unchanged(pending[j])
      requires forall op | op in Waiters() && op.value.index != i :: op.next == old(op.next) && op.prev == old(op.prev)
      ensures forall j: Class | j != i :: pending[j].Valid() && pending[j].items == model.waiting[j]
    {
      forall j: Class | j != i ensures pending[j].Valid() {
        assert forall op | op in model.waiting[j] :: op in Waiters();
        StaysValid(pending[j]);
      }
    }

    /** ~memory_pool: walks every free list and returns its blocks; `returned` lists the calls made. */
    method Destroy() returns (returned: seq<(Block, Option<nat>)>)
      requires Linked()
      ensures returned == Returned(model, CLASSES)
    {
      returned := [];
      for i := 0 to CLASSES
        invariant returned == Returned(model, i)
      {
        var walked := Walk(blockLists[i], i, model.free[i]);
        returned := returned + walked;
      }
    }

    static method Walk(head: BlockPtr, i: Class, ghost blocks: seq<Block>) returns (returned: seq<(Block, Option<nat>)>)
      requires Q.Linked(head, blocks)
      ensures returned == Sized(blocks, i)
    {
      var ptr := head;
      ghost var todo := blocks;
      returned := [];
      while ptr != null
        invariant Q.Linked(ptr, todo)
        invariant |todo| <= |blocks| && todo == blocks[|blocks| - |todo|..]
        invariant returned == Sized(blocks, i)[..|blocks| - |todo|]
        decreases |todo|
      {
        Q.LinkedTail(ptr, todo);
        var next := ptr.next;
        returned := returned + [(ptr, BlockBytes(i))];
        todo := todo[1..];
        ptr := next;
      }
    }
  }
}
