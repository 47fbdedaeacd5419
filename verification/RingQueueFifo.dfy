/** With one producer and one consumer the ring queue is a bounded first-in first-out queue. */
module RingQueueFifo {
  import opened Modular
  import opened RingQueue
  import opened RingQueueProof

  const PRODUCER: nat := 0
  const CONSUMER: nat := 1

  predicate Producing(pc: Pc) {
    pc.Idle? || pc.EHead? || pc.ETail? || pc.EDecide? || pc.EWrap? || pc.EClaim? || pc.EStore? || pc.EPublish?
  }

  predicate Consuming(pc: Pc) {
    pc.Idle? || pc.DHead? || pc.DTail? || pc.DDecide? || pc.DClaim? || pc.DTake? || pc.DRelease?
  }

  /** The producer only enqueues, the consumer only dequeues, and there is nobody else. */
  predicate Pair(q: Queue) {
    q.threads.Keys == {PRODUCER, CONSUMER} && Producing(q.threads[PRODUCER]) && Consuming(q.threads[CONSUMER])
  }

  predicate PairAction(a: Action) {
    (a.StartEnqueue? ==> a.t == PRODUCER) && (a.StartDequeue? ==> a.t == CONSUMER)
  }

  /** A ticket is reserved but its value not yet written, or not yet taken. */
  predicate Unwritten(pc: Pc) {
    pc.EClaim? || pc.EStore?
  }

  predicate Untaken(pc: Pc) {
    pc.DClaim? || pc.DTake?
  }

  /** Each side knows its own counter exactly. */
  predicate Exact(q: Queue)
    requires Pair(q)
  {
    var p, c := q.threads[PRODUCER], q.threads[CONSUMER];
    && (p.ETail? || p.EDecide? ==> p.h == q.head)
    && (p.EClaim? || p.EStore? || p.EPublish? ==> p.ticket + 1 == q.head)
    && |q.stored| + (if Unwritten(p) then 1 else 0) == q.head
    && (c.DTail? || c.DDecide? ==> c.seen == q.tail)
    && (c.DDecide? ==> c.t == q.tail)
    && (c.DClaim? || c.DTake? || c.DRelease? ==> c.ticket + 1 == q.tail)
    && |q.handed| + (if Untaken(c) then 1 else 0) == q.tail
    && (c.DRelease? ==> q.handed[c.ticket] == c.val)
  }

  predicate Holds(q: Queue, k: nat)
    requires Shape(q) && k < |q.stored|
  {
    Full(q, Pos(q, k)) && q.slots[Pos(q, k)].data == q.stored[k]
  }

  /** The slots hold exactly the values written and not yet taken, each in the slot of its ticket. */
  ghost predicate Ring(q: Queue)
    requires Shape(q)
  {
    && |q.handed| <= |q.stored| <= |q.handed| + q.size
    && q.handed == q.stored[..|q.handed|]
    && (forall k :: |q.handed| <= k < |q.stored| ==> Holds(q, k))
    && (forall s :: 0 <= s < q.size && Full(q, s) ==> Hit(|q.handed|, |q.stored|, q.size, s))
  }

  ghost predicate PairInv(q: Queue) {
    Inv(q) && Pair(q) && Exact(q) && Ring(q)
  }

  lemma PairInit(q: Queue)
    requires Init(q) && q.threads.Keys == {PRODUCER, CONSUMER}
    ensures PairInv(q)
  {
    InitInv(q);
  }

  /** A full slot that would be next in turn holds the oldest value. */
  lemma OldestHere(q: Queue)
    requires Shape(q) && Ring(q) && Full(q, Pos(q, |q.handed|))
    ensures |q.handed| < |q.stored| && Holds(q, |q.handed|)
  {
    var m, n := |q.handed|, |q.stored|;
    assert Hit(m, n, q.size, Pos(q, m));
    var k :| m <= k < n && k % q.size == Pos(q, m);
    if m < k {
      SameSlotApart(m, k, q.size);
    }
  }

  /** A slot about to be written holds nothing that is still wanted. */
  lemma RoomHere(q: Queue)
    requires Shape(q) && Ring(q) && !Full(q, Pos(q, |q.stored|))
    ensures |q.stored| < |q.handed| + q.size
    ensures forall k :: |q.handed| <= k < |q.stored| ==> Pos(q, k) != Pos(q, |q.stored|)
  {
    var m, n := |q.handed|, |q.stored|;
    forall k | m <= k < n
      ensures Pos(q, k) != Pos(q, n)
    {
      assert Holds(q, k);
    }
    assert m < n ==> Pos(q, m) != Pos(q, n);
    ResidueMoves(m, q.size, q.size);
  }

  /** Outside slot `s` nothing about the contents changed. */
  ghost predicate SameRing(q: Queue, q': Queue, s: nat)
    requires Shape(q) && Shape(q')
  {
    q'.size == q.size &&
    forall u :: 0 <= u < q.size && u != s ==> Full(q', u) == Full(q, u) && q'.slots[u].data == q.slots[u].data
  }

  lemma RingStore(q: Queue, q': Queue, val: Value)
    requires Shape(q) && Shape(q') && Ring(q)
    requires var s := Pos(q, |q.stored|);
             SameRing(q, q', s) && !Full(q, s) && Full(q', s) && q'.slots[s].data == val
    requires q'.stored == q.stored + [val] && q'.handed == q.handed
    ensures Ring(q')
  {
    var m, n, s := |q.handed|, |q.stored|, Pos(q, |q.stored|);
    RoomHere(q);
    forall k | m <= k < n + 1
      ensures Holds(q', k)
    {
      if k < n {
        assert Holds(q, k) && Pos(q, k) != s;
      }
    }
    forall u | 0 <= u < q'.size && Full(q', u)
      ensures Hit(m, n + 1, q.size, u)
    {
      if u == s {
        assert m <= n < n + 1 && n % q.size == u;
      } else {
        assert Full(q, u);
        HitLater(m, n, q.size, u);
      }
    }
  }

  lemma HitLater(m: nat, n: nat, size: nat, s: nat)
    requires size > 0 && Hit(m, n, size, s)
    ensures Hit(m, n + 1, size, s)
  {
    var k :| m <= k < n && k % size == s;
    assert m <= k < n + 1 && k % size == s;
  }

  lemma RingTake(q: Queue, q': Queue)
    requires Shape(q) && Shape(q') && Ring(q)
    requires var s := Pos(q, |q.handed|);
             SameRing(q, q', s) && Full(q, s) && !Full(q', s) && q'.handed == q.handed + [q.slots[s].data]
    requires q'.stored == q.stored
    ensures Ring(q')
  {
    var m, n, s := |q.handed|, |q.stored|, Pos(q, |q.handed|);
    OldestHere(q);
    assert q'.handed == q.stored[..m + 1];
    forall k | m + 1 <= k < n
      ensures Holds(q', k)
    {
      assert Holds(q, k);
      if Pos(q, k) == s {
        SameSlotApart(m, k, q.size);
      }
    }
    forall u | 0 <= u < q'.size && Full(q', u)
      ensures Hit(m + 1, n, q.size, u)
    {
      assert u != s && Full(q, u);
      var k :| m <= k < n && k % q.size == u;
      assert m + 1 <= k < n && k % q.size == u;
    }
  }

  lemma RingSame(q: Queue, q': Queue)
    requires Shape(q) && Shape(q') && Ring(q) && SameRing(q, q', q.size)
    requires q'.stored == q.stored && q'.handed == q.handed
    ensures Ring(q')
  {
    forall k | |q'.handed| <= k < |q'.stored|
      ensures Holds(q', k)
    {
      assert Holds(q, k);
    }
  }

  /** A step of a thread affects the contents of at most the slot it works on. */
  lemma SlotFrame(q: Queue, q': Queue, id: nat, s: nat)
    requires Inv(q) && Moved(q, q', id, s)
    requires forall u :: 0 <= u < q.size && u != s ==> !WorksOn(q, q.threads[id], u)
    ensures SameRing(q, q', s)
  {
    forall u | 0 <= u < q.size && u != s
      ensures Full(q', u) == Full(q, u) && q'.slots[u].data == q.slots[u].data
    {
      assert SlotOk(q, u) && !WorksOn(q, q.threads[id], u);
    }
  }

  lemma StoreStep(q: Queue, q': Queue, id: nat)
    requires PairInv(q) && id in q.threads && q.threads[id].EStore? && q' == Step(q, id)
    ensures Ring(q')
  {
    var s := Pos(q, q.threads[id].ticket);
    assert PcOk(q, id, q.threads[id]);
    SlotFrame(q, q', id, s);
    RingStore(q, q', q.threads[id].val);
  }

  lemma TakeStep(q: Queue, q': Queue, id: nat)
    requires PairInv(q) && id in q.threads && q.threads[id].DTake? && q' == Step(q, id)
    ensures Ring(q')
  {
    var s := Pos(q, q.threads[id].ticket);
    assert PcOk(q, id, q.threads[id]);
    SlotFrame(q, q', id, s);
    RingTake(q, q');
  }

  /** Claiming a slot leaves its contents alone, and so does publishing or releasing it. */
  lemma ClaimStep(q: Queue, q': Queue, id: nat)
    requires PairInv(q) && id in q.threads && q' == Step(q, id) && (q.threads[id].EClaim? || q.threads[id].DClaim?)
    ensures Ring(q')
  {
    var s := Pos(q, q.threads[id].ticket);
    SlotFrame(q, q', id, s);
    assert Full(q', s) == Full(q, s) by {
      assert SlotOk(q, s);
    }
    RingSame(q, q');
  }

  lemma FinishStep(q: Queue, q': Queue, id: nat)
    requires PairInv(q) && id in q.threads && q' == Step(q, id) && (q.threads[id].EPublish? || q.threads[id].DRelease?)
    ensures Ring(q')
  {
    var s := Pos(q, q.threads[id].ticket);
    assert PcOk(q, id, q.threads[id]);
    SlotFrame(q, q', id, s);
    RingSame(q, q');
  }

  lemma ReaderStep(q: Queue, q': Queue, id: nat)
    requires PairInv(q) && id in q.threads && Moved(q, q', id, q.size) && Reading(q.threads[id])
    requires q'.stored == q.stored && q'.handed == q.handed
    ensures Ring(q')
  {
    SlotFrame(q, q', id, q.size);
    RingSame(q, q');
  }

  /** The counters are exact, the memory of the moving thread is sound, and no counter is about to wrap. */
  predicate Tracked(q: Queue, id: nat) {
    && Shape(q) && Counters(q) && Pair(q) && Exact(q) && q.reserved < WRAP
    && id in q.threads && PcOk(q, id, q.threads[id])
  }

  lemma ProducerReads(q: Queue)
    requires Tracked(q, PRODUCER) && Reading(q.threads[PRODUCER]) && Step(q, PRODUCER).reserved < WRAP
    ensures Pair(Step(q, PRODUCER)) && Exact(Step(q, PRODUCER))
  {
  }

  lemma ProducerWorks(q: Queue)
    requires Tracked(q, PRODUCER) && !Reading(q.threads[PRODUCER])
    ensures Pair(Step(q, PRODUCER)) && Exact(Step(q, PRODUCER))
  {
  }

  lemma ProducerExact(q: Queue)
    requires Tracked(q, PRODUCER) && Step(q, PRODUCER).reserved < WRAP
    ensures Pair(Step(q, PRODUCER)) && Exact(Step(q, PRODUCER))
  {
    if Reading(q.threads[PRODUCER]) {
      ProducerReads(q);
    } else {
      ProducerWorks(q);
    }
  }

  lemma ConsumerReads(q: Queue)
    requires Tracked(q, CONSUMER) && Reading(q.threads[CONSUMER])
    ensures Pair(Step(q, CONSUMER)) && Exact(Step(q, CONSUMER))
  {
  }

  lemma ConsumerWorks(q: Queue)
    requires Tracked(q, CONSUMER) && !Reading(q.threads[CONSUMER])
    ensures Pair(Step(q, CONSUMER)) && Exact(Step(q, CONSUMER))
  {
  }

  lemma ConsumerExact(q: Queue)
    requires Tracked(q, CONSUMER)
    ensures Pair(Step(q, CONSUMER)) && Exact(Step(q, CONSUMER))
  {
    if Reading(q.threads[CONSUMER]) {
      ConsumerReads(q);
    } else {
      ConsumerWorks(q);
    }
  }

  lemma StartExact(q: Queue, a: Action)
    requires Shape(q) && Pair(q) && Exact(q) && PairAction(a) && Enabled(q, a) && !a.Tick?
    ensures Pair(Next(q, a)) && Exact(Next(q, a))
  {
  }

  lemma PairRing(q: Queue, q': Queue, a: Action)
    requires PairInv(q) && PairAction(a) && Enabled(q, a) && q' == Next(q, a) && q'.reserved < WRAP && Inv(q')
    ensures Ring(q')
  {
    if Reading(q.threads[a.t]) {
      MovesAlone(q, a);
      ReaderStep(q, q', a.t);
    } else if q.threads[a.t].EStore? {
      StoreStep(q, q', a.t);
    } else if q.threads[a.t].DTake? {
      TakeStep(q, q', a.t);
    } else if q.threads[a.t].EClaim? || q.threads[a.t].DClaim? {
      ClaimStep(q, q', a.t);
    } else {
      FinishStep(q, q', a.t);
    }
  }

  /** A reading thread changes at most a counter. */
  lemma MovesAlone(q: Queue, a: Action)
    requires Inv(q) && Enabled(q, a) && Reading(q.threads[a.t]) && q.reserved < WRAP && Next(q, a).reserved < WRAP
    ensures Moved(q, Next(q, a), a.t, q.size) && Next(q, a).stored == q.stored && Next(q, a).handed == q.handed
  {
    assert PcOk(q, a.t, q.threads[a.t]);
    if a.Tick? {
      StepAlone(q, a.t);
    }
  }

  lemma StepAlone(q: Queue, id: nat)
    requires Shape(q) && Counters(q) && id in q.threads && PcOk(q, id, q.threads[id]) && Reading(q.threads[id])
    requires q.reserved < WRAP && Step(q, id).reserved < WRAP
    ensures Moved(q, Step(q, id), id, q.size) && Step(q, id).stored == q.stored && Step(q, id).handed == q.handed
  {
    if q.threads[id].EDecide? {
      DecideAlone(q, id);
    }
  }

  lemma DecideAlone(q: Queue, id: nat)
    requires Shape(q) && Counters(q) && id in q.threads && PcOk(q, id, q.threads[id]) && q.threads[id].EDecide?
    requires q.reserved < WRAP && Step(q, id).reserved < WRAP
    ensures Moved(q, Step(q, id), id, q.size) && Step(q, id).stored == q.stored && Step(q, id).handed == q.handed
  {
  }

  lemma PairStep(q: Queue, a: Action)
    requires PairInv(q) && PairAction(a) && Enabled(q, a) && q.reserved < WRAP && Next(q, a).reserved < WRAP
    ensures PairInv(Next(q, a))
  {
    NextInv(q, a);
    PairRing(q, Next(q, a), a);
    assert PcOk(q, a.t, q.threads[a.t]);
    if a.Tick? && a.t == PRODUCER {
      ProducerExact(q);
    } else if a.Tick? && a.t == CONSUMER {
      ConsumerExact(q);
    } else if !a.Tick? {
      StartExact(q, a);
    }
  }

  ghost predicate PairRun(q: Queue, acts: seq<Action>, q': Queue) {
    Run(q, acts, q') && forall i :: 0 <= i < |acts| ==> PairAction(acts[i])
  }

  // ---------------------------------------------------------------- the queue it implements

  /** Every value a ticket was reserved for, in ticket order. */
  function Enqueued(q: Queue): seq<Value>
    requires Pair(q)
  {
    var p := q.threads[PRODUCER];
    q.stored + if Unwritten(p) then [p.val] else []
  }

  /** The abstract contents: values reserved by the producer and not yet by the consumer. */
  function Contents(q: Queue): seq<Value>
    requires Pair(q) && Exact(q) && q.tail <= q.head
  {
    Enqueued(q)[q.tail..]
  }

  /**
   * Refinement: a step of the implementation enqueues at the back of a queue that has room, dequeues at
   * the front of one that is not empty, or leaves the contents alone.
   */
  lemma RefinesFifo(q: Queue, a: Action)
    requires PairInv(q) && PairAction(a) && Enabled(q, a) && q.reserved < WRAP && Next(q, a).reserved < WRAP
    ensures PairInv(Next(q, a)) && Enqueued(q) <= Enqueued(Next(q, a))
    ensures Refined(q, Next(q, a))
  {
    PairStep(q, a);
    assert PcOk(q, a.t, q.threads[a.t]);
    if a.Tick? && a.t == PRODUCER {
      ProducerRefines(q);
    } else if a.Tick? && a.t == CONSUMER {
      ConsumerRefines(q);
    }
  }

  /** The consumer receives the value that was at the front when it reserved its ticket. */
  lemma ReceivesItsTicket(q: Queue)
    requires PairInv(q) && q.threads[CONSUMER].DRelease?
    ensures var c := q.threads[CONSUMER];
            c.ticket < |Enqueued(q)| && c.val == Enqueued(q)[c.ticket]
  {
    assert PcOk(q, CONSUMER, q.threads[CONSUMER]);
  }

  ghost predicate Refined(q: Queue, q': Queue)
    requires Pair(q) && Exact(q) && q.tail <= q.head && Pair(q') && Exact(q') && q'.tail <= q'.head
  {
    if q'.head != q.head then
      && q.threads[PRODUCER].EDecide? && |Contents(q)| < q.size
      && Contents(q') == Contents(q) + [q.threads[PRODUCER].val]
    else if q'.tail != q.tail then
      Contents(q) != [] && Contents(q') == Contents(q)[1..] && q'.threads[CONSUMER] == DClaim(q.tail)
    else Contents(q') == Contents(q)
  }

  lemma ProducerRefines(q: Queue)
    requires Tracked(q, PRODUCER) && Step(q, PRODUCER).reserved < WRAP && Counters(Step(q, PRODUCER))
    ensures var q' := Step(q, PRODUCER);
            Pair(q') && Exact(q') && Enqueued(q) <= Enqueued(q') && Refined(q, q')
  {
    ProducerExact(q);
  }

  lemma ConsumerRefines(q: Queue)
    requires Tracked(q, CONSUMER) && Counters(Step(q, CONSUMER))
    ensures var q' := Step(q, CONSUMER);
            Pair(q') && Exact(q') && Enqueued(q) <= Enqueued(q') && Refined(q, q')
  {
    ConsumerExact(q);
  }

  /** "Full" and "empty" are answered only when the queue was full, or empty, at the read that matters. */
  lemma AnswersAreTrue(q: Queue)
    requires PairInv(q)
    ensures var p := q.threads[PRODUCER];
            p.EDecide? && Step(q, PRODUCER).threads[PRODUCER] == Idle ==> p.seen - p.t == q.size
    ensures var c := q.threads[CONSUMER];
            c.DDecide? && Step(q, CONSUMER).threads[CONSUMER] == Idle ==> c.h - c.seen == 0
  {
    var p, c := q.threads[PRODUCER], q.threads[CONSUMER];
    if p.EDecide? && Step(q, PRODUCER).threads[PRODUCER] == Idle {
      FullIsTrue(q, PRODUCER);
    }
    if c.DDecide? && Step(q, CONSUMER).threads[CONSUMER] == Idle {
      EmptyIsNearlyTrue(q, CONSUMER);
    }
  }

  /** First in, first out over whole runs: what was handed out is an initial part of what was put in. */
  lemma {:induction false} FifoRun(q: Queue, acts: seq<Action>, q': Queue)
    requires PairInv(q) && PairRun(q, acts, q')
    ensures PairInv(q') && Enqueued(q) <= Enqueued(q')
    ensures q'.handed <= Enqueued(q')
    decreases |acts|
  {
    if acts != [] {
      assert Run(Next(q, acts[0]), acts[1..], q');
      RefinesFifo(q, acts[0]);
      FifoRun(Next(q, acts[0]), acts[1..], q');
    }
  }

  /** The same from an empty queue: in every run of one producer and one consumer values come out in the order they went in. */
  lemma FifoFromStart(q: Queue, acts: seq<Action>, q': Queue)
    requires Init(q) && q.threads.Keys == {PRODUCER, CONSUMER} && PairRun(q, acts, q')
    ensures PairInv(q') && q'.handed <= q'.stored <= Enqueued(q')
    ensures |Contents(q')| <= q'.size && q'.tail <= |Enqueued(q')| && Enqueued(q') == Enqueued(q')[..q'.tail] + Contents(q')
  {
    PairInit(q);
    FifoRun(q, acts, q');
  }
}
