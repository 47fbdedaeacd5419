/** Every step of the ring queue keeps its invariant, and what follows for all interleavings. */
module RingQueueProof {
  import opened Modular
  import opened RingQueue

  // ---------------------------------------------------------------- frames

  /** Only thread `id` moved and at most slot `s` changed. */
  ghost predicate Moved(q: Queue, q': Queue, id: nat, s: nat) {
    && Shape(q) && Shape(q') && q'.size == q.size && id in q.threads && q'.threads.Keys == q.threads.Keys
    && (forall t :: t in q.threads && t != id ==> q'.threads[t] == q.threads[t])
    && q.head <= q'.head && q.tail <= q'.tail
    && (forall u :: 0 <= u < q.size && u != s ==>
          q'.slots[u] == q.slots[u] && q'.puts[u] == q.puts[u] && q'.gots[u] == q.gots[u])
  }

  /** The thread is at work inside slot `s`. */
  predicate WorksOn(q: Queue, pc: Pc, s: nat)
    requires Shape(q)
  {
    (pc.EStore? || pc.EPublish? || pc.DTake? || pc.DRelease?) && Pos(q, pc.ticket) == s
  }

  /** Other threads keep what they know, as long as the slot that changed is not theirs. */
  lemma OthersKeep(q: Queue, q': Queue, id: nat, s: nat)
    requires Inv(q) && Moved(q, q', id, s)
    requires s < q.size ==> q.slots[s].owner == id || q.slots[s].flag in {Null, Seted}
    ensures forall t :: t in q.threads && t != id ==> PcOk(q', t, q'.threads[t])
  {
    forall t | t in q.threads && t != id
      ensures PcOk(q', t, q'.threads[t])
    {
      assert PcOk(q, t, q.threads[t]);
    }
  }

  /** Slots other than `s` stay sound when the moving thread works on no other slot. */
  lemma SlotsKeep(q: Queue, q': Queue, id: nat, s: nat)
    requires Inv(q) && Moved(q, q', id, s)
    requires forall u :: 0 <= u < q.size && u != s ==> !WorksOn(q, q.threads[id], u)
    ensures forall u :: 0 <= u < q.size && u != s ==> SlotOk(q', u)
  {
    forall u | 0 <= u < q.size && u != s
      ensures SlotOk(q', u)
    {
      assert SlotOk(q, u) && !WorksOn(q, q.threads[id], u);
    }
  }

  lemma WaitersKeep(q: Queue, q': Queue, id: nat, s: nat, u: nat)
    requires Moved(q, q', id, s)
    requires (q.threads[id].EClaim? || q'.threads[id].EClaim?) ==>
               q.threads[id] == q'.threads[id] || (Waits(q, q.threads[id]) != u && Waits(q, q'.threads[id]) != u)
    requires (q.threads[id].DClaim? || q'.threads[id].DClaim?) ==>
               q.threads[id] == q'.threads[id] || (Waits(q, q.threads[id]) != u && Waits(q, q'.threads[id]) != u)
    ensures EWait(q', u) == EWait(q, u) && DWait(q', u) == DWait(q, u)
  {
  }

  /** The slot a thread waits for, or -1. */
  function Waits(q: Queue, pc: Pc): int
    requires Shape(q)
  {
    if pc.EClaim? || pc.DClaim? then Pos(q, pc.ticket) else -1
  }

  // ---------------------------------------------------------------- the kinds of steps

  /** A thread that only reads counters or gives up changes nothing else. */
  lemma ReadStep(q: Queue, q': Queue, id: nat, pc: Pc)
    requires Inv(q) && id in q.threads && q' == Goto(q, id, pc) && PcOk(q, id, pc)
    requires Reading(pc) && Reading(q.threads[id])
    ensures Inv(q')
  {
    OthersKeep(q, q', id, q.size);
    SlotsKeep(q, q', id, q.size);
    forall u | 0 <= u < q.size
      ensures Balance(q', u)
    {
      assert Balance(q, u);
      WaitersKeep(q, q', id, q.size, u);
    }
  }

  /** Neither waiting for a slot nor at work in one. */
  predicate Reading(pc: Pc) {
    !pc.EClaim? && !pc.DClaim? && !pc.EStore? && !pc.EPublish? && !pc.DTake? && !pc.DRelease?
  }

  lemma EWaitMore(q: Queue, q': Queue, id: nat, s: nat, u: nat)
    requires Moved(q, q', id, s) && Reading(q.threads[id]) && q'.threads[id].EClaim? && Waits(q, q'.threads[id]) == u
    ensures |EWait(q', u)| == |EWait(q, u)| + 1 && DWait(q', u) == DWait(q, u)
  {
    assert EWait(q', u) == EWait(q, u) + {id} && id !in EWait(q, u);
  }

  lemma DWaitMore(q: Queue, q': Queue, id: nat, s: nat, u: nat)
    requires Moved(q, q', id, s) && Reading(q.threads[id]) && q'.threads[id].DClaim? && Waits(q, q'.threads[id]) == u
    ensures |DWait(q', u)| == |DWait(q, u)| + 1 && EWait(q', u) == EWait(q, u)
  {
    assert DWait(q', u) == DWait(q, u) + {id} && id !in DWait(q, u);
  }

  /** A successful reservation hands out the next enqueue ticket. */
  lemma ReserveEnqueue(q: Queue, q': Queue, id: nat, val: Value)
    requires Inv(q) && id in q.threads && q.threads[id].EDecide? && q.head < q.tail + q.size
    requires q' == Goto(q.(head := q.head + 1, reserved := q.reserved + 1), id, EClaim(val, q.head))
    ensures Inv(q')
  {
    OthersKeep(q, q', id, q.size);
    SlotsKeep(q, q', id, q.size);
    forall u | 0 <= u < q.size
      ensures Balance(q', u)
    {
      assert Balance(q, u);
      if Waits(q, q'.threads[id]) == u {
        EWaitMore(q, q', id, q.size, u);
      } else {
        WaitersKeep(q, q', id, q.size, u);
      }
    }
  }

  lemma ReserveDequeue(q: Queue, q': Queue, id: nat)
    requires Inv(q) && id in q.threads && q.threads[id].DDecide? && q.tail < q.head
    requires q' == Goto(q.(tail := q.tail + 1), id, DClaim(q.tail))
    ensures Inv(q')
  {
    OthersKeep(q, q', id, q.size);
    SlotsKeep(q, q', id, q.size);
    forall u | 0 <= u < q.size
      ensures Balance(q', u)
    {
      assert Balance(q, u);
      if Waits(q, q'.threads[id]) == u {
        DWaitMore(q, q', id, q.size, u);
      } else {
        WaitersKeep(q, q', id, q.size, u);
      }
    }
  }

  /** A thread moved inside the one slot it is concerned with: the parts make up the invariant. */
  lemma Settled(q: Queue, q': Queue, id: nat, s: nat)
    requires Inv(q) && Moved(q, q', id, s) && s < q.size && Counters(q')
    requires q.slots[s].owner == id || q.slots[s].flag in {Null, Seted}
    requires forall u :: 0 <= u < q.size && u != s ==> !WorksOn(q, q.threads[id], u)
    requires PcOk(q', id, q'.threads[id]) && SlotOk(q', s)
    requires forall u :: 0 <= u < q.size ==> Balance(q', u)
    ensures Inv(q')
  {
    OthersKeep(q, q', id, s);
    SlotsKeep(q, q', id, s);
  }

  lemma EWaitLess(q: Queue, q': Queue, id: nat, s: nat)
    requires Moved(q, q', id, s) && q.threads[id].EClaim? && Waits(q, q.threads[id]) == s && Waits(q, q'.threads[id]) == -1
    ensures |EWait(q, s)| == |EWait(q', s)| + 1 && DWait(q', s) == DWait(q, s)
  {
    assert EWait(q, s) == EWait(q', s) + {id} && id !in EWait(q', s);
  }

  lemma DWaitLess(q: Queue, q': Queue, id: nat, s: nat)
    requires Moved(q, q', id, s) && q.threads[id].DClaim? && Waits(q, q.threads[id]) == s && Waits(q, q'.threads[id]) == -1
    ensures |DWait(q, s)| == |DWait(q', s)| + 1 && EWait(q', s) == EWait(q, s)
  {
    assert DWait(q, s) == DWait(q', s) + {id} && id !in DWait(q', s);
  }

  /** A slot taken from one waiter is balanced again; the others were not touched. */
  lemma BalancedClaim(q: Queue, q': Queue, id: nat, s: nat)
    requires Inv(q) && Moved(q, q', id, s) && s < q.size && q'.head == q.head && q'.tail == q.tail
    requires Waits(q, q.threads[id]) == s && Waits(q, q'.threads[id]) == -1
    requires Busy(q'.slots[s]) == q.threads[id].EClaim? && Busy(q.slots[s]) == q.threads[id].DClaim?
    ensures forall u :: 0 <= u < q.size ==> Balance(q', u)
  {
    forall u | 0 <= u < q.size
      ensures Balance(q', u)
    {
      assert Balance(q, u);
      if u != s {
        WaitersKeep(q, q', id, s, u);
      } else if q.threads[id].EClaim? {
        EWaitLess(q, q', id, s);
      } else {
        DWaitLess(q, q', id, s);
      }
    }
  }

  lemma BalancedWork(q: Queue, q': Queue, id: nat, s: nat)
    requires Inv(q) && Moved(q, q', id, s) && s < q.size && q'.head == q.head && q'.tail == q.tail
    requires Waits(q, q.threads[id]) == Waits(q, q'.threads[id]) == -1 && Busy(q'.slots[s]) == Busy(q.slots[s])
    ensures forall u :: 0 <= u < q.size ==> Balance(q', u)
  {
    forall u | 0 <= u < q.size
      ensures Balance(q', u)
    {
      assert Balance(q, u);
      WaitersKeep(q, q', id, s, u);
    }
  }

  /** Taking a slot by compare-and-swap turns a waiter into its owner. */
  lemma ClaimSet(q: Queue, q': Queue, id: nat, val: Value, k: nat)
    requires Inv(q) && id in q.threads && q.threads[id] == EClaim(val, k) && q.slots[Pos(q, k)].flag == Null
    requires q' == Goto(Mark(q, Pos(q, k), SetTook, id), id, EStore(val, k))
    ensures Inv(q')
  {
    assert PcOk(q, id, q.threads[id]) && SlotOk(q, Pos(q, k));
    BalancedClaim(q, q', id, Pos(q, k));
    Settled(q, q', id, Pos(q, k));
  }

  lemma ClaimGet(q: Queue, q': Queue, id: nat, k: nat)
    requires Inv(q) && id in q.threads && q.threads[id] == DClaim(k) && q.slots[Pos(q, k)].flag == Seted
    requires q' == Goto(Mark(q, Pos(q, k), GetTook, id), id, DTake(k))
    ensures Inv(q')
  {
    assert PcOk(q, id, q.threads[id]) && SlotOk(q, Pos(q, k));
    BalancedClaim(q, q', id, Pos(q, k));
    Settled(q, q', id, Pos(q, k));
  }

  /** The owner writes its value into the slot. */
  lemma Stores(q: Queue, q': Queue, id: nat, val: Value, k: nat)
    requires Inv(q) && id in q.threads && q.threads[id] == EStore(val, k) && q' == Step(q, id)
    ensures Inv(q')
  {
    assert PcOk(q, id, q.threads[id]) && SlotOk(q, Pos(q, k));
    BalancedWork(q, q', id, Pos(q, k));
    Settled(q, q', id, Pos(q, k));
  }

  lemma Publishes(q: Queue, q': Queue, id: nat, k: nat)
    requires Inv(q) && id in q.threads && q.threads[id] == EPublish(k)
    requires q' == Goto(Mark(q, Pos(q, k), Seted, NOBODY), id, Idle)
    ensures Inv(q')
  {
    assert PcOk(q, id, q.threads[id]) && SlotOk(q, Pos(q, k));
    BalancedWork(q, q', id, Pos(q, k));
    Settled(q, q', id, Pos(q, k));
  }

  /** The owner takes the value out of the slot. */
  lemma Takes(q: Queue, q': Queue, id: nat, k: nat)
    requires Inv(q) && id in q.threads && q.threads[id] == DTake(k) && q' == Step(q, id)
    ensures Inv(q')
  {
    assert PcOk(q, id, q.threads[id]) && SlotOk(q, Pos(q, k));
    BalancedWork(q, q', id, Pos(q, k));
    Settled(q, q', id, Pos(q, k));
  }

  lemma Releases(q: Queue, q': Queue, id: nat, k: nat, val: Value)
    requires Inv(q) && id in q.threads && q.threads[id] == DRelease(k, val)
    requires q' == Goto(Mark(q, Pos(q, k), Null, NOBODY), id, Idle)
    ensures Inv(q')
  {
    assert PcOk(q, id, q.threads[id]) && SlotOk(q, Pos(q, k));
    BalancedWork(q, q', id, Pos(q, k));
    Settled(q, q', id, Pos(q, k));
  }

  /**
   * The branch for a wrapped counter is only entered from stale reads, and then its compare-and-swap
   * cannot succeed.
   */
  lemma WrapCasFails(q: Queue, id: nat)
    requires Inv(q) && id in q.threads && q.threads[id].EDecide? && q.threads[id].h < q.threads[id].t
    ensures q.head != q.threads[id].h && Step(q, id) == Goto(q, id, EHead(q.threads[id].val, q.threads[id].block))
  {
    assert PcOk(q, id, q.threads[id]);
  }

  lemma DecideEnqueueStep(q: Queue, q': Queue, id: nat)
    requires Inv(q) && id in q.threads && q.threads[id].EDecide?
    requires q' == DecideEnqueue(q, id, q.threads[id]) && q'.reserved < WRAP
    ensures Inv(q')
  {
    var pc := q.threads[id];
    assert PcOk(q, id, pc);
    if q'.reserved > q.reserved {
      ReserveEnqueue(q, q', id, pc.val);
    } else {
      ReadStep(q, q', id, q'.threads[id]);
    }
  }

  lemma DecideDequeueStep(q: Queue, q': Queue, id: nat)
    requires Inv(q) && id in q.threads && q.threads[id].DDecide? && q.reserved < WRAP
    requires q' == DecideDequeue(q, id, q.threads[id])
    ensures Inv(q')
  {
    var pc := q.threads[id];
    assert PcOk(q, id, pc);
    if pc.t < pc.h && q.tail == pc.t {
      ReserveDequeue(q, q', id);
    } else {
      ReadStep(q, q', id, q'.threads[id]);
    }
  }

  lemma StepKeeps(q: Queue, q': Queue, id: nat)
    requires Inv(q) && id in q.threads && q' == Step(q, id) && q.reserved < WRAP && q'.reserved < WRAP
    ensures Inv(q')
  {
    assert PcOk(q, id, q.threads[id]);
    match q.threads[id] {
      case EDecide(_, _, _, _, _) => DecideEnqueueStep(q, q', id);
      case DDecide(_, _, _, _) => DecideDequeueStep(q, q', id);
      case EStore(val, k) => Stores(q, q', id, val, k);
      case EPublish(k) => Publishes(q, q', id, k);
      case DTake(k) => Takes(q, q', id, k);
      case DRelease(k, val) => Releases(q, q', id, k, val);
      case EClaim(val, k) =>
        if q.slots[Pos(q, k)].flag == Null {
          ClaimSet(q, q', id, val, k);
        }
      case DClaim(k) =>
        if q.slots[Pos(q, k)].flag == Seted {
          ClaimGet(q, q', id, k);
        }
      case EHead(val, block) => ReadStep(q, q', id, ETail(val, block, q.head));
      case ETail(val, block, h) => ReadStep(q, q', id, EDecide(val, block, h, q.tail, q.head));
      case DHead(block) => ReadStep(q, q', id, DTail(block, q.head, q.tail));
      case DTail(block, h, seen) => ReadStep(q, q', id, DDecide(block, h, q.tail, seen));
      case Idle =>
      case EWrap(_, _, _, _) =>
    }
  }

  // ---------------------------------------------------------------- tickets per slot

  ghost predicate Hit(t: nat, h: nat, size: nat, s: nat)
    requires size > 0
  {
    exists k :: t <= k < h && k % size == s
  }

  /** In a window no longer than the ring, a slot has one outstanding ticket or none. */
  lemma {:induction false} WindowCount(t: nat, h: nat, size: nat, s: nat)
    requires 0 < size && t <= h <= t + size
    ensures Tickets(h, size, s) == Tickets(t, size, s) + if Hit(t, h, size, s) then 1 else 0
    decreases h
  {
    if t < h {
      WindowCount(t, h - 1, size, s);
      if (h - 1) % size == s && Hit(t, h - 1, size, s) {
        var k :| t <= k < h - 1 && k % size == s;
        SameSlotApart(k, h - 1, size);
      }
      if Hit(t, h - 1, size, s) {
        var k :| t <= k < h - 1 && k % size == s;
        assert t <= k < h && k % size == s;
      } else if (h - 1) % size == s {
        assert t <= h - 1 < h && (h - 1) % size == s;
      }
    }
  }

  // ---------------------------------------------------------------- runs

  lemma InitInv(q: Queue)
    requires Init(q)
    ensures Inv(q)
  {
    forall s | 0 <= s < q.size
      ensures Balance(q, s)
    {
      assert EWait(q, s) == {} && DWait(q, s) == {};
    }
  }

  lemma NextInv(q: Queue, a: Action)
    requires Inv(q) && Enabled(q, a) && q.reserved < WRAP && Next(q, a).reserved < WRAP
    ensures Inv(Next(q, a))
  {
    match a {
      case StartEnqueue(t, val, block) => ReadStep(q, Next(q, a), t, EHead(val, block));
      case StartDequeue(t, block) => ReadStep(q, Next(q, a), t, DHead(block));
      case Tick(t) => StepKeeps(q, Next(q, a), t);
    }
  }

  /** Under every interleaving: bounded counters, one owner per taken slot, per-slot conservation of values. */
  lemma {:induction false} RunInv(q: Queue, acts: seq<Action>, q': Queue)
    requires Inv(q) && Run(q, acts, q')
    ensures Inv(q')
    decreases |acts|
  {
    if acts != [] {
      assert Run(Next(q, acts[0]), acts[1..], q');
      NextInv(q, acts[0]);
      RunInv(Next(q, acts[0]), acts[1..], q');
    }
  }

  /** A slot that is being filled or emptied belongs to exactly one thread. */
  lemma OneOwner(q: Queue, s: nat, t: nat, u: nat)
    requires Inv(q) && s < q.size && t in q.threads && u in q.threads
    requires WorksOn(q, q.threads[t], s) && WorksOn(q, q.threads[u], s)
    ensures t == u && q.slots[s].flag in {SetTook, GetTook}
  {
    assert PcOk(q, t, q.threads[t]) && PcOk(q, u, q.threads[u]);
  }

  lemma OwnerExists(q: Queue, s: nat)
    requires Inv(q) && s < q.size && q.slots[s].flag in {SetTook, GetTook}
    ensures exists t :: t in q.threads && WorksOn(q, q.threads[t], s)
  {
    assert SlotOk(q, s);
    assert WorksOn(q, q.threads[q.slots[s].owner], s);
  }

  /** Nothing is lost or duplicated: what was taken from a slot is, in order, what was put there, but for at most one value. */
  lemma SlotConserves(q: Queue, s: nat)
    requires Inv(q) && s < q.size
    ensures q.gots[s] <= q.puts[s] && |q.puts[s]| - |q.gots[s]| <= 1
    ensures |q.puts[s]| - |q.gots[s]| == 1 <==> Full(q, s)
    ensures Full(q, s) ==> q.puts[s] == q.gots[s] + [q.slots[s].data]
  {
    assert SlotOk(q, s);
  }

  // ---------------------------------------------------------------- no stuck state

  /** The step of this thread changes something. */
  predicate CanMove(q: Queue, t: nat)
    requires Shape(q) && t in q.threads
  {
    Step(q, t) != q
  }

  /** A dequeuer facing an empty slot has an enqueuer on its way to that slot. */
  lemma DequeuerIsServed(q: Queue, t: nat) returns (u: nat)
    requires Inv(q) && t in q.threads && q.threads[t].DClaim? && q.slots[Pos(q, q.threads[t].ticket)].flag == Null
    ensures u in q.threads && q.threads[u].EClaim? && Pos(q, q.threads[u].ticket) == Pos(q, q.threads[t].ticket) && CanMove(q, u)
  {
    var s := Pos(q, q.threads[t].ticket);
    assert Balance(q, s);
    WindowCount(q.tail, q.head, q.size, s);
    assert t in DWait(q, s);
    assert EWait(q, s) != {};
    u :| u in EWait(q, s);
    assert Step(q, u).threads[u].EStore?;
  }

  /** An enqueuer facing a full slot has a dequeuer on its way to that slot. */
  lemma EnqueuerIsServed(q: Queue, t: nat) returns (u: nat)
    requires Inv(q) && t in q.threads && q.threads[t].EClaim? && q.slots[Pos(q, q.threads[t].ticket)].flag == Seted
    ensures u in q.threads && q.threads[u].DClaim? && Pos(q, q.threads[u].ticket) == Pos(q, q.threads[t].ticket) && CanMove(q, u)
  {
    var s := Pos(q, q.threads[t].ticket);
    assert Balance(q, s);
    WindowCount(q.tail, q.head, q.size, s);
    assert t in EWait(q, s);
    assert DWait(q, s) != {};
    u :| u in DWait(q, s);
    assert Step(q, u).threads[u].DTake?;
  }

  /** Whoever waits for a slot, somebody concerned with that slot can move: no set of waiters is ever stuck. */
  lemma NeverStuck(q: Queue, t: nat) returns (u: nat)
    requires Inv(q) && t in q.threads && (q.threads[t].EClaim? || q.threads[t].DClaim?)
    ensures u in q.threads && CanMove(q, u)
    ensures var s := Pos(q, q.threads[t].ticket); Waits(q, q.threads[u]) == s || WorksOn(q, q.threads[u], s)
  {
    var s := Pos(q, q.threads[t].ticket);
    if q.slots[s].flag in {SetTook, GetTook} {
      assert SlotOk(q, s);
      u := q.slots[s].owner;
      assert Step(q, u).threads[u] != q.threads[u];
    } else if q.threads[t].DClaim? && q.slots[s].flag == Null {
      u := DequeuerIsServed(q, t);
    } else if q.threads[t].EClaim? && q.slots[s].flag == Seted {
      u := EnqueuerIsServed(q, t);
    } else {
      u := t;
      assert Step(q, u).threads[u] != q.threads[u];
    }
  }

  /** When nobody waits for or works in a slot, it is full exactly if a ticket between tail and head falls on it. */
  lemma QuietSlot(q: Queue, s: nat)
    requires Inv(q) && s < q.size
    requires forall t :: t in q.threads ==> Reading(q.threads[t])
    ensures q.slots[s].flag == (if Hit(q.tail, q.head, q.size, s) then Seted else Null)
    ensures q.puts[s] == q.gots[s] + if Hit(q.tail, q.head, q.size, s) then [q.slots[s].data] else []
  {
    assert SlotOk(q, s) && Balance(q, s);
    assert EWait(q, s) == {} && DWait(q, s) == {};
    WindowCount(q.tail, q.head, q.size, s);
  }

  // ---------------------------------------------------------------- full and empty answers

  /** An enqueue that answers "full" saw a full queue when it read the tail. */
  lemma FullIsTrue(q: Queue, id: nat)
    requires Inv(q) && id in q.threads && q.threads[id].EDecide? && Step(q, id).threads[id] == Idle
    ensures q.threads[id].seen - q.threads[id].t == q.size
  {
    assert PcOk(q, id, q.threads[id]);
  }

  /**
   * A dequeue that answers "empty" saw, when it read the head, at most as many elements as other
   * dequeuers reserved before it read the tail; with nobody in between the queue was empty.
   */
  lemma EmptyIsNearlyTrue(q: Queue, id: nat)
    requires Inv(q) && id in q.threads && q.threads[id].DDecide? && Step(q, id).threads[id] == Idle
    ensures var pc := q.threads[id];
            && 0 <= pc.h - pc.seen <= pc.t - pc.seen
            && (pc.t == pc.seen ==> pc.h == pc.seen)
  {
    assert PcOk(q, id, q.threads[id]);
  }
}
