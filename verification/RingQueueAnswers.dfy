/** When a call ends, with what, and what the block flag means. */
module RingQueueAnswers {
  import opened RingQueue
  import opened RingQueueProof

  // ---------------------------------------------------------------- the three ways to go on from the counters read

  /**
   * With its two counters in hand an enqueuer gives up exactly if it must not block and the counters leave no
   * room; takes the ticket it has read exactly if there is room and the head has not moved since; and
   * otherwise starts over with the same value and flag.
   */
  lemma EnqueueDecides(q: Queue, id: nat)
    requires Shape(q) && id in q.threads && q.threads[id].EDecide?
    ensures var pc, q' := q.threads[id], Step(q, id);
            && (q'.threads[id] == Idle <==> !pc.block && pc.h >= pc.t && pc.h - pc.t >= q.size)
            && (q'.threads[id].EClaim? <==> pc.h >= pc.t && pc.h - pc.t < q.size && q.head == pc.h)
            && (q'.threads[id].EClaim? ==> q'.threads[id] == EClaim(pc.val, pc.h) && q'.head == (pc.h + 1) % WRAP && q'.tail == q.tail)
            && (q'.threads[id].EWrap? <==> pc.h < pc.t && q.head == pc.h)
            && (q'.threads[id] != Idle && !q'.threads[id].EClaim? && !q'.threads[id].EWrap? ==>
                  q'.threads[id] == EHead(pc.val, pc.block))
            && (!q'.threads[id].EClaim? && !q'.threads[id].EWrap? ==> q' == q.(threads := q'.threads))
  {
  }

  /** A dequeuer gives up exactly if it must not block and the counters show no element. */
  lemma DequeueDecides(q: Queue, id: nat)
    requires Shape(q) && id in q.threads && q.threads[id].DDecide?
    ensures var pc, q' := q.threads[id], Step(q, id);
            && (q'.threads[id] == Idle <==> !pc.block && pc.h <= pc.t)
            && (q'.threads[id].DClaim? <==> pc.t < pc.h && q.tail == pc.t)
            && (q'.threads[id].DClaim? ==> q'.threads[id] == DClaim(pc.t) && q'.tail == (pc.t + 1) % WRAP && q'.head == q.head)
            && (q'.threads[id] != Idle && !q'.threads[id].DClaim? ==> q'.threads[id] == DHead(pc.block))
            && (!q'.threads[id].DClaim? ==> q' == q.(threads := q'.threads))
  {
  }

  // ---------------------------------------------------------------- what a call achieves

  /** The values this thread stores or takes in a run. */
  function Moves(q: Queue, acts: seq<Action>, q': Queue, id: nat): seq<Value>
    requires Run(q, acts, q')
    decreases |acts|
  {
    if acts == [] then [] else Move(q, acts[0], id) + Moves(Next(q, acts[0]), acts[1..], q', id)
  }

  function Move(q: Queue, a: Action, id: nat): seq<Value>
    requires Shape(q) && Enabled(q, a)
  {
    if a == Tick(id) && q.threads[id].EStore? then [q.threads[id].val]
    else if a == Tick(id) && q.threads[id].DTake? then [q.slots[Pos(q, q.threads[id].ticket)].data]
    else []
  }

  /** How far a call is that began as an enqueue of `val` with this flag, given what it has moved so far. */
  predicate Enqueuing(pc: Pc, val: Value, block: bool, moved: seq<Value>) {
    match pc
    case Idle => moved == [val] || (!block && moved == [])
    case EHead(v, b) => v == val && b == block && moved == []
    case ETail(v, b, _) => v == val && b == block && moved == []
    case EDecide(v, b, _, _, _) => v == val && b == block && moved == []
    case EWrap(v, b, _, _) => v == val && b == block && moved == []
    case EClaim(v, _) => v == val && moved == []
    case EStore(v, _) => v == val && moved == []
    case EPublish(_) => moved == [val]
    case _ => false
  }

  predicate Dequeuing(pc: Pc, block: bool, moved: seq<Value>) {
    match pc
    case Idle => |moved| == 1 || (!block && moved == [])
    case DHead(b) => b == block && moved == []
    case DTail(b, _, _) => b == block && moved == []
    case DDecide(b, _, _, _) => b == block && moved == []
    case DClaim(_) => moved == []
    case DTake(_) => moved == []
    case DRelease(_, v) => moved == [v]
    case _ => false
  }

  /** No new call of this thread begins. */
  predicate OneCall(acts: seq<Action>, id: nat) {
    forall i :: 0 <= i < |acts| && acts[i].t == id ==> acts[i].Tick?
  }

  lemma OthersAct(q: Queue, a: Action, id: nat)
    requires Shape(q) && Enabled(q, a) && id in q.threads && a.t != id
    ensures id in Next(q, a).threads && Next(q, a).threads[id] == q.threads[id] && Move(q, a, id) == []
  {
  }

  lemma EnqueueMoves(q: Queue, id: nat, val: Value, block: bool, moved: seq<Value>)
    requires Shape(q) && id in q.threads && q.threads[id] != Idle && Enqueuing(q.threads[id], val, block, moved)
    ensures id in Step(q, id).threads && Enqueuing(Step(q, id).threads[id], val, block, moved + Move(q, Tick(id), id))
  {
    assert moved + [] == moved;
  }

  lemma DequeueMoves(q: Queue, id: nat, block: bool, moved: seq<Value>)
    requires Shape(q) && id in q.threads && q.threads[id] != Idle && Dequeuing(q.threads[id], block, moved)
    ensures id in Step(q, id).threads && Dequeuing(Step(q, id).threads[id], block, moved + Move(q, Tick(id), id))
  {
    assert moved + [] == moved;
  }

  lemma {:induction false} EnqueueRuns(q: Queue, acts: seq<Action>, q': Queue, id: nat, val: Value, block: bool, moved: seq<Value>)
    requires Run(q, acts, q') && OneCall(acts, id) && id in q.threads && Enqueuing(q.threads[id], val, block, moved)
    ensures id in q'.threads && Enqueuing(q'.threads[id], val, block, moved + Moves(q, acts, q', id))
    decreases |acts|
  {
    if acts == [] {
      assert moved + [] == moved;
    } else {
      var next, step := Next(q, acts[0]), Move(q, acts[0], id);
      assert Run(next, acts[1..], q');
      if acts[0].t == id {
        EnqueueMoves(q, id, val, block, moved);
      } else {
        OthersAct(q, acts[0], id);
        assert moved + [] == moved;
      }
      EnqueueRuns(next, acts[1..], q', id, val, block, moved + step);
      assert moved + step + Moves(next, acts[1..], q', id) == moved + Moves(q, acts, q', id);
    }
  }

  lemma {:induction false} DequeueRuns(q: Queue, acts: seq<Action>, q': Queue, id: nat, block: bool, moved: seq<Value>)
    requires Run(q, acts, q') && OneCall(acts, id) && id in q.threads && Dequeuing(q.threads[id], block, moved)
    ensures id in q'.threads && Dequeuing(q'.threads[id], block, moved + Moves(q, acts, q', id))
    decreases |acts|
  {
    if acts == [] {
      assert moved + [] == moved;
    } else {
      var next, step := Next(q, acts[0]), Move(q, acts[0], id);
      assert Run(next, acts[1..], q');
      if acts[0].t == id {
        DequeueMoves(q, id, block, moved);
      } else {
        OthersAct(q, acts[0], id);
        assert moved + [] == moved;
      }
      DequeueRuns(next, acts[1..], q', id, block, moved + step);
      assert moved + step + Moves(next, acts[1..], q', id) == moved + Moves(q, acts, q', id);
    }
  }

  /**
   * A call that has ended, whatever else went on: an enqueue that may block has stored its value, once; one
   * that may not has stored it once or not at all. The same for a dequeue and the value it takes.
   */
  lemma CallsDoTheirWork(q: Queue, a: Action, acts: seq<Action>, q': Queue)
    requires Shape(q) && Enabled(q, a) && !a.Tick? && Run(Next(q, a), acts, q') && OneCall(acts, a.t)
    ensures a.t in q'.threads
    ensures q'.threads[a.t] == Idle ==>
              var moved := Moves(Next(q, a), acts, q', a.t);
              match a
              case StartEnqueue(_, val, block) => moved == [val] || (!block && moved == [])
              case StartDequeue(_, block) => |moved| == 1 || (!block && moved == [])
              case Tick(_) => true
  {
    match a {
      case StartEnqueue(t, val, block) =>
        EnqueueRuns(Next(q, a), acts, q', t, val, block, []);
        assert [] + Moves(Next(q, a), acts, q', t) == Moves(Next(q, a), acts, q', t);
      case StartDequeue(t, block) =>
        DequeueRuns(Next(q, a), acts, q', t, block, []);
        assert [] + Moves(Next(q, a), acts, q', t) == Moves(Next(q, a), acts, q', t);
      case Tick(_) =>
    }
  }

  // ---------------------------------------------------------------- calls that run alone

  function Alone(q: Queue, id: nat, n: nat): Queue
    requires Shape(q) && id in q.threads
    decreases n
  {
    if n == 0 then q
    else
      var next := Step(q, id);
      if Shape(next) && id in next.threads then Alone(next, id, n - 1) else next
  }

  /** Three steps of a thread: it reads the head, then the tail, then decides. */
  lemma ThreeSteps(q: Queue, id: nat, a: Queue, b: Queue)
    requires Shape(q) && id in q.threads && a == Step(q, id) && Shape(a) && id in a.threads
    requires b == Step(a, id) && Shape(b) && id in b.threads
    ensures Alone(q, id, 3) == Step(b, id)
  {
    assert Alone(b, id, 1) == Step(b, id);
    assert Alone(a, id, 2) == Alone(b, id, 1);
  }

  /** The queue with thread `id` somewhere else. */
  function At(q: Queue, id: nat, pc: Pc): Queue {
    q.(threads := q.threads[id := pc])
  }

  lemma EnqueuerReads(q: Queue, id: nat)
    requires Shape(q) && id in q.threads && q.threads[id].EHead?
    ensures var pc := q.threads[id];
            && Step(q, id) == At(q, id, ETail(pc.val, pc.block, q.head))
            && Step(Step(q, id), id) == At(q, id, EDecide(pc.val, pc.block, q.head, q.tail, q.head))
  {
    var pc := q.threads[id];
    var a := Step(q, id);
    assert a == At(q, id, ETail(pc.val, pc.block, q.head));
    assert a.threads[id := EDecide(pc.val, pc.block, q.head, q.tail, q.head)] ==
           q.threads[id := EDecide(pc.val, pc.block, q.head, q.tail, q.head)];
  }

  lemma DequeuerReads(q: Queue, id: nat)
    requires Shape(q) && id in q.threads && q.threads[id].DHead?
    ensures var pc := q.threads[id];
            && Step(q, id) == At(q, id, DTail(pc.block, q.head, q.tail))
            && Step(Step(q, id), id) == At(q, id, DDecide(pc.block, q.head, q.tail, q.tail))
  {
    var pc := q.threads[id];
    var a := Step(q, id);
    assert a == At(q, id, DTail(pc.block, q.head, q.tail));
    assert a.threads[id := DDecide(pc.block, q.head, q.tail, q.tail)] ==
           q.threads[id := DDecide(pc.block, q.head, q.tail, q.tail)];
  }

  lemma ThreadsTwice(threads: map<nat, Pc>, id: nat, a: Pc, b: Pc)
    ensures threads[id := a][id := b] == threads[id := b]
    ensures id in threads && threads[id] == b ==> threads[id := a][id := b] == threads
  {
  }

  lemma EnqueueEnds(q: Queue, id: nat)
    requires Shape(q) && Counters(q) && q.reserved + 1 < WRAP && id in q.threads && q.threads[id].EHead?
    ensures var pc := q.threads[id];
            Step(At(q, id, EDecide(pc.val, pc.block, q.head, q.tail, q.head)), id) ==
            if q.head - q.tail == q.size then if pc.block then q else At(q, id, Idle)
            else At(q, id, EClaim(pc.val, q.head)).(head := q.head + 1, reserved := q.reserved + 1)
  {
    var pc := q.threads[id];
    var decide := EDecide(pc.val, pc.block, q.head, q.tail, q.head);
    ThreadsTwice(q.threads, id, decide, pc);
    ThreadsTwice(q.threads, id, decide, Idle);
    ThreadsTwice(q.threads, id, decide, EClaim(pc.val, q.head));
  }

  lemma DequeueEnds(q: Queue, id: nat)
    requires Shape(q) && Counters(q) && q.reserved + 1 < WRAP && id in q.threads && q.threads[id].DHead?
    ensures var pc := q.threads[id];
            Step(At(q, id, DDecide(pc.block, q.head, q.tail, q.tail)), id) ==
            if q.head == q.tail then if pc.block then q else At(q, id, Idle)
            else At(q, id, DClaim(q.tail)).(tail := q.tail + 1)
  {
    var pc := q.threads[id];
    var decide := DDecide(pc.block, q.head, q.tail, q.tail);
    ThreadsTwice(q.threads, id, decide, pc);
    ThreadsTwice(q.threads, id, decide, Idle);
    ThreadsTwice(q.threads, id, decide, DClaim(q.tail));
  }

  /**
   * A call from its head read on, with nobody in between. On a full queue an enqueue that may not block has
   * answered "full" after three steps, and one that may is back where it began; otherwise it holds a ticket.
   */
  lemma EnqueueAlone(q: Queue, id: nat)
    requires Inv(q) && q.reserved + 1 < WRAP && id in q.threads && q.threads[id].EHead?
    ensures var pc := q.threads[id];
            Alone(q, id, 3) ==
            if q.head - q.tail == q.size then if pc.block then q else At(q, id, Idle)
            else At(q, id, EClaim(pc.val, q.head)).(head := q.head + 1, reserved := q.reserved + 1)
  {
    EnqueuerReads(q, id);
    EnqueueEnds(q, id);
    ThreeSteps(q, id, Step(q, id), Step(Step(q, id), id));
  }

  /** On an empty queue a dequeue that may not block has answered "empty", and otherwise it holds a ticket. */
  lemma DequeueAlone(q: Queue, id: nat)
    requires Inv(q) && q.reserved + 1 < WRAP && id in q.threads && q.threads[id].DHead?
    ensures var pc := q.threads[id];
            Alone(q, id, 3) ==
            if q.head == q.tail then if pc.block then q else At(q, id, Idle)
            else At(q, id, DClaim(q.tail)).(tail := q.tail + 1)
  {
    DequeuerReads(q, id);
    DequeueEnds(q, id);
    ThreeSteps(q, id, Step(q, id), Step(Step(q, id), id));
  }
}
