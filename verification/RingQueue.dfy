/**
 * The lock-free ring queue (util/queue.h) as interleaved steps of any number of threads: every shared
 * read, write and compare-and-swap is one step.
 */
module RingQueue {

  type Value = int

  /** Counters are 64-bit words. */
  const WRAP: nat := 0x1_0000_0000_0000_0000

  datatype Flag = Null | SetTook | Seted | GetTook

  /** A ring slot; `owner` is the thread that took it, kept for the proofs only. */
  datatype Slot = Slot(flag: Flag, data: Value, owner: int)

  const NOBODY: int := -1

  /**
   * Where a thread is. After a decision point the counters it has read are remembered; `seen` is the
   * other counter's value at the moment of the read, kept for the proofs only.
   */
  datatype Pc =
    | Idle
    | EHead(val: Value, block: bool)
    | ETail(val: Value, block: bool, h: nat)
    | EDecide(val: Value, block: bool, h: nat, t: nat, seen: nat)
    | EWrap(val: Value, block: bool, t: nat, newTail: nat)
    | EClaim(val: Value, ticket: nat)
    | EStore(val: Value, ticket: nat)
    | EPublish(ticket: nat)
    | DHead(block: bool)
    | DTail(block: bool, h: nat, seen: nat)
    | DDecide(block: bool, h: nat, t: nat, seen: nat)
    | DClaim(ticket: nat)
    | DTake(ticket: nat)
    | DRelease(ticket: nat, val: Value)

  /** `puts` and `gots` list, slot by slot, the values written and taken; `stored` and `handed` list them overall. */
  datatype Queue = Queue(
    size: nat,
    head: nat,
    tail: nat,
    slots: seq<Slot>,
    threads: map<nat, Pc>,
    reserved: nat,
    puts: seq<seq<Value>>,
    gots: seq<seq<Value>>,
    stored: seq<Value>,
    handed: seq<Value>)

  datatype Action =
    | StartEnqueue(t: nat, val: Value, block: bool)
    | StartDequeue(t: nat, block: bool)
    | Tick(t: nat)

  predicate Shape(q: Queue) {
    q.size > 0 && |q.slots| == |q.puts| == |q.gots| == q.size
  }

  predicate Init(q: Queue) {
    && Shape(q) && q.head == q.tail == q.reserved == 0 && q.stored == q.handed == []
    && (forall s :: 0 <= s < q.size ==> q.slots[s] == Slot(Null, 0, NOBODY) && q.puts[s] == [] && q.gots[s] == [])
    && (forall t :: t in q.threads ==> q.threads[t] == Idle)
  }

  predicate Enabled(q: Queue, a: Action) {
    a.t in q.threads && (a.Tick? <==> q.threads[a.t] != Idle)
  }

  function Goto(q: Queue, t: nat, pc: Pc): Queue {
    q.(threads := q.threads[t := pc])
  }

  /** The slot of a ticket. */
  function Pos(q: Queue, ticket: nat): nat
    requires Shape(q)
  {
    ticket % q.size
  }

  function Mark(q: Queue, s: nat, flag: Flag, owner: int): Queue
    requires Shape(q) && s < q.size
  {
    q.(slots := q.slots[s := q.slots[s].(flag := flag, owner := owner)])
  }

  /** Deciding on a reservation for an enqueue, with the counters read earlier. */
  function DecideEnqueue(q: Queue, id: nat, pc: Pc): Queue
    requires Shape(q) && pc.EDecide?
  {
    var h, t := pc.h, pc.t;
    if h >= t then
      if q.size > h - t then
        if q.head == h then Goto(q.(head := (h + 1) % WRAP, reserved := q.reserved + 1), id, EClaim(pc.val, h))
        else Goto(q, id, EHead(pc.val, pc.block))
      else Goto(q, id, if pc.block then EHead(pc.val, pc.block) else Idle)
    else
      var newTail := t % q.size;
      var newHead := (WRAP - 1 - t % WRAP + h + 1 + newTail) % WRAP;
      if q.head == h then Goto(q.(head := newHead), id, EWrap(pc.val, pc.block, t, newTail))
      else Goto(q, id, EHead(pc.val, pc.block))
  }

  function DecideDequeue(q: Queue, id: nat, pc: Pc): Queue
    requires pc.DDecide?
  {
    if pc.t < pc.h then
      if q.tail == pc.t then Goto(q.(tail := (pc.t + 1) % WRAP), id, DClaim(pc.t)) else Goto(q, id, DHead(pc.block))
    else Goto(q, id, if pc.block then DHead(pc.block) else Idle)
  }

  function Step(q: Queue, id: nat): Queue
    requires Shape(q) && id in q.threads
  {
    match q.threads[id]
    case Idle => q
    case EHead(val, block) => Goto(q, id, ETail(val, block, q.head))
    case ETail(val, block, h) => Goto(q, id, EDecide(val, block, h, q.tail, q.head))
    case EDecide(_, _, _, _, _) => DecideEnqueue(q, id, q.threads[id])
    case EWrap(val, block, t, newTail) =>
      if q.tail == t then Goto(q.(tail := newTail), id, EHead(val, block)) else q
    case EClaim(val, k) =>
      if q.slots[Pos(q, k)].flag == Null then Goto(Mark(q, Pos(q, k), SetTook, id), id, EStore(val, k)) else q
    case EStore(val, k) =>
      var s := Pos(q, k);
      Goto(q.(slots := q.slots[s := q.slots[s].(data := val)], puts := q.puts[s := q.puts[s] + [val]], stored := q.stored + [val]),
           id, EPublish(k))
    case EPublish(k) => Goto(Mark(q, Pos(q, k), Seted, NOBODY), id, Idle)
    case DHead(block) => Goto(q, id, DTail(block, q.head, q.tail))
    case DTail(block, h, seen) => Goto(q, id, DDecide(block, h, q.tail, seen))
    case DDecide(_, _, _, _) => DecideDequeue(q, id, q.threads[id])
    case DClaim(k) =>
      if q.slots[Pos(q, k)].flag == Seted then Goto(Mark(q, Pos(q, k), GetTook, id), id, DTake(k)) else q
    case DTake(k) =>
      var s := Pos(q, k);
      var val := q.slots[s].data;
      Goto(q.(gots := q.gots[s := q.gots[s] + [val]], handed := q.handed + [val]), id, DRelease(k, val))
    case DRelease(k, _) => Goto(Mark(q, Pos(q, k), Null, NOBODY), id, Idle)
  }

  function Next(q: Queue, a: Action): Queue
    requires Shape(q) && Enabled(q, a)
  {
    match a
    case StartEnqueue(t, val, block) => Goto(q, t, EHead(val, block))
    case StartDequeue(t, block) => Goto(q, t, DHead(block))
    case Tick(t) => Step(q, t)
  }

  /** A run in which fewer than 2^64 enqueue reservations are made. */
  ghost predicate Run(q: Queue, acts: seq<Action>, q': Queue)
    decreases |acts|
  {
    Shape(q) && q.reserved < WRAP &&
    if acts == [] then q' == q else Enabled(q, acts[0]) && Run(Next(q, acts[0]), acts[1..], q')
  }

  // ---------------------------------------------------------------- the invariant

  /** Counting the tickets below `n` that fall on slot `s`. */
  function Tickets(n: nat, size: nat, s: nat): nat
    requires size > 0
  {
    if n == 0 then 0 else Tickets(n - 1, size, s) + if (n - 1) % size == s then 1 else 0
  }

  predicate Counters(q: Queue) {
    q.head == q.reserved && q.tail <= q.head <= q.tail + q.size
  }

  /** What a thread remembers is out of date only in one direction; a claimed slot names it as owner. */
  predicate PcOk(q: Queue, id: nat, pc: Pc)
    requires Shape(q)
  {
    match pc
    case Idle => true
    case EHead(_, _) => true
    case ETail(_, _, h) => h <= q.head
    case EDecide(_, _, h, t, seen) => h <= seen <= q.head && t <= q.tail && t <= seen <= t + q.size
    case EWrap(_, _, _, _) => false
    case EClaim(_, k) => k < q.head
    case EStore(_, k) => k < q.head && Owns(q, id, Pos(q, k), SetTook)
    case EPublish(k) => k < q.head && Owns(q, id, Pos(q, k), SetTook)
    case DHead(_) => true
    case DTail(_, h, seen) => seen <= h <= q.head && seen <= q.tail
    case DDecide(_, h, t, seen) => seen <= h <= q.head && seen <= t <= q.tail
    case DClaim(k) => k < q.tail
    case DTake(k) => k < q.tail && Owns(q, id, Pos(q, k), GetTook)
    case DRelease(k, val) =>
      && k < q.tail && Owns(q, id, Pos(q, k), GetTook)
      && q.gots[Pos(q, k)] != [] && q.gots[Pos(q, k)][|q.gots[Pos(q, k)]| - 1] == val
  }

  predicate Owns(q: Queue, id: nat, s: nat, flag: Flag)
    requires Shape(q) && s < q.size
  {
    q.slots[s].flag == flag && q.slots[s].owner == id
  }

  /** The slot holds a value that was written and not yet taken. */
  predicate Full(q: Queue, s: nat)
    requires Shape(q) && s < q.size
  {
    var slot := q.slots[s];
    || slot.flag == Seted
    || (slot.owner in q.threads &&
        var pc := q.threads[slot.owner];
        (slot.flag == SetTook && pc.EPublish?) || (slot.flag == GetTook && pc.DTake?))
  }

  /** A taken slot has a thread at work in it; the values taken are those written, in order, minus what it holds. */
  predicate SlotOk(q: Queue, s: nat)
    requires Shape(q) && s < q.size
  {
    var slot := q.slots[s];
    && (slot.flag == SetTook ==>
          slot.owner in q.threads &&
          var pc := q.threads[slot.owner];
          (pc.EStore? || pc.EPublish?) && Pos(q, pc.ticket) == s)
    && (slot.flag == GetTook ==>
          slot.owner in q.threads &&
          var pc := q.threads[slot.owner];
          (pc.DTake? || pc.DRelease?) && Pos(q, pc.ticket) == s)
    && q.puts[s] == q.gots[s] + if Full(q, s) then [slot.data] else []
  }

  ghost function EWait(q: Queue, s: nat): set<nat>
    requires Shape(q)
  {
    set t | t in q.threads && q.threads[t].EClaim? && Pos(q, q.threads[t].ticket) == s
  }

  ghost function DWait(q: Queue, s: nat): set<nat>
    requires Shape(q)
  {
    set t | t in q.threads && q.threads[t].DClaim? && Pos(q, q.threads[t].ticket) == s
  }

  predicate Busy(slot: Slot) {
    slot.flag == SetTook || slot.flag == Seted
  }

  /** Tickets handed out for a slot, less those whose holders still wait, balance with its state. */
  ghost predicate Balance(q: Queue, s: nat)
    requires Shape(q) && s < q.size
  {
    Tickets(q.head, q.size, s) + |DWait(q, s)| ==
    Tickets(q.tail, q.size, s) + |EWait(q, s)| + if Busy(q.slots[s]) then 1 else 0
  }

  ghost predicate Inv(q: Queue) {
    && Shape(q) && Counters(q)
    && (forall t :: t in q.threads ==> PcOk(q, t, q.threads[t]))
    && (forall s :: 0 <= s < q.size ==> SlotOk(q, s))
    && (forall s :: 0 <= s < q.size ==> Balance(q, s))
  }
}
