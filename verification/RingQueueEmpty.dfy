/** Exactly when the answer "empty" can be trusted, for any number of producers and consumers. */
module RingQueueEmpty {
  import opened RingQueue
  import opened RingQueueProof

  /** Who may start an enqueue and who a dequeue. */
  datatype Cast = Cast(producers: set<nat>, consumers: set<nat>)

  predicate Allowed(x: Cast, a: Action) {
    (a.StartEnqueue? ==> a.t in x.producers) && (a.StartDequeue? ==> a.t in x.consumers)
  }

  ghost predicate CastRun(x: Cast, q: Queue, acts: seq<Action>, q': Queue) {
    Run(q, acts, q') && forall i :: 0 <= i < |acts| ==> Allowed(x, acts[i])
  }

  /** The next step of this thread answers "empty". */
  predicate AnswersEmpty(q: Queue, id: nat) {
    Shape(q) && id in q.threads && q.threads[id].DDecide? && Step(q, id).threads[id] == Idle
  }

  /** What is known after step `a` about an empty queue since the latest call of `id`. */
  predicate Sighted(q: Queue, a: Action, id: nat, before: bool)
    requires Shape(q) && Enabled(q, a)
  {
    (before && !(a.t == id && !a.Tick?)) || Next(q, a).head == Next(q, a).tail
  }

  /** Whether the queue was empty in some state of the run since the latest call of `id` began. */
  predicate WasEmpty(q: Queue, acts: seq<Action>, q': Queue, id: nat, before: bool)
    requires Run(q, acts, q')
    decreases |acts|
  {
    if acts == [] then before else WasEmpty(Next(q, acts[0]), acts[1..], q', id, Sighted(q, acts[0], id, before))
  }

  ghost predicate Starts(q: Queue, threads: set<nat>, size: nat) {
    Init(q) && q.threads.Keys == threads && q.size == size
  }

  /** In every run, whoever answers "empty" saw tail and head equal when it read the head. */
  ghost predicate EmptyAtRead(threads: set<nat>, size: nat, x: Cast) {
    forall q, acts, q', id ::
      Starts(q, threads, size) && CastRun(x, q, acts, q') && AnswersEmpty(q', id) ==>
        q'.threads[id].h == q'.threads[id].seen
  }

  /** In every run, whoever answers "empty" does so after the queue was empty at some time during its call. */
  ghost predicate EmptyDuringCall(threads: set<nat>, size: nat, x: Cast) {
    forall q, acts, q', id ::
      Starts(q, threads, size) && CastRun(x, q, acts, q') && AnswersEmpty(q', id) ==> WasEmpty(q, acts, q', id, false)
  }

  // ---------------------------------------------------------------- one consumer, or one slot

  predicate Dequeuing(pc: Pc) {
    pc.DHead? || pc.DTail? || pc.DDecide? || pc.DClaim? || pc.DTake? || pc.DRelease?
  }

  predicate Solo(x: Cast) {
    forall c, d :: c in x.consumers && d in x.consumers ==> c == d
  }

  predicate Roles(q: Queue, x: Cast) {
    forall t :: t in q.threads && Dequeuing(q.threads[t]) ==> t in x.consumers
  }

  /** Only a dequeuer that has read both counters moves the tail, and by one. */
  lemma TailMoves(q: Queue, id: nat)
    requires Inv(q) && id in q.threads && q.reserved < WRAP
    ensures var q' := Step(q, id);
            q'.tail != q.tail ==> q.threads[id].DDecide? && q'.tail == q.tail + 1 && q'.head == q.head
  {
    assert PcOk(q, id, q.threads[id]);
  }

  lemma RolesStep(q: Queue, a: Action, x: Cast)
    requires Shape(q) && Enabled(q, a) && Allowed(x, a) && Roles(q, x)
    ensures Roles(Next(q, a), x)
  {
    var q' := Next(q, a);
    forall t | t in q'.threads && Dequeuing(q'.threads[t])
      ensures t in x.consumers
    {
      OthersStay(q, a, t);
      OwnStays(q, a);
    }
  }

  lemma OthersStay(q: Queue, a: Action, t: nat)
    requires Shape(q) && Enabled(q, a)
    ensures Next(q, a).threads.Keys == q.threads.Keys
    ensures t in q.threads && t != a.t ==> Next(q, a).threads[t] == q.threads[t]
  {
  }

  lemma OwnStays(q: Queue, a: Action)
    requires Shape(q) && Enabled(q, a)
    ensures a.t in Next(q, a).threads
    ensures Dequeuing(Next(q, a).threads[a.t]) ==> a.StartDequeue? || Dequeuing(q.threads[a.t])
  {
  }

  /** What a lone consumer has read of the tail is still so. */
  predicate TailKnown(q: Queue, pc: Pc) {
    (pc.DTail? ==> pc.seen == q.tail) && (pc.DDecide? ==> pc.seen == pc.t)
  }

  predicate TailsKnown(q: Queue) {
    forall t :: t in q.threads ==> TailKnown(q, q.threads[t])
  }

  lemma KnownStep(q: Queue, a: Action, x: Cast)
    requires Inv(q) && q.reserved < WRAP && Enabled(q, a) && Roles(q, x) && Solo(x) && TailsKnown(q)
    ensures TailsKnown(Next(q, a))
  {
    var q' := Next(q, a);
    forall t | t in q'.threads
      ensures TailKnown(q', q'.threads[t])
    {
      OthersStay(q, a, t);
      assert TailKnown(q, q.threads[t]);
      if a.Tick? {
        TailMoves(q, a.t);
      }
      if t == a.t {
        OwnKnown(q, a);
      }
    }
  }

  lemma OwnKnown(q: Queue, a: Action)
    requires Inv(q) && q.reserved < WRAP && Enabled(q, a) && TailKnown(q, q.threads[a.t])
    ensures a.t in Next(q, a).threads && TailKnown(Next(q, a), Next(q, a).threads[a.t])
  {
  }

  lemma {:induction false} KnownRun(x: Cast, q: Queue, acts: seq<Action>, q': Queue)
    requires Inv(q) && CastRun(x, q, acts, q') && Roles(q, x) && Solo(x) && TailsKnown(q)
    ensures Inv(q') && TailsKnown(q')
    decreases |acts|
  {
    if acts != [] {
      var next := Next(q, acts[0]);
      assert Run(next, acts[1..], q');
      NextInv(q, acts[0]);
      RolesStep(q, acts[0], x);
      KnownStep(q, acts[0], x);
      KnownRun(x, next, acts[1..], q');
    }
  }

  /** As long as the queue was not empty, the thread knows a tail below the head it has read. */
  predicate Honest(q: Queue, id: nat, sighted: bool) {
    id in q.threads &&
    var pc := q.threads[id];
    (pc.DTail? ==> sighted || (q.tail == pc.seen && pc.seen < pc.h)) && (pc.DDecide? ==> sighted || pc.t < pc.h)
  }

  /** In a ring of one slot, moving the tail past what a reader has seen empties the queue. */
  lemma OneSlotEmpties(q: Queue, t: nat, id: nat)
    requires Inv(q) && q.reserved < WRAP && q.size == 1 && t in q.threads && id in q.threads
    requires q.threads[id].DTail? && q.tail == q.threads[id].seen < q.threads[id].h && Step(q, t).tail != q.tail
    ensures Step(q, t).head == Step(q, t).tail
  {
    TailMoves(q, t);
    assert PcOk(q, id, q.threads[id]);
  }

  lemma OwnHonest(q: Queue, a: Action, sighted: bool)
    requires Inv(q) && q.reserved < WRAP && Enabled(q, a) && Honest(q, a.t, sighted)
    ensures Honest(Next(q, a), a.t, Sighted(q, a, a.t, sighted))
  {
  }

  lemma HonestStep(q: Queue, a: Action, x: Cast, id: nat, sighted: bool)
    requires Inv(q) && q.reserved < WRAP && Enabled(q, a) && Roles(q, x) && (Solo(x) || q.size == 1) && Honest(q, id, sighted)
    ensures Honest(Next(q, a), id, Sighted(q, a, id, sighted))
  {
    if a.t == id {
      OwnHonest(q, a, sighted);
    } else {
      OthersStay(q, a, id);
      if a.Tick? && !sighted && q.threads[id].DTail? && Next(q, a).tail != q.tail {
        TailMoves(q, a.t);
        if q.size == 1 {
          OneSlotEmpties(q, a.t, id);
        }
      }
    }
  }

  lemma {:induction false} HonestRun(x: Cast, q: Queue, acts: seq<Action>, q': Queue, id: nat, sighted: bool)
    requires Inv(q) && CastRun(x, q, acts, q') && Roles(q, x) && (Solo(x) || q.size == 1) && Honest(q, id, sighted)
    ensures Inv(q') && Honest(q', id, WasEmpty(q, acts, q', id, sighted))
    decreases |acts|
  {
    if acts != [] {
      var next := Next(q, acts[0]);
      assert Run(next, acts[1..], q');
      NextInv(q, acts[0]);
      RolesStep(q, acts[0], x);
      HonestStep(q, acts[0], x, id, sighted);
      SizeStays(q, acts[0]);
      HonestRun(x, next, acts[1..], q', id, Sighted(q, acts[0], id, sighted));
    }
  }

  lemma SizeStays(q: Queue, a: Action)
    requires Shape(q) && Enabled(q, a)
    ensures Next(q, a).size == q.size
  {
  }

  lemma {:induction false} ThreadsStay(q: Queue, acts: seq<Action>, q': Queue)
    requires Run(q, acts, q')
    ensures q'.threads.Keys == q.threads.Keys
    decreases |acts|
  {
    if acts != [] {
      assert Run(Next(q, acts[0]), acts[1..], q');
      OthersStay(q, acts[0], 0);
      ThreadsStay(Next(q, acts[0]), acts[1..], q');
    }
  }

  lemma SoloIsExact(threads: set<nat>, size: nat, x: Cast)
    requires Solo(x)
    ensures EmptyAtRead(threads, size, x)
  {
    forall q, acts, q', id | Starts(q, threads, size) && CastRun(x, q, acts, q') && AnswersEmpty(q', id)
      ensures q'.threads[id].h == q'.threads[id].seen
    {
      InitInv(q);
      KnownRun(x, q, acts, q');
      assert TailKnown(q', q'.threads[id]);
      EmptyIsNearlyTrue(q', id);
    }
  }

  lemma SoloOrOneSlotIsHonest(threads: set<nat>, size: nat, x: Cast)
    requires Solo(x) || size == 1
    ensures EmptyDuringCall(threads, size, x)
  {
    forall q, acts, q', id | Starts(q, threads, size) && CastRun(x, q, acts, q') && AnswersEmpty(q', id)
      ensures WasEmpty(q, acts, q', id, false)
    {
      HonestFromStart(x, q, acts, q', id);
    }
  }

  lemma HonestFromStart(x: Cast, q: Queue, acts: seq<Action>, q': Queue, id: nat)
    requires Init(q) && CastRun(x, q, acts, q') && (Solo(x) || q.size == 1) && AnswersEmpty(q', id)
    ensures WasEmpty(q, acts, q', id, false)
  {
    InitInv(q);
    ThreadsStay(q, acts, q');
    HonestRun(x, q, acts, q', id, false);
  }

  // ---------------------------------------------------------------- two consumers

  /** A run leads from `q` to `q'`; while watched, thread `id` has been in one call and the queue never empty during it. */
  ghost predicate Path(x: Cast, q: Queue, q': Queue, id: nat, watched: bool) {
    exists acts :: CastRun(x, q, acts, q') && (watched ==> !WasEmpty(q, acts, q', id, false))
  }

  lemma {:induction false} RunMore(x: Cast, q: Queue, acts: seq<Action>, mid: Queue, a: Action, id: nat, before: bool)
    requires CastRun(x, q, acts, mid) && Shape(mid) && Enabled(mid, a) && Allowed(x, a)
    requires Shape(Next(mid, a)) && Next(mid, a).reserved < WRAP
    ensures CastRun(x, q, acts + [a], Next(mid, a))
    ensures WasEmpty(q, acts + [a], Next(mid, a), id, before) == Sighted(mid, a, id, WasEmpty(q, acts, mid, id, before))
    decreases |acts|
  {
    var all, end := acts + [a], Next(mid, a);
    if acts == [] {
      assert all == [a] && all[1..] == [] && Run(end, [], end);
    } else {
      var next := Next(q, acts[0]);
      assert Run(next, acts[1..], mid);
      RunMore(x, next, acts[1..], mid, a, id, Sighted(q, acts[0], id, before));
      assert all[0] == acts[0] && all[1..] == acts[1..] + [a];
    }
  }

  lemma Goes(x: Cast, q: Queue, mid: Queue, id: nat, watched: bool, a: Action)
    requires Path(x, q, mid, id, watched) && Shape(mid) && Enabled(mid, a) && Allowed(x, a)
    requires Shape(Next(mid, a)) && Next(mid, a).reserved < WRAP
    requires watched ==> Next(mid, a).head != Next(mid, a).tail
    ensures Path(x, q, Next(mid, a), id, watched)
  {
    var acts :| CastRun(x, q, acts, mid) && (watched ==> !WasEmpty(q, acts, mid, id, false));
    RunMore(x, q, acts, mid, a, id, false);
  }

  /** Watching begins with a call that finds elements. */
  lemma Watch(x: Cast, q: Queue, mid: Queue, id: nat, a: Action)
    requires Path(x, q, mid, id, false) && Shape(mid) && Enabled(mid, a) && Allowed(x, a) && a.StartDequeue? && a.t == id
    requires mid.head != mid.tail && mid.reserved < WRAP
    ensures Path(x, q, Next(mid, a), id, true)
  {
    var acts :| CastRun(x, q, acts, mid);
    RunMore(x, q, acts, mid, a, id, false);
  }

  /** Few elements, with room for one more. */
  predicate Roomy(q: Queue) {
    Shape(q) && q.head == q.reserved && q.tail <= q.head < q.tail + q.size && q.head < 100
  }

  /** Thread `p` starts an enqueue and reads both counters. */
  lemma EnqueuerReads(x: Cast, q: Queue, mid: Queue, id: nat, watched: bool, p: nat) returns (end: Queue)
    requires Path(x, q, mid, id, watched) && Roomy(mid) && p in mid.threads && mid.threads[p] == Idle && p in x.producers
    requires watched ==> mid.head != mid.tail
    ensures Path(x, q, end, id, watched)
    ensures end == mid.(threads := mid.threads[p := EDecide(7, false, mid.head, mid.tail, mid.head)])
  {
    Goes(x, q, mid, id, watched, StartEnqueue(p, 7, false));
    var e1 := Next(mid, StartEnqueue(p, 7, false));
    Goes(x, q, e1, id, watched, Tick(p));
    var e2 := Next(e1, Tick(p));
    Goes(x, q, e2, id, watched, Tick(p));
    end := Next(e2, Tick(p));
    assert end.threads == mid.threads[p := EDecide(7, false, mid.head, mid.tail, mid.head)];
  }

  /** It reserves a ticket with nobody interfering. */
  lemma ReservesSlot(x: Cast, q: Queue, mid: Queue, id: nat, watched: bool, p: nat) returns (end: Queue)
    requires Path(x, q, mid, id, watched) && Roomy(mid) && p in mid.threads && mid.threads[p] == Idle && p in x.producers
    requires watched ==> mid.head != mid.tail
    ensures Path(x, q, end, id, watched)
    ensures end == mid.(threads := mid.threads[p := EClaim(7, mid.head)], head := mid.head + 1, reserved := mid.reserved + 1)
  {
    var e := EnqueuerReads(x, q, mid, id, watched, p);
    Goes(x, q, e, id, watched, Tick(p));
    end := Next(e, Tick(p));
    assert end.threads == mid.threads[p := EClaim(7, mid.head)];
  }

  /** It then fills its slot. */
  lemma Fills(x: Cast, q: Queue, mid: Queue, id: nat, watched: bool, p: nat, k: nat) returns (end: Queue)
    requires Path(x, q, mid, id, watched) && Shape(mid) && p in mid.threads && mid.threads[p] == EClaim(7, k)
    requires mid.slots[Pos(mid, k)].flag == Null && mid.reserved < 200 && mid.head != mid.tail
    ensures Path(x, q, end, id, watched) && Shape(end) && end.size == mid.size && end.threads == mid.threads[p := Idle]
    ensures end.head == mid.head && end.tail == mid.tail && end.reserved == mid.reserved
    ensures forall s :: 0 <= s < mid.size && s != Pos(mid, k) ==> end.slots[s] == mid.slots[s]
  {
    Goes(x, q, mid, id, watched, Tick(p));
    var e1 := Next(mid, Tick(p));
    Goes(x, q, e1, id, watched, Tick(p));
    var e2 := Next(e1, Tick(p));
    Goes(x, q, e2, id, watched, Tick(p));
    end := Next(e2, Tick(p));
    assert end.threads == mid.threads[p := Idle];
  }

  /** A whole enqueue by thread `p`. */
  lemma Enqueues(x: Cast, q: Queue, mid: Queue, id: nat, watched: bool, p: nat) returns (end: Queue)
    requires Path(x, q, mid, id, watched) && Roomy(mid) && p in mid.threads && mid.threads[p] == Idle && p in x.producers
    requires mid.slots[Pos(mid, mid.head)].flag == Null && (watched ==> mid.head != mid.tail)
    ensures Path(x, q, end, id, watched) && Shape(end) && end.size == mid.size
    ensures end.threads == mid.threads && end.head == end.reserved == mid.head + 1 && end.tail == mid.tail
    ensures forall s :: 0 <= s < mid.size && s != Pos(mid, mid.head) ==> end.slots[s] == mid.slots[s]
  {
    var e := ReservesSlot(x, q, mid, id, watched, p);
    end := Fills(x, q, e, id, watched, p, mid.head);
    assert end.threads == mid.threads;
  }

  /** Thread `c` starts a dequeue and reads both counters. */
  lemma DequeuerReads(x: Cast, q: Queue, mid: Queue, id: nat, watched: bool, c: nat) returns (end: Queue)
    requires Path(x, q, mid, id, watched) && Shape(mid) && c in mid.threads && mid.threads[c] == Idle && c in x.consumers
    requires mid.reserved < 100 && (watched ==> mid.head != mid.tail)
    ensures Path(x, q, end, id, watched)
    ensures end == mid.(threads := mid.threads[c := DDecide(false, mid.head, mid.tail, mid.tail)])
  {
    Goes(x, q, mid, id, watched, StartDequeue(c, false));
    var e1 := Next(mid, StartDequeue(c, false));
    Goes(x, q, e1, id, watched, Tick(c));
    var e2 := Next(e1, Tick(c));
    Goes(x, q, e2, id, watched, Tick(c));
    end := Next(e2, Tick(c));
    assert end.threads == mid.threads[c := DDecide(false, mid.head, mid.tail, mid.tail)];
  }

  /** It reserves a dequeue ticket. */
  lemma Reserves(x: Cast, q: Queue, mid: Queue, id: nat, watched: bool, c: nat) returns (end: Queue)
    requires Path(x, q, mid, id, watched) && Shape(mid) && c in mid.threads && mid.threads[c] == Idle && c in x.consumers
    requires mid.tail < mid.head < 100 && mid.reserved < 100 && (watched ==> mid.tail + 1 < mid.head)
    ensures Path(x, q, end, id, watched) && end == mid.(threads := mid.threads[c := DClaim(mid.tail)], tail := mid.tail + 1)
  {
    var e := DequeuerReads(x, q, mid, id, watched, c);
    Goes(x, q, e, id, watched, Tick(c));
    end := Next(e, Tick(c));
    assert end.threads == mid.threads[c := DClaim(mid.tail)];
  }

  /** The watched thread starts a dequeue and reads the head while elements are queued. */
  lemma ReadsHead(x: Cast, q: Queue, mid: Queue, id: nat) returns (end: Queue)
    requires Path(x, q, mid, id, false) && Shape(mid) && id in mid.threads && mid.threads[id] == Idle && id in x.consumers
    requires mid.reserved < 100 && mid.head != mid.tail
    ensures Path(x, q, end, id, true) && end == mid.(threads := mid.threads[id := DTail(false, mid.head, mid.tail)])
  {
    Watch(x, q, mid, id, StartDequeue(id, false));
    var e1 := Next(mid, StartDequeue(id, false));
    Goes(x, q, e1, id, true, Tick(id));
    end := Next(e1, Tick(id));
    assert end.threads == mid.threads[id := DTail(false, mid.head, mid.tail)];
  }

  /** It goes on to read a tail that has reached that head, and will answer "empty". */
  lemma ReadsTail(x: Cast, q: Queue, mid: Queue, id: nat, watched: bool) returns (end: Queue)
    requires Path(x, q, mid, id, watched) && Shape(mid) && id in mid.threads && mid.threads[id] == DTail(false, 1, 0)
    requires mid.reserved < 100 && mid.tail == 1 && (watched ==> mid.head != mid.tail)
    ensures Path(x, q, end, id, watched) && AnswersEmpty(end, id) && end.threads[id] == DDecide(false, 1, 1, 0)
  {
    Goes(x, q, mid, id, watched, Tick(id));
    end := Next(mid, Tick(id));
  }

  function Fresh(threads: set<nat>, size: nat): Queue {
    Queue(size, 0, 0, seq(size, _ => Slot(Null, 0, NOBODY)), map t | t in threads :: Idle, 0,
          seq(size, _ => []), seq(size, _ => []), [], [])
  }

  lemma FreshStarts(threads: set<nat>, size: nat, x: Cast, id: nat)
    requires size > 0
    ensures Starts(Fresh(threads, size), threads, size) && Path(x, Fresh(threads, size), Fresh(threads, size), id, false)
  {
    var q := Fresh(threads, size);
    assert q.threads.Keys == threads;
    assert CastRun(x, q, [], q);
  }

  /** A producer and two consumers, one of them maybe the producer itself. */
  predicate Trio(threads: set<nat>, x: Cast, p: nat, c: nat, id: nat) {
    && p in x.producers && c in x.consumers && id in x.consumers && {p, c, id} <= threads
    && id != p && id != c
  }

  /** One element is queued when thread `id` reads the head; another consumer reserves it before `id` reads the tail. */
  lemma FalseAtRead(threads: set<nat>, size: nat, x: Cast, p: nat, c: nat, id: nat) returns (q: Queue, end: Queue)
    requires size > 0 && Trio(threads, x, p, c, id)
    ensures Starts(q, threads, size) && Path(x, q, end, id, false)
    ensures AnswersEmpty(end, id) && end.threads[id].h == 1 && end.threads[id].seen == 0
  {
    q := Fresh(threads, size);
    FreshStarts(threads, size, x, id);
    var e1 := Enqueues(x, q, q, id, false, p);
    var e2 := ReadsHead(x, q, e1, id);
    var e3 := Reserves(x, q, e2, id, false, c);
    end := ReadsTail(x, q, e3, id, false);
  }

  /** With room for two, a second element arrives first, and the queue is never empty during the call of `id`. */
  lemma FalseThroughout(threads: set<nat>, size: nat, x: Cast, p: nat, c: nat, id: nat) returns (q: Queue, end: Queue)
    requires size > 1 && Trio(threads, x, p, c, id)
    ensures Starts(q, threads, size) && Path(x, q, end, id, true) && AnswersEmpty(end, id)
  {
    q := Fresh(threads, size);
    FreshStarts(threads, size, x, id);
    var e1 := Enqueues(x, q, q, id, false, p);
    var e2 := ReadsHead(x, q, e1, id);
    assert Pos(q, 0) == 0 && Pos(e2, 1) == 1;
    var e3 := Enqueues(x, q, e2, id, true, p);
    var e4 := Reserves(x, q, e3, id, true, c);
    end := ReadsTail(x, q, e4, id, true);
  }

  lemma PickTrio(threads: set<nat>, x: Cast) returns (p: nat, c: nat, id: nat)
    requires x.producers != {} && x.producers <= threads && x.consumers <= threads && !Solo(x)
    ensures Trio(threads, x, p, c, id)
  {
    p :| p in x.producers;
    var a, b :| a in x.consumers && b in x.consumers && a != b;
    id := if a != p then a else b;
    c := if a != p then b else a;
  }

  lemma SoloSize(x: Cast)
    ensures Solo(x) <==> |x.consumers| <= 1
  {
    if |x.consumers| > 0 {
      var c :| c in x.consumers;
      var rest := x.consumers - {c};
      if |rest| > 0 {
        var d :| d in rest;
        assert c in x.consumers && d in x.consumers && c != d;
      } else {
        assert rest == {};
        assert forall d :: d in x.consumers && d != c ==> d in rest;
      }
    }
  }

  /**
   * "Empty" is true of the moment the head was read, in all runs, if and only if at most one thread
   * dequeues: for any number of threads, any producers and any ring size.
   */
  lemma EmptyAtReadIff(threads: set<nat>, size: nat, x: Cast)
    requires size > 0 && x.producers != {} && x.producers <= threads && x.consumers <= threads
    ensures EmptyAtRead(threads, size, x) <==> |x.consumers| <= 1
  {
    SoloSize(x);
    if Solo(x) {
      SoloIsExact(threads, size, x);
    } else {
      var p, c, id := PickTrio(threads, x);
      var q, end := FalseAtRead(threads, size, x, p, c, id);
      var acts :| CastRun(x, q, acts, end);
      assert Starts(q, threads, size) && AnswersEmpty(end, id);
    }
  }

  /**
   * "Empty" is true of some moment of the call, in all runs, if and only if at most one thread dequeues or
   * the ring has a single slot.
   */
  lemma EmptyDuringCallIff(threads: set<nat>, size: nat, x: Cast)
    requires size > 0 && x.producers != {} && x.producers <= threads && x.consumers <= threads
    ensures EmptyDuringCall(threads, size, x) <==> |x.consumers| <= 1 || size == 1
  {
    SoloSize(x);
    if Solo(x) || size == 1 {
      SoloOrOneSlotIsHonest(threads, size, x);
    } else {
      var p, c, id := PickTrio(threads, x);
      var q, end := FalseThroughout(threads, size, x, p, c, id);
      var acts :| CastRun(x, q, acts, end) && !WasEmpty(q, acts, end, id, false);
      assert Starts(q, threads, size) && AnswersEmpty(end, id);
    }
  }
}
