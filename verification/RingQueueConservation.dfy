/** Conservation for the queue as a whole: what went in is what came out plus what the slots hold. */
module RingQueueConservation {
  import opened RingQueue
  import opened RingQueueProof

  /** All values of the first `n` lists. */
  function Bag(lists: seq<seq<Value>>, n: nat): multiset<Value>
    requires n <= |lists|
  {
    if n == 0 then multiset{} else Bag(lists, n - 1) + multiset(lists[n - 1])
  }

  /** The values that the first `n` slots hold, written and not yet taken. */
  function Held(q: Queue, n: nat): multiset<Value>
    requires Shape(q) && n <= q.size
  {
    if n == 0 then multiset{} else Held(q, n - 1) + if Full(q, n - 1) then multiset{q.slots[n - 1].data} else multiset{}
  }

  /** The overall logs and the logs per slot list the same values. */
  ghost predicate Totals(q: Queue)
    requires Shape(q)
  {
    multiset(q.stored) == Bag(q.puts, q.size) && multiset(q.handed) == Bag(q.gots, q.size)
  }

  lemma {:induction false} BagGrows(lists: seq<seq<Value>>, n: nat, s: nat, v: Value)
    requires n <= |lists| && s < |lists|
    ensures Bag(lists[s := lists[s] + [v]], n) == Bag(lists, n) + if s < n then multiset{v} else multiset{}
  {
    if n > 0 {
      BagGrows(lists, n - 1, s, v);
      var more, last := lists[s := lists[s] + [v]], multiset(lists[n - 1]);
      if s == n - 1 {
        assert multiset(more[n - 1]) == last + multiset{v};
      } else {
        assert more[n - 1] == lists[n - 1];
      }
    }
  }

  /** Only writing and taking a value changes the logs. */
  lemma LogsStay(q: Queue, id: nat)
    requires Shape(q) && id in q.threads && !q.threads[id].EStore? && !q.threads[id].DTake?
    ensures var q' := Step(q, id);
            q'.size == q.size && q'.puts == q.puts && q'.gots == q.gots && q'.stored == q.stored && q'.handed == q.handed
  {
  }

  lemma LogsGrow(q: Queue, id: nat)
    requires Shape(q) && id in q.threads && (q.threads[id].EStore? || q.threads[id].DTake?)
    ensures var pc, q' := q.threads[id], Step(q, id);
            var s := Pos(q, pc.ticket);
            var v := if pc.EStore? then pc.val else q.slots[s].data;
            && q'.size == q.size
            && (q'.puts, q'.stored) == (if pc.EStore? then (q.puts[s := q.puts[s] + [v]], q.stored + [v]) else (q.puts, q.stored))
            && (q'.gots, q'.handed) == (if pc.DTake? then (q.gots[s := q.gots[s] + [v]], q.handed + [v]) else (q.gots, q.handed))
  {
  }

  lemma StepTotals(q: Queue, q': Queue, id: nat)
    requires Shape(q) && Totals(q) && id in q.threads && q' == Step(q, id) && Shape(q')
    ensures Totals(q')
  {
    var pc := q.threads[id];
    if pc.EStore? || pc.DTake? {
      var s := Pos(q, pc.ticket);
      LogsGrow(q, id);
      BagGrows(q.puts, q.size, s, if pc.EStore? then pc.val else 0);
      BagGrows(q.gots, q.size, s, q.slots[s].data);
    } else {
      LogsStay(q, id);
    }
  }

  lemma {:induction false} BagsBalance(q: Queue, n: nat)
    requires Inv(q) && n <= q.size
    ensures Bag(q.puts, n) == Bag(q.gots, n) + Held(q, n)
  {
    if n > 0 {
      BagsBalance(q, n - 1);
      assert SlotOk(q, n - 1);
    }
  }

  lemma {:induction false} EmptyBag(lists: seq<seq<Value>>, n: nat)
    requires n <= |lists| && forall s :: 0 <= s < n ==> lists[s] == []
    ensures Bag(lists, n) == multiset{}
  {
    if n > 0 {
      EmptyBag(lists, n - 1);
    }
  }

  lemma {:induction false} RunTotals(q: Queue, acts: seq<Action>, q': Queue)
    requires Inv(q) && Totals(q) && Run(q, acts, q')
    ensures Inv(q') && Totals(q')
    decreases |acts|
  {
    if acts != [] {
      var next := Next(q, acts[0]);
      assert Run(next, acts[1..], q');
      NextInv(q, acts[0]);
      if acts[0].Tick? {
        StepTotals(q, next, acts[0].t);
      }
      RunTotals(next, acts[1..], q');
    }
  }

  /**
   * For any number of producers and consumers and every interleaving: each value written is either
   * handed out, as often as it was written and no more, or still held by a slot.
   */
  lemma NothingLostOrDoubled(q: Queue, acts: seq<Action>, q': Queue)
    requires Init(q) && Run(q, acts, q')
    ensures Inv(q') && multiset(q'.stored) == multiset(q'.handed) + Held(q', q'.size)
  {
    InitInv(q);
    EmptyBag(q.puts, q.size);
    EmptyBag(q.gots, q.size);
    RunTotals(q, acts, q');
    BagsBalance(q', q'.size);
  }
}
