/** The timing wheel (util/timing_wheel.hpp): what one add and one turn do, and what runs of them promise. */
module WheelSpec {

  /** Slots and timeouts are computed in 32-bit words. */
  const WORD: nat := 0x1_0000_0000

  /** The wheel covers this many milliseconds. */
  const SPAN: nat := 4000

  predicate Granularity(g: nat) {
    0 < g <= SPAN
  }

  function Size(g: nat): (n: nat)
    requires Granularity(g)
    ensures n > 0 && n <= SPAN
  {
    assert SPAN / g * g + SPAN % g == SPAN;
    SPAN / g
  }

  /** The timeout in ticks, rounded up. */
  function Steps(g: nat, timeout: nat): nat
    requires g > 0
  {
    timeout / g + if timeout % g != 0 then 1 else 0
  }

  /** Rounding up adds less than a tick. */
  lemma StepsCover(g: nat, timeout: nat)
    requires g > 0
    ensures timeout <= Steps(g, timeout) * g < timeout + g
  {
    var q := timeout / g;
    assert timeout == q * g + timeout % g;
    assert (q + 1) * g == q * g + g;
  }

  function Slot(size: nat, start: nat, k: nat): (s: nat)
    requires size > 0
    ensures s < size
  {
    (k + start) % WORD % size
  }

  datatype Wheel<T> = Wheel(slots: seq<seq<T>>, start: nat) {
    predicate Valid(g: nat) {
      Granularity(g) && |slots| == Size(g) && start < Size(g)
    }
  }

  function Empty<T>(g: nat): (w: Wheel<T>)
    requires Granularity(g)
  {
    Wheel(seq(Size(g), _ => []), 0)
  }

  function Armed<T>(g: nat, w: Wheel<T>, item: T, timeout: nat): (r: Wheel<T>)
    requires w.Valid(g)
    ensures r.Valid(g)
  {
    var s := Slot(Size(g), w.start, Steps(g, timeout));
    w.(slots := w.slots[s := w.slots[s] + [item]])
  }

  function Turned<T>(g: nat, w: Wheel<T>): (r: Wheel<T>)
    requires w.Valid(g)
    ensures r.Valid(g)
  {
    Wheel(w.slots[w.start := []], (w.start + 1) % Size(g))
  }
}

/** The wheel as an object. */
module WheelObject {
  import opened WheelSpec

  class TimingWheel<T> {
    const granularity: nat
    var wheel: seq<seq<T>>
    var start: nat

    ghost function State(): Wheel<T>
      reads this
    {
      Wheel(wheel, start)
    }

    constructor (granularity: nat)
      requires Granularity(granularity)
      ensures State() == Empty(granularity) && State().Valid(granularity) && this.granularity == granularity
    {
      this.granularity := granularity;
      wheel, start := seq(SPAN / granularity, _ => []), 0;
    }

    method AddTimeout(item: T, timeout: nat) returns (ok: bool)
      requires State().Valid(granularity) && timeout < WORD
      modifies this`wheel
      ensures ok && State() == Armed(granularity, old(State()), item, timeout) && State().Valid(granularity)
    {
      var idx := timeout / granularity + if timeout % granularity != 0 then 1 else 0;
      idx := (idx + start) % WORD % |wheel|;
      wheel := wheel[idx := wheel[idx] + [item]];
      ok := true;
    }

    /** One turn of the worker; `fired` lists the notifications in the order they are made. */
    method Turn() returns (fired: seq<T>)
      requires State().Valid(granularity)
      modifies this`wheel, this`start
      ensures fired == old(wheel[start])
      ensures State() == Turned(granularity, old(State())) && State().Valid(granularity)
    {
      var ls := wheel[start];
      fired := [];
      for i := 0 to |ls|
        invariant fired == ls[..i]
      {
        fired := fired + [ls[i]];
      }
      wheel := wheel[start := []];
      start := (start + 1) % |wheel|;
    }
  }
}

/** Whole runs of the wheel against a plain list of timers with due ticks. */
module WheelRuns {
  import opened Modular
  import opened Sequences
  import opened IdGeneration
  import opened WheelSpec

  /** `at` is the clock when the step takes the lock. */
  datatype Action<T> = Arm(item: T, timeout: nat, at: nat) | Tick(at: nat)

  /** The wheel after a run, and what each turn fired. */
  datatype Trace<T> = Trace(wheel: Wheel<T>, fired: seq<seq<T>>)

  function Run<T>(g: nat, acts: seq<Action<T>>): (t: Trace<T>)
    requires Granularity(g)
    ensures t.wheel.Valid(g)
  {
    if acts == [] then Trace(Empty(g), [])
    else
      var t := Run(g, Front(acts));
      match Last(acts)
      case Arm(item, timeout, _) => t.(wheel := Armed(g, t.wheel, item, timeout))
      case Tick(_) => Trace(Turned(g, t.wheel), t.fired + [t.wheel.slots[t.wheel.start]])
  }

  // ---------------------------------------------------------------- the reference: timers and due ticks

  /** A timer armed at `at`, to go off at turn `due`, counting turns from 0. */
  datatype Timer<T> = Timer(item: T, timeout: nat, at: nat, armed: nat, due: nat)

  function Turns<T>(acts: seq<Action<T>>): nat {
    if acts == [] then 0 else Turns(Front(acts)) + if Last(acts).Tick? then 1 else 0
  }

  /** How many turns pass before the one that fires. */
  function Delay(g: nat, now: nat, timeout: nat): nat
    requires Granularity(g)
  {
    var size, k := Size(g), Steps(g, timeout);
    if k < size then k else (Slot(size, now % size, k) + size - now % size) % size
  }

  function Timers<T>(g: nat, acts: seq<Action<T>>): seq<Timer<T>>
    requires Granularity(g)
  {
    if acts == [] then []
    else
      var before, now := Timers(g, Front(acts)), Turns(Front(acts));
      match Last(acts)
      case Arm(item, timeout, at) => before + [Timer(item, timeout, at, now, now + Delay(g, now, timeout))]
      case Tick(_) => before
  }

  /** The items due at turn `n`, in the order they were armed. */
  function DueAt<T>(timers: seq<Timer<T>>, n: nat): seq<T> {
    if timers == [] then []
    else DueAt(Front(timers), n) + if Last(timers).due == n then [Last(timers).item] else []
  }

  // ---------------------------------------------------------------- the wheel is the reference

  /** Turn after turn, the slots from `start` on hold what is due. */
  ghost predicate Mirrors<T>(g: nat, t: Trace<T>, timers: seq<Timer<T>>, now: nat)
    requires Granularity(g)
  {
    && |t.wheel.slots| == Size(g) && t.wheel.start == now % Size(g) && |t.fired| == now
    && (forall n :: 0 <= n < now ==> t.fired[n] == DueAt(timers, n))
    && (forall n :: now <= n < now + Size(g) ==> t.wheel.slots[n % Size(g)] == DueAt(timers, n))
    && (forall i :: 0 <= i < |timers| ==> timers[i].due < now + Size(g))
  }

  /** A timer lands in the slot of its due turn, within one round. */
  lemma DelayLands(g: nat, now: nat, timeout: nat)
    requires Granularity(g)
    ensures var size, k := Size(g), Steps(g, timeout);
            && Delay(g, now, timeout) < size
            && (now + Delay(g, now, timeout)) % size == Slot(size, now % size, k)
            && (k < size <==> Delay(g, now, timeout) >= k)
  {
    var size, k, start := Size(g), Steps(g, timeout), now % Size(g);
    var s := Slot(size, start, k);
    if k < size {
      Small(k + start, WORD);
      ResidueMoves(now, k, size);
      Wrapped(k + start, size);
    } else {
      Wrapped(s + size - start, size);
      ResidueMoves(now, Delay(g, now, timeout), size);
    }
  }

  lemma Wrapped(a: nat, size: nat)
    requires size > 0 && a < size + size
    ensures a % size == if a < size then a else a - size
  {
    if a < size {
      Residue(a, size, 0, a);
    } else {
      Residue(a, size, 1, a - size);
    }
  }

  /** Nothing is due past the last due turn. */
  lemma {:induction false} NothingDue<T>(timers: seq<Timer<T>>, n: nat)
    requires forall i :: 0 <= i < |timers| ==> timers[i].due != n
    ensures DueAt(timers, n) == []
  {
    if timers != [] {
      NothingDue(Front(timers), n);
    }
  }

  lemma ArmMirrors<T>(g: nat, t: Trace<T>, timers: seq<Timer<T>>, now: nat, item: T, timeout: nat, at: nat)
    requires Granularity(g) && t.wheel.Valid(g) && Mirrors(g, t, timers, now)
    ensures Mirrors(g, t.(wheel := Armed(g, t.wheel, item, timeout)),
                    timers + [Timer(item, timeout, at, now, now + Delay(g, now, timeout))], now)
  {
    var size, due := Size(g), now + Delay(g, now, timeout);
    DelayLands(g, now, timeout);
    var more := timers + [Timer(item, timeout, at, now, due)];
    assert Front(more) == timers;
    assert forall n :: DueAt(more, n) == DueAt(timers, n) + if due == n then [item] else [];
    var w := Armed(g, t.wheel, item, timeout);
    forall n | now <= n < now + size
      ensures w.slots[n % size] == DueAt(more, n)
    {
      if n < due && n % size == due % size {
        SameSlotApart(n, due, size);
      } else if due < n && n % size == due % size {
        SameSlotApart(due, n, size);
      }
    }
  }

  lemma TickMirrors<T>(g: nat, t: Trace<T>, timers: seq<Timer<T>>, now: nat)
    requires Granularity(g) && t.wheel.Valid(g) && Mirrors(g, t, timers, now)
    ensures Mirrors(g, Trace(Turned(g, t.wheel), t.fired + [t.wheel.slots[t.wheel.start]]), timers, now + 1)
  {
    var size := Size(g);
    ResidueMoves(now, 1, size);
    Wrapped(now % size + 1, size);
    ResidueMoves(now, size, size);
    NothingDue(timers, now + size);
    var w := Turned(g, t.wheel);
    forall n | now < n <= now + size
      ensures w.slots[n % size] == DueAt(timers, n)
    {
      if n < now + size && n % size == now % size {
        SameSlotApart(now, n, size);
      }
    }
  }

  ghost predicate RunOk<T>(g: nat, acts: seq<Action<T>>)
    requires Granularity(g)
  {
    Mirrors(g, Run(g, acts), Timers(g, acts), Turns(acts))
  }

  lemma EmptyOk<T>(g: nat)
    requires Granularity(g)
    ensures RunOk<T>(g, [])
  {
    Small(0, Size(g));
  }

  lemma ArmOk<T>(g: nat, acts: seq<Action<T>>)
    requires Granularity(g) && acts != [] && Last(acts).Arm? && RunOk(g, Front(acts))
    ensures RunOk(g, acts)
  {
    var a := Last(acts);
    ArmMirrors(g, Run(g, Front(acts)), Timers(g, Front(acts)), Turns(Front(acts)), a.item, a.timeout, a.at);
  }

  lemma TickOk<T>(g: nat, acts: seq<Action<T>>)
    requires Granularity(g) && acts != [] && Last(acts).Tick? && RunOk(g, Front(acts))
    ensures RunOk(g, acts)
  {
    TickMirrors(g, Run(g, Front(acts)), Timers(g, Front(acts)), Turns(Front(acts)));
  }

  /** After every run of adds and turns the wheel holds, and has fired, exactly what the list of timers says. */
  lemma {:induction false} RunMirrors<T>(g: nat, acts: seq<Action<T>>)
    requires Granularity(g)
    ensures Mirrors(g, Run(g, acts), Timers(g, acts), Turns(acts))
  {
    if acts == [] {
      EmptyOk<T>(g);
    } else {
      RunMirrors(g, Front(acts));
      if Last(acts).Tick? {
        TickOk(g, acts);
      } else {
        ArmOk(g, acts);
      }
    }
  }

  // ---------------------------------------------------------------- exactly once, and never early

  lemma {:induction false} DueExactly<T>(timers: seq<Timer<T>>, n: nat, x: T)
    ensures x in DueAt(timers, n) <==> exists i :: 0 <= i < |timers| && timers[i].item == x && timers[i].due == n
    ensures |DueAt(timers, n)| <= |timers|
  {
    if timers != [] {
      DueExactly(Front(timers), n, x);
      if i :| 0 <= i < |timers| && timers[i].item == x && timers[i].due == n {
        assert i < |timers| - 1 ==> Front(timers)[i] == timers[i];
      }
    }
  }

  predicate DistinctItems<T(==)>(timers: seq<Timer<T>>) {
    forall i, j :: 0 <= i < j < |timers| ==> timers[i].item != timers[j].item
  }

  lemma {:induction false} DueOnce<T>(timers: seq<Timer<T>>, n: nat)
    requires DistinctItems(timers)
    ensures forall i, j :: 0 <= i < j < |DueAt(timers, n)| ==> DueAt(timers, n)[i] != DueAt(timers, n)[j]
  {
    if timers != [] {
      DueOnce(Front(timers), n);
      var d := DueAt(Front(timers), n);
      forall i | 0 <= i < |d|
        ensures d[i] != Last(timers).item
      {
        DueExactly(Front(timers), n, d[i]);
      }
    }
  }

  /** A timer fires in its due turn and in no other, once, however adds and turns interleave. */
  lemma FiresExactlyOnce<T>(g: nat, acts: seq<Action<T>>, i: nat)
    requires Granularity(g) && i < |Timers(g, acts)| && DistinctItems(Timers(g, acts))
    ensures var f, timer := Run(g, acts).fired, Timers(g, acts)[i];
            && |f| == Turns(acts)
            && (forall n :: 0 <= n < |f| ==> (timer.item in f[n] <==> n == timer.due))
            && (forall n, a, b :: 0 <= n < |f| && 0 <= a < b < |f[n]| ==> f[n][a] != f[n][b])
  {
    var f, timers := Run(g, acts).fired, Timers(g, acts);
    RunMirrors(g, acts);
    forall n | 0 <= n < |f|
      ensures timers[i].item in f[n] <==> n == timers[i].due
      ensures forall a, b :: 0 <= a < b < |f[n]| ==> f[n][a] != f[n][b]
    {
      DueExactly(timers, n, timers[i].item);
      DueOnce(timers, n);
    }
  }

  /** Every timer is due the number of turns its timeout needs after the turn it was armed before, unless that is a round or more. */
  lemma {:induction false} DueTurn<T>(g: nat, acts: seq<Action<T>>, i: nat)
    requires Granularity(g) && i < |Timers(g, acts)|
    ensures var timer := Timers(g, acts)[i];
            var k := Steps(g, timer.timeout);
            && timer.armed <= timer.due < timer.armed + Size(g)
            && (k < Size(g) ==> timer.due == timer.armed + k)
            && (k >= Size(g) ==> timer.due < timer.armed + k)
  {
    var timers := Timers(g, Front(acts));
    if i < |timers| {
      DueTurn(g, Front(acts), i);
    } else {
      DelayLands(g, Turns(Front(acts)), Last(acts).timeout);
    }
  }

  /** Short of the 32-bit wrap, a longer timeout loses its whole rounds. */
  lemma LongDelay(g: nat, now: nat, timeout: nat)
    requires Granularity(g) && Steps(g, timeout) + now % Size(g) < WORD
    ensures Delay(g, now, timeout) == Steps(g, timeout) % Size(g)
  {
    var size, k, start := Size(g), Steps(g, timeout), now % Size(g);
    Small(k + start, WORD);
    ResidueMoves(k, start, size);
    Wrapped(Slot(size, start, k) + size - start, size);
    if k < size {
      Small(k, size);
    }
  }

  lemma CoarseProduct(g: nat, k: nat)
    requires 1 < g
    ensures k + k <= k * g
  {
    MulGap(1, g, k);
  }

  lemma CoarseSteps(g: nat, timeout: nat)
    requires 1 < g
    ensures Steps(g, timeout) + Steps(g, timeout) < timeout + g
  {
    StepsCover(g, timeout);
    CoarseProduct(g, Steps(g, timeout));
  }

  lemma FineSteps(timeout: nat)
    ensures Steps(1, timeout) == timeout
  {
  }

  /**
   * Past the 32-bit wrap, which only the finest wheel can meet, a longer timeout loses 3296 ticks besides, 2^32
   * modulo its 4000 slots: it fires 704 turns after the one its rounds would leave, modulo the wheel.
   */
  lemma WrappedDelay(g: nat, now: nat, timeout: nat)
    requires Granularity(g) && timeout < WORD <= Steps(g, timeout) + now % Size(g)
    ensures g == 1 && Delay(g, now, timeout) == (timeout + 704) % SPAN
  {
    if g > 1 {
      CoarseSteps(g, timeout);
      assert false;
    } else {
      FineDelay(now, timeout);
    }
  }

  lemma FineDelay(now: nat, timeout: nat)
    requires timeout < WORD <= timeout + now % SPAN
    ensures Delay(1, now, timeout) == (timeout + 704) % SPAN
  {
    FineSteps(timeout);
    var start: nat := now % SPAN;
    var w: nat := timeout + start - WORD;
    Residue(timeout + start, WORD, 1, w);
    Small(w, SPAN);
    var d: nat := w + SPAN - start;
    Residue(timeout + 704, SPAN, 1073741, d);
  }

  // ---------------------------------------------------------------- clock time

  /** When each turn took place. */
  function TurnTimes<T>(acts: seq<Action<T>>): (ts: seq<nat>)
    ensures |ts| == Turns(acts)
  {
    if acts == [] then []
    else TurnTimes(Front(acts)) + if Last(acts).Tick? then [Last(acts).at] else []
  }

  /** The clock never goes back, and the worker sleeps at least a granularity between turns. */
  predicate Timed<T>(g: nat, acts: seq<Action<T>>) {
    acts == [] ||
    (var before := Front(acts);
     && Timed(g, before)
     && (before != [] ==> Last(before).at <= Last(acts).at)
     && (Last(acts).Tick? && TurnTimes(before) != [] ==> Last(TurnTimes(before)) + g <= Last(acts).at))
  }

  lemma {:induction false} ArmedEarlier<T>(g: nat, acts: seq<Action<T>>, i: nat)
    requires Granularity(g) && Timed(g, acts) && i < |Timers(g, acts)|
    ensures acts != [] && Timers(g, acts)[i].at <= Last(acts).at
  {
    if i < |Timers(g, Front(acts))| {
      ArmedEarlier(g, Front(acts), i);
    }
  }

  /** The first turn after a timer is armed is not before it. */
  lemma {:induction false} ArmedBefore<T>(g: nat, acts: seq<Action<T>>, i: nat)
    requires Granularity(g) && Timed(g, acts) && i < |Timers(g, acts)|
    ensures var timer := Timers(g, acts)[i];
            && timer.armed <= Turns(acts)
            && (timer.armed < Turns(acts) ==> timer.at <= TurnTimes(acts)[timer.armed])
  {
    if i < |Timers(g, Front(acts))| {
      ArmedBefore(g, Front(acts), i);
      ArmedEarlier(g, Front(acts), i);
    }
  }

  lemma {:induction false} TurnsApart<T>(g: nat, acts: seq<Action<T>>, m: nat, n: nat)
    requires Timed(g, acts) && m <= n < Turns(acts)
    ensures TurnTimes(acts)[m] + (n - m) * g <= TurnTimes(acts)[n]
    decreases |acts|, n
  {
    if n < Turns(Front(acts)) {
      TurnsApart(g, Front(acts), m, n);
    } else if m < n {
      TurnsApart(g, Front(acts), m, n - 1);
      assert (n - m) * g == (n - 1 - m) * g + g;
    }
  }

  /** Timer `i` has not fired, or fired no sooner than its timeout asks. */
  ghost predicate OnTime<T>(g: nat, acts: seq<Action<T>>, i: nat)
    requires Granularity(g) && i < |Timers(g, acts)|
  {
    var timer := Timers(g, acts)[i];
    timer.due < Turns(acts) ==> timer.at + timer.timeout <= TurnTimes(acts)[timer.due]
  }

  /** A timeout that fits the wheel never fires early. */
  lemma NeverEarly<T>(g: nat, acts: seq<Action<T>>, i: nat)
    requires Granularity(g) && Timed(g, acts) && i < |Timers(g, acts)|
    requires Steps(g, Timers(g, acts)[i].timeout) < Size(g)
    ensures OnTime(g, acts, i)
  {
    var timer := Timers(g, acts)[i];
    if timer.due < Turns(acts) {
      DueTurn(g, acts, i);
      StepsCover(g, timer.timeout);
      ArmedBefore(g, acts, i);
      TurnsApart(g, acts, timer.armed, timer.due);
    }
  }

  /** One timer armed at time 0, and `n` turns exactly a granularity apart. */
  function Regular<T>(g: nat, item: T, timeout: nat, n: nat): seq<Action<T>> {
    if n == 0 then [Arm(item, timeout, 0)] else Regular(g, item, timeout, n - 1) + [Tick(Rung(0, g, n - 1))]
  }

  /** What one more turn adds to a run. */
  lemma TickAppends<T>(g: nat, acts: seq<Action<T>>, at: nat)
    requires Granularity(g)
    ensures var all := acts + [Tick(at)];
            && Turns(all) == Turns(acts) + 1 && Timers(g, all) == Timers(g, acts) && TurnTimes(all) == TurnTimes(acts) + [at]
            && (Timed(g, all) <==>
                  && Timed(g, acts) && (acts != [] ==> Last(acts).at <= at)
                  && (TurnTimes(acts) != [] ==> Last(TurnTimes(acts)) + g <= at))
  {
    assert Front(acts + [Tick(at)]) == acts && Last(acts + [Tick(at)]) == Tick(at);
  }

  lemma {:induction false} RegularTimes<T>(g: nat, item: T, timeout: nat, n: nat)
    requires Granularity(g)
    ensures var acts := Regular(g, item, timeout, n);
            && acts != [] && Timed(g, acts) && Turns(acts) == n
            && Last(acts).at == (if n == 0 then 0 else Rung(0, g, n - 1))
            && (forall j :: 0 <= j < n ==> TurnTimes(acts)[j] == Rung(0, g, j))
  {
    if n == 0 {
      OneArm(g, item, timeout);
    } else {
      RegularTimes(g, item, timeout, n - 1);
      TickAppends(g, Regular(g, item, timeout, n - 1), Rung(0, g, n - 1));
    }
  }

  lemma OneArm<T>(g: nat, item: T, timeout: nat)
    requires Granularity(g)
    ensures var acts := [Arm(item, timeout, 0)];
            Timed(g, acts) && Turns(acts) == 0 && Timers(g, acts) == [Timer(item, timeout, 0, 0, Delay(g, 0, timeout))]
  {
    ArmAlone(g, [Arm(item, timeout, 0)], item, timeout);
  }

  lemma ArmAlone<T>(g: nat, acts: seq<Action<T>>, item: T, timeout: nat)
    requires Granularity(g) && |acts| == 1 && acts[0] == Arm(item, timeout, 0)
    ensures Timed(g, acts) && Turns(acts) == 0 && Timers(g, acts) == [Timer(item, timeout, 0, 0, Delay(g, 0, timeout))]
  {
    assert Front(acts) == [] && Last(acts) == acts[0];
    assert Turns(Front(acts)) == 0 && Timers(g, Front(acts)) == [];
  }

  lemma {:induction false} RegularTimers<T>(g: nat, item: T, timeout: nat, n: nat)
    requires Granularity(g)
    ensures Timers(g, Regular(g, item, timeout, n)) == [Timer(item, timeout, 0, 0, Delay(g, 0, timeout))]
  {
    if n == 0 {
      OneArm(g, item, timeout);
    } else {
      RegularTimers(g, item, timeout, n - 1);
      TickAppends(g, Regular(g, item, timeout, n - 1), Rung(0, g, n - 1));
    }
  }

  /** The largest timeout that fits is a granularity short of the whole wheel. */
  lemma FitsIff(g: nat, timeout: nat)
    requires Granularity(g)
    ensures Steps(g, timeout) < Size(g) <==> timeout <= (Size(g) - 1) * g
  {
    var k, size := Steps(g, timeout), Size(g);
    StepsCover(g, timeout);
    assert size * g == (size - 1) * g + g;
    if k < size - 1 {
      MulGap(k, size - 1, g);
    } else if size < k {
      MulGap(size, k, g);
    }
  }

  ghost predicate AlwaysOnTime<T(!new)>(g: nat, timeout: nat)
    requires Granularity(g)
  {
    forall acts: seq<Action<T>>, i: nat ::
      Timed(g, acts) && i < |Timers(g, acts)| && Timers(g, acts)[i].timeout == timeout ==> OnTime(g, acts, i)
  }

  /** Timers with this timeout are on time in every run if and only if it fits the wheel. */
  lemma OnTimeIff<T(!new)>(g: nat, timeout: nat, item: T)
    requires Granularity(g)
    ensures AlwaysOnTime<T>(g, timeout) <==> timeout <= (Size(g) - 1) * g
  {
    FitsIff(g, timeout);
    if Steps(g, timeout) < Size(g) {
      forall acts: seq<Action<T>>, i: nat
        | Timed(g, acts) && i < |Timers(g, acts)| && Timers(g, acts)[i].timeout == timeout
        ensures OnTime(g, acts, i)
      {
        NeverEarly(g, acts, i);
      }
    } else {
      FiresEarly(g, timeout, item);
    }
  }

  /** Turns a granularity apart, counted from the arming, reach the due turn of a longer timeout before it. */
  lemma EarlyBy(g: nat, timeout: nat)
    requires Granularity(g) && Steps(g, timeout) >= Size(g)
    ensures Rung(0, g, Delay(g, 0, timeout)) < timeout
  {
    var d := Delay(g, 0, timeout);
    DelayLands(g, 0, timeout);
    StepsCover(g, timeout);
    RungIs(0, g, d);
    MulGap(d, Steps(g, timeout), g);
  }

  lemma FiresEarly<T>(g: nat, timeout: nat, item: T)
    requires Granularity(g) && Steps(g, timeout) >= Size(g)
    ensures var acts := Regular(g, item, timeout, Delay(g, 0, timeout) + 1);
            Timed(g, acts) && 0 < |Timers(g, acts)| && Timers(g, acts)[0].timeout == timeout && !OnTime(g, acts, 0)
  {
    var n := Delay(g, 0, timeout) + 1;
    RegularTimes(g, item, timeout, n);
    RegularTimers(g, item, timeout, n);
    EarlyBy(g, timeout);
  }

  /** A proposer whose operation timeout is `t` turns its wheel every `t - 1` and arms timers for twice `t`. */
  lemma ProposerTimersIff<T(!new)>(t: nat, item: T)
    requires 1 < t <= SPAN + 1
    ensures AlwaysOnTime<T>(t - 1, t * 2) <==> t <= 1001
  {
    OnTimeIff(t - 1, t * 2, item);
    ProposerFits(t - 1);
  }

  lemma ProposerFits(g: nat)
    requires Granularity(g)
    ensures 2 * (g + 1) <= (Size(g) - 1) * g <==> g <= 1000
  {
    var p := Size(g) * g;
    assert SPAN == p + SPAN % g;
    assert (Size(g) - 1) * g == p - g;
    MulOrder(4, Size(g), g);
    MulOrder(Size(g), 3, g);
  }

  lemma MulOrder(a: nat, b: nat, c: nat)
    ensures a <= b ==> a * c <= b * c
  {
    if a < b {
      MulGap(a, b, c);
    }
  }
}
