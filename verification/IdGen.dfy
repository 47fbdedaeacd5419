/** Proposal-id generation (util/idgen.hpp). */
module IdGeneration {
  import opened Modular

  /** `x` is reached from `start` by whole steps. */
  ghost predicate OnTrack(start: nat, step: nat, x: nat) {
    exists k: nat :: x == start + k * step
  }

  /** The id after stepping on until `v` is reached. */
  function Jump(id: nat, step: nat, v: nat): nat
    requires step > 0
    decreases v - id
  {
    if v <= id then id else Jump(id + step, step, v)
  }

  /** A jump lands on the least id at or after both `id` and `v` that is on the generator's track. */
  lemma {:induction false} JumpIsLeast(id: nat, step: nat, v: nat)
    requires step > 0
    ensures OnTrack(id, step, Jump(id, step, v))
    ensures id <= Jump(id, step, v) && v <= Jump(id, step, v)
    ensures forall k: nat :: v <= id + k * step ==> Jump(id, step, v) <= id + k * step
    decreases v - id
  {
    TrackStarts(id, step);
    if v <= id {
      assert forall k: nat :: 0 <= k * step;
    } else {
      JumpIsLeast(id + step, step, v);
      TrackGoesOn(id, step, id);
      TrackCompose(id, step, id + step, Jump(id, step, v));
      forall k: nat | v <= id + k * step
        ensures Jump(id, step, v) <= id + k * step
      {
        if k > 0 {
          var j: nat := k - 1;
          assert id + k * step == id + step + j * step;
        }
      }
    }
  }

  lemma DivideMore(a: nat, m: nat)
    requires m > 0
    ensures (a + m) / m == a / m + 1
  {
    var q := a / m;
    assert a == q * m + a % m;
    assert (q + 1) * m == q * m + m;
    Residue(a + m, m, q + 1, a % m);
    var p := (a + m) / m;
    assert p * m == (q + 1) * m;
    if p < q + 1 {
      MulGap(p, q + 1, m);
    } else if q + 1 < p {
      MulGap(q + 1, p, m);
    }
  }

  /** The jump in one division, as the generator computes it. */
  lemma {:induction false} JumpDivides(id: nat, step: nat, v: nat)
    requires step > 0 && id < v
    ensures Jump(id, step, v) == id + (v - id + step - 1) / step * step
    decreases v - id
  {
    DivideMore(v - id - 1, step);
    var q := (v - id - 1) / step;
    assert (q + 1) * step == q * step + step;
    if id + step < v {
      JumpDivides(id + step, step, v);
    } else {
      assert q == 0;
    }
  }

  lemma TrackCompose(start: nat, step: nat, x: nat, y: nat)
    requires OnTrack(start, step, x) && OnTrack(x, step, y)
    ensures OnTrack(start, step, y)
  {
    var k: nat :| x == start + k * step;
    var l: nat :| y == x + l * step;
    assert y == start + (k + l) * step;
  }

  lemma TrackStarts(start: nat, step: nat)
    ensures OnTrack(start, step, start)
  {
    assert start == start + 0 * step;
  }

  lemma TrackGoesOn(start: nat, step: nat, x: nat)
    requires OnTrack(start, step, x)
    ensures OnTrack(start, step, x + step)
  {
    var k: nat :| x == start + k * step;
    assert x + step == start + (k + 1) * step;
  }

  /** The id after `k` steps. */
  function Rung(start: nat, step: nat, k: nat): nat {
    if k == 0 then start else Rung(start, step, k - 1) + step
  }

  lemma {:induction false} RungIs(start: nat, step: nat, k: nat)
    ensures Rung(start, step, k) == start + k * step
  {
    if k > 0 {
      RungIs(start, step, k - 1);
      assert k * step == (k - 1) * step + step;
    }
  }

  /** Tracks that start at different members of one round never meet. */
  lemma TracksDisjoint(a: nat, b: nat, step: nat, x: nat)
    requires a < step && b < step
    requires OnTrack(a + 1, step, x) && OnTrack(b + 1, step, x)
    ensures a == b
  {
    var k: nat :| x == a + 1 + k * step;
    var l: nat :| x == b + 1 + l * step;
    if k < l {
      MulGap(k, l, step);
    } else if l < k {
      MulGap(l, k, step);
    }
  }

  class IdGen {
    var id: nat
    var step: nat

    constructor (start: nat, step: nat)
      ensures id == start && this.step == step
    {
      id, this.step := start, step;
    }

    method GetAndInc() returns (v: nat)
      modifies this`id
      ensures v == old(id) && id == old(id) + step
    {
      v := id;
      id := id + step;
    }

    method Reset(start: nat)
      modifies this`id
      ensures id == start
    {
      id := start;
    }

    /** Never moves back, reaches `v`, stays on track and takes no more steps than needed. */
    method SetGreaterThan(v: nat) returns (r: nat)
      requires step > 0
      modifies this`id
      ensures r == id == Jump(old(id), step, v)
      ensures old(id) <= id && v <= id && OnTrack(old(id), step, id)
      ensures forall k: nat :: v <= old(id) + k * step ==> id <= old(id) + k * step
    {
      JumpIsLeast(id, step, v);
      if v <= id {
        return id;
      }
      JumpDivides(id, step, v);
      id := id + (v - id + step - 1) / step * step;
      r := id;
    }
  }
}
