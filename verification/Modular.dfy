/** Facts about residues that tickets, pids and wheel slots share. */
module Modular {

  lemma {:induction false} MulGap(a: nat, b: nat, c: nat)
    requires a < b
    ensures a * c + c <= b * c
  {
    if a + 1 < b {
      MulGap(a, b - 1, c);
    }
    assert b * c == (b - 1) * c + c;
  }

  /** Two numbers with one residue are a whole round apart. */
  lemma SameSlotApart(k: nat, l: nat, size: nat)
    requires size > 0 && k < l && k % size == l % size
    ensures k + size <= l
  {
    var a, b := k / size, l / size;
    assert k == a * size + k % size && l == b * size + l % size;
    if a < b {
      MulGap(a, b, size);
    }
  }

  lemma Small(a: nat, m: nat)
    requires a < m
    ensures a % m == a
  {
  }

  /** A residue and its number go round together. */
  lemma Residue(a: nat, size: nat, q: nat, r: nat)
    requires size > 0 && a == q * size + r && r < size
    ensures a % size == r
  {
    var p := a / size;
    assert a == p * size + a % size;
    if p < q {
      MulGap(p, q, size);
    } else if q < p {
      MulGap(q, p, size);
    }
  }

  /** Adding less than a round moves the residue by as much, or by a round less. */
  lemma ResidueMoves(a: nat, d: nat, size: nat)
    requires d <= size && size > 0
    ensures (a + d) % size == if a % size + d < size then a % size + d else a % size + d - size
  {
    var q, r := a / size, a % size;
    assert a == q * size + r;
    if r + d < size {
      Residue(a + d, size, q, r + d);
    } else {
      assert (q + 1) * size == q * size + size;
      Residue(a + d, size, q + 1, r + d - size);
    }
  }

  lemma MulSplit(a: nat, b: nat, c: nat)
    ensures (a + b) * c == a * c + b * c && 0 <= b * c
  {
  }
}
