/** The least-recently-used map (util/lrumap.hpp): a recency list with an index into it. */
module Lru {
  import opened Ptype
  import opened Sequences

  /** A recency list, most recent first. */
  type Recency<K, V> = seq<(K, V)>

  ghost function Keys<K, V>(r: Recency<K, V>): set<K> {
    set i | 0 <= i < |r| :: r[i].0
  }

  predicate NoDup<K(==), V>(r: Recency<K, V>) {
    forall i, j :: 0 <= i < j < |r| ==> r[i].0 != r[j].0
  }

  function Find<K(==), V>(r: Recency<K, V>, k: K): (o: Option<V>)
    ensures o.None? <==> k !in Keys(r)
    ensures o.Some? ==> (k, o.value) in r
  {
    if r == [] then None
    else if r[0].0 == k then
      assert k in Keys(r);
      Some(r[0].1)
    else
      assert Keys(r) == {r[0].0} + Keys(r[1..]) by {
        KeysCons(r);
      }
      Find(r[1..], k)
  }

  lemma KeysCons<K, V>(r: Recency<K, V>)
    requires r != []
    ensures Keys(r) == {r[0].0} + Keys(r[1..])
  {
    forall k | k in Keys(r)
      ensures k in {r[0].0} + Keys(r[1..])
    {
      var i :| 0 <= i < |r| && r[i].0 == k;
      if i > 0 {
        assert r[1..][i - 1].0 == k;
      }
    }
    forall k | k in Keys(r[1..])
      ensures k in Keys(r)
    {
      var i :| 0 <= i < |r[1..]| && r[1..][i].0 == k;
      assert r[i + 1].0 == k;
    }
  }

  /** The list without key `k`. */
  function Drop<K(==), V>(r: Recency<K, V>, k: K): Recency<K, V> {
    if r == [] then [] else (if r[0].0 == k then [] else [r[0]]) + Drop(r[1..], k)
  }

  function Trim<K, V>(r: Recency<K, V>, cap: nat): Recency<K, V> {
    if |r| <= cap then r else r[..cap]
  }

  datatype Op<K, V> = Put(key: K, val: V) | Get(key: K) | Del(key: K) | Clear

  /** What each operation does to the recency list. */
  function Apply<K(==), V>(r: Recency<K, V>, cap: nat, op: Op<K, V>): Recency<K, V> {
    match op
    case Put(k, v) => Trim([(k, v)] + Drop(r, k), cap)
    case Get(k) =>
      (match Find(r, k)
       case Some(v) => [(k, v)] + Drop(r, k)
       case None => r)
    case Del(k) => Drop(r, k)
    case Clear => []
  }

  function RunOps<K(==), V>(cap: nat, ops: seq<Op<K, V>>): Recency<K, V> {
    if ops == [] then [] else Apply(RunOps(cap, Front(ops)), cap, Last(ops))
  }

  // ---------------------------------------------------------------- the list stays a set of keys of bounded size

  lemma {:induction false} DropKeys<K, V>(r: Recency<K, V>, k: K)
    ensures Keys(Drop(r, k)) == Keys(r) - {k}
    ensures NoDup(r) ==> NoDup(Drop(r, k)) && |Drop(r, k)| == |r| - if k in Keys(r) then 1 else 0
    ensures k !in Keys(r) ==> Drop(r, k) == r
  {
    if r != [] {
      var rest := Drop(r[1..], k);
      DropKeys(r[1..], k);
      KeysCons(r);
      if r[0].0 != k {
        KeysCons([r[0]] + rest);
        assert ([r[0]] + rest)[1..] == rest;
        if NoDup(r) {
          HeadIsNew(r);
          ConsNoDup(r[0], rest);
        }
      } else {
        assert Drop(r, k) == rest;
        if NoDup(r) {
          HeadIsNew(r);
        }
      }
    }
  }

  lemma HeadIsNew<K, V>(r: Recency<K, V>)
    requires r != [] && NoDup(r)
    ensures NoDup(r[1..]) && r[0].0 !in Keys(r[1..])
  {
    forall i | 0 <= i < |r[1..]|
      ensures r[1..][i].0 != r[0].0
    {
      assert r[1..][i] == r[i + 1];
    }
  }

  lemma ConsNoDup<K, V>(x: (K, V), r: Recency<K, V>)
    requires NoDup(r) && x.0 !in Keys(r)
    ensures NoDup([x] + r)
  {
    forall i, j | 0 <= i < j < |[x] + r|
      ensures ([x] + r)[i].0 != ([x] + r)[j].0
    {
      assert ([x] + r)[j] == r[j - 1] && r[j - 1].0 in Keys(r);
    }
  }

  /** A most recent pair put in front of the rest. */
  lemma Fronted<K, V>(r: Recency<K, V>, x: (K, V))
    requires NoDup(r)
    ensures var f := [x] + Drop(r, x.0);
            NoDup(f) && Keys(f) == Keys(r) + {x.0} && |f| == |r| + if x.0 in Keys(r) then 0 else 1
  {
    DropKeys(r, x.0);
    ConsNoDup(x, Drop(r, x.0));
    KeysCons([x] + Drop(r, x.0));
    assert ([x] + Drop(r, x.0))[1..] == Drop(r, x.0);
  }

  /** A put, step by step: the pair in front of the rest, less the last one when there are too many. */
  lemma PutIs<K, V>(r: Recency<K, V>, cap: nat, k: K, v: V)
    requires NoDup(r) && |r| <= cap
    ensures var f := [(k, v)] + Drop(r, k);
            |f| <= cap + 1 && Apply(r, cap, Put(k, v)) == if |f| > cap then Front(f) else f
  {
    DropKeys(r, k);
  }

  lemma ApplyKeeps<K, V>(r: Recency<K, V>, cap: nat, op: Op<K, V>)
    requires NoDup(r) && |r| <= cap
    ensures NoDup(Apply(r, cap, op)) && |Apply(r, cap, op)| <= cap
  {
    match op {
      case Put(k, v) => Fronted(r, (k, v));
      case Get(k) =>
        if Find(r, k).Some? {
          Fronted(r, (k, Find(r, k).value));
        }
      case Del(k) => DropKeys(r, k);
      case Clear =>
    }
  }

  lemma {:induction false} RunKeeps<K, V>(cap: nat, ops: seq<Op<K, V>>)
    ensures NoDup(RunOps(cap, ops)) && |RunOps(cap, ops)| <= cap
  {
    if ops != [] {
      RunKeeps(cap, Front(ops));
      ApplyKeeps(RunOps(cap, Front(ops)), cap, Last(ops));
    }
  }

  // ---------------------------------------------------------------- inclusion: a smaller map is a part of a larger one

  /** `a` is what is left of `b` after leaving out some of its elements. */
  predicate Sub<T(==)>(a: seq<T>, b: seq<T>)
    decreases |b|
  {
    if a == [] then true
    else if b == [] then false
    else if a[0] == b[0] then Sub(a[1..], b[1..])
    else Sub(a, b[1..])
  }

  lemma {:induction false} SubKeys<K, V>(a: Recency<K, V>, b: Recency<K, V>)
    requires Sub(a, b)
    ensures Keys(a) <= Keys(b) && |a| <= |b|
    decreases |b|
  {
    if a != [] {
      KeysCons(b);
      if a[0] == b[0] {
        KeysCons(a);
        SubKeys(a[1..], b[1..]);
      } else {
        SubKeys(a, b[1..]);
      }
    }
  }

  /** Equal values: what the smaller map finds, the larger one finds too. */
  lemma {:induction false} SubFind<K, V>(a: Recency<K, V>, b: Recency<K, V>, k: K)
    requires Sub(a, b) && NoDup(b) && Find(a, k).Some?
    ensures Find(b, k) == Find(a, k)
    decreases |b|
  {
    HeadIsNew(b);
    if a[0] == b[0] {
      if a[0].0 != k {
        SubFind(a[1..], b[1..], k);
      }
    } else {
      SubFind(a, b[1..], k);
      SubKeys(a, b[1..]);
    }
  }

  /** Sub goes on when the larger list gets a further head, unless it equals the smaller one's. */
  lemma SubSkip<K, V>(a: Recency<K, V>, x: (K, V), b: Recency<K, V>)
    requires Sub(a, b) && x.0 !in Keys(a)
    ensures Sub(a, [x] + b)
  {
    assert ([x] + b)[1..] == b;
    if a != [] {
      assert a[0].0 in Keys(a);
    }
  }

  lemma SubCons<T>(x: T, a: seq<T>, b: seq<T>)
    requires Sub(a, b)
    ensures Sub([x] + a, [x] + b)
  {
    assert ([x] + b)[1..] == b && ([x] + a)[1..] == a;
  }

  lemma {:induction false} SubDrop<K, V>(a: Recency<K, V>, b: Recency<K, V>, k: K)
    requires Sub(a, b) && NoDup(b)
    ensures Sub(Drop(a, k), Drop(b, k))
    decreases |b|
  {
    if a != [] {
      HeadIsNew(b);
      if a[0] == b[0] {
        SubDrop(a[1..], b[1..], k);
        if a[0].0 != k {
          SubCons(a[0], Drop(a[1..], k), Drop(b[1..], k));
        } else {
          assert Drop(a, k) == Drop(a[1..], k) && Drop(b, k) == Drop(b[1..], k);
        }
      } else {
        SubDrop(a, b[1..], k);
        SubKeys(a, b[1..]);
        if b[0].0 != k {
          DropKeys(a, k);
          SubSkip(Drop(a, k), b[0], Drop(b[1..], k));
        } else {
          assert Drop(b, k) == Drop(b[1..], k);
        }
      }
    }
  }

  /** A prefix of a part is a part. */
  lemma {:induction false} SubTake<T>(a: seq<T>, b: seq<T>, i: nat)
    requires Sub(a, b) && i <= |a|
    ensures Sub(a[..i], b)
    decreases |b|
  {
    if i > 0 {
      if a[0] == b[0] {
        SubTake(a[1..], b[1..], i - 1);
        assert a[..i][1..] == a[1..][..i - 1];
      } else {
        SubTake(a, b[1..], i);
      }
    }
  }

  /** Dropping the last element on both sides keeps the relation. */
  lemma {:induction false} SubDropLast<T>(a: seq<T>, b: seq<T>)
    requires Sub(a, b) && a != []
    ensures b != [] && Sub(Front(a), Front(b))
    decreases |b|
  {
    if a[0] == b[0] {
      if |a| > 1 {
        SubDropLast(a[1..], b[1..]);
        assert Front(a)[1..] == Front(a[1..]) && Front(b)[1..] == Front(b[1..]);
      }
    } else {
      SubDropLast(a, b[1..]);
      assert Front(b)[1..] == Front(b[1..]);
    }
  }

  /** The smaller map's list is a part of the larger one's, and their sizes differ by no more than their capacities. */
  ghost predicate Included<K, V>(a: Recency<K, V>, n: nat, b: Recency<K, V>, m: nat) {
    && n <= m && NoDup(a) && NoDup(b) && |a| <= n && |b| <= m
    && Sub(a, b) && |b| - |a| <= m - n
  }

  lemma PutIncluded<K, V>(a: Recency<K, V>, n: nat, b: Recency<K, V>, m: nat, k: K, v: V)
    requires Included(a, n, b, m)
    ensures Included(Apply(a, n, Put(k, v)), n, Apply(b, m, Put(k, v)), m)
  {
    ApplyKeeps(a, n, Put(k, v));
    ApplyKeeps(b, m, Put(k, v));
    Fronted(a, (k, v));
    Fronted(b, (k, v));
    SubKeys(a, b);
    SubDrop(a, b, k);
    var fa, fb := [(k, v)] + Drop(a, k), [(k, v)] + Drop(b, k);
    SubCons((k, v), Drop(a, k), Drop(b, k));
    if |fb| <= m {
      if |fa| > n {
        SubTake(fa, fb, n);
      }
    } else {
      assert |fa| == n + 1;
      SubDropLast(fa, fb);
    }
  }

  lemma GetIncluded<K, V>(a: Recency<K, V>, n: nat, b: Recency<K, V>, m: nat, k: K)
    requires Included(a, n, b, m)
    ensures Included(Apply(a, n, Get(k)), n, Apply(b, m, Get(k)), m)
  {
    ApplyKeeps<K, V>(a, n, Get(k));
    ApplyKeeps<K, V>(b, m, Get(k));
    SubKeys(a, b);
    SubDrop(a, b, k);
    if Find(a, k).Some? {
      SubFind(a, b, k);
      var x := (k, Find(a, k).value);
      SubCons(x, Drop(a, k), Drop(b, k));
      Fronted(a, x);
      Fronted(b, x);
    } else if Find(b, k).Some? {
      var x := (k, Find(b, k).value);
      DropKeys(a, k);
      Fronted(b, x);
      SubSkip(a, x, Drop(b, k));
    }
  }

  lemma ApplyIncluded<K, V>(a: Recency<K, V>, n: nat, b: Recency<K, V>, m: nat, op: Op<K, V>)
    requires Included(a, n, b, m)
    ensures Included(Apply(a, n, op), n, Apply(b, m, op), m)
  {
    match op {
      case Put(k, v) => PutIncluded(a, n, b, m, k, v);
      case Get(k) => GetIncluded(a, n, b, m, k);
      case Del(k) =>
        SubKeys(a, b);
        SubDrop(a, b, k);
        DropKeys(a, k);
        DropKeys(b, k);
      case Clear =>
    }
  }

  /** Inclusion over whole runs of the same operations on two capacities. */
  lemma {:induction false} RunIncluded<K, V>(n: nat, m: nat, ops: seq<Op<K, V>>)
    requires n <= m
    ensures Included(RunOps(n, ops), n, RunOps(m, ops), m)
  {
    if ops != [] {
      RunIncluded(n, m, Front(ops));
      ApplyIncluded(RunOps(n, Front(ops)), n, RunOps(m, Front(ops)), m, Last(ops));
    }
  }

  // ---------------------------------------------------------------- contents as the most recently touched keys

  function KeySeq<K, V>(r: Recency<K, V>): (ks: seq<K>)
    ensures |ks| == |r|
    ensures forall i :: 0 <= i < |r| ==> ks[i] == r[i].0
  {
    if r == [] then [] else [r[0].0] + KeySeq(r[1..])
  }

  function Without<K(==)>(ks: seq<K>, k: K): seq<K> {
    if ks == [] then [] else (if ks[0] == k then [] else [ks[0]]) + Without(ks[1..], k)
  }

  /** Each key once, at its first place. */
  function Dedup<K(==)>(ks: seq<K>): seq<K> {
    if ks == [] then [] else [ks[0]] + Without(Dedup(ks[1..]), ks[0])
  }

  function Take<K>(ks: seq<K>, n: nat): seq<K> {
    if |ks| <= n then ks else ks[..n]
  }

  /**
   * The keys touched by a run, latest first: every put, and every get that finds its key, less what was
   * deleted or cleared since.
   */
  function Touched<K(==), V>(cap: nat, ops: seq<Op<K, V>>): seq<K> {
    if ops == [] then []
    else
      var before := Touched(cap, Front(ops));
      match Last(ops)
      case Put(k, _) => [k] + before
      case Get(k) => if Find(RunOps(cap, Front(ops)), k).Some? then [k] + before else before
      case Del(k) => Without(before, k)
      case Clear => []
  }

  /** The value of the latest put of `k`. */
  function LastPut<K(==), V>(ops: seq<Op<K, V>>, k: K): Option<V> {
    if ops == [] then None
    else
      var op := Last(ops);
      if op.Put? && op.key == k then Some(op.val) else LastPut(Front(ops), k)
  }

  lemma {:induction false} KeysOfDrop<K, V>(r: Recency<K, V>, k: K)
    ensures KeySeq(Drop(r, k)) == Without(KeySeq(r), k)
  {
    if r != [] {
      KeysOfDrop(r[1..], k);
      assert KeySeq(r)[1..] == KeySeq(r[1..]);
      if r[0].0 != k {
        assert Drop(r, k)[1..] == Drop(r[1..], k);
      } else {
        assert Drop(r, k) == Drop(r[1..], k);
      }
    }
  }

  lemma {:induction false} WithoutAbsent<K>(ks: seq<K>, k: K)
    ensures k !in Without(ks, k)
    ensures k !in ks ==> Without(ks, k) == ks
    decreases |ks|
  {
    if ks != [] {
      WithoutAbsent(ks[1..], k);
    }
  }

  lemma {:induction false} WithoutDistinct<K>(ks: seq<K>, k: K)
    requires Distinct(ks)
    ensures Distinct(Without(ks, k)) && forall x :: x in Without(ks, k) ==> x in ks
    ensures |Without(ks, k)| == |ks| - if k in ks then 1 else 0
    decreases |ks|
  {
    if ks != [] {
      WithoutDistinct(ks[1..], k);
      assert ks[0] !in ks[1..];
      if ks[0] == k {
        WithoutAbsent(ks[1..], k);
        assert Without(ks, k) == Without(ks[1..], k);
      }
    }
  }

  lemma {:induction false} DedupDistinct<K>(ks: seq<K>)
    ensures Distinct(Dedup(ks))
  {
    if ks != [] {
      DedupDistinct(ks[1..]);
      WithoutDistinct(Dedup(ks[1..]), ks[0]);
      WithoutAbsent(Dedup(ks[1..]), ks[0]);
    }
  }

  /** Removing a key from a prefix, and taking a prefix after removing it. */
  lemma {:induction false} WithoutTake<K>(ks: seq<K>, k: K, n: nat)
    requires Distinct(ks) && n <= |ks|
    ensures k in ks[..n] ==> n > 0 && n - 1 <= |Without(ks, k)| && Without(ks[..n], k) == Without(ks, k)[..n - 1]
    ensures k !in ks[..n] && n < |ks| ==> n <= |Without(ks, k)| && Without(ks, k)[..n] == ks[..n] == Without(ks[..n], k)
    decreases |ks|
  {
    if n > 0 {
      assert ks[..n][1..] == ks[1..][..n - 1];
      WithoutTake(ks[1..], k, n - 1);
      assert ks[..n] == [ks[0]] + ks[1..][..n - 1];
      if ks[0] == k {
        WithoutAbsent(ks[1..], k);
        WithoutAbsent(ks[1..][..n - 1], k);
        assert Without(ks, k) == ks[1..];
        assert Without(ks[..n], k) == ks[1..][..n - 1];
      }
    }
  }

  /** Touching a key that is among the first `cap`, or putting a new one and trimming, is the same on the whole history. */
  lemma TouchTake<K>(d: seq<K>, k: K, cap: nat)
    requires Distinct(d)
    ensures Take([k] + Without(Take(d, cap), k), cap) == Take([k] + Without(d, k), cap)
    ensures k in Take(d, cap) ==> [k] + Without(Take(d, cap), k) == Take([k] + Without(d, k), cap)
  {
    WithoutDistinct(d, k);
    WithoutDistinct(Take(d, cap), k);
    if cap < |d| {
      WithoutTake(d, k, cap);
      var w, t := Without(d, k), Without(d[..cap], k);
      if k in d[..cap] {
        assert ([k] + w)[..cap] == [k] + w[..cap - 1];
      } else if cap > 0 {
        assert ([k] + w)[..cap] == [k] + w[..cap - 1];
        assert ([k] + t)[..cap] == [k] + t[..cap - 1];
        assert w[..cap - 1] == w[..cap][..cap - 1];
      }
    }
  }

  lemma KeysOfFront<K, V>(x: (K, V), r: Recency<K, V>)
    ensures KeySeq([x] + Drop(r, x.0)) == [x.0] + Without(KeySeq(r), x.0)
  {
    KeysOfDrop(r, x.0);
    assert ([x] + Drop(r, x.0))[1..] == Drop(r, x.0);
  }

  lemma KeysOfTrim<K, V>(r: Recency<K, V>, cap: nat)
    ensures KeySeq(Trim(r, cap)) == Take(KeySeq(r), cap)
  {
  }

  lemma FoundIff<K, V>(r: Recency<K, V>, k: K)
    ensures Find(r, k).Some? <==> k in KeySeq(r)
  {
    if k in KeySeq(r) {
      var i :| 0 <= i < |r| && KeySeq(r)[i] == k;
      assert r[i].0 in Keys(r);
    }
    if k in Keys(r) {
      var i :| 0 <= i < |r| && r[i].0 == k;
      assert KeySeq(r)[i] == k;
    }
  }

  predicate PutsAndGets<K, V>(ops: seq<Op<K, V>>) {
    forall i :: 0 <= i < |ops| ==> ops[i].Put? || ops[i].Get?
  }

  /** Without deletions the keys held are exactly the `cap` most recently touched ones, in that order. */
  lemma {:induction false} MostRecentKeys<K, V>(cap: nat, ops: seq<Op<K, V>>)
    requires PutsAndGets(ops)
    ensures KeySeq(RunOps(cap, ops)) == Take(Dedup(Touched(cap, ops)), cap)
    decreases |ops|
  {
    if ops != [] {
      var r, op := RunOps(cap, Front(ops)), Last(ops);
      MostRecentKeys(cap, Front(ops));
      var d := Dedup(Touched(cap, Front(ops)));
      DedupDistinct(Touched(cap, Front(ops)));
      TouchTake(d, op.key, cap);
      FoundIff(r, op.key);
      if op.Put? {
        KeysOfFront((op.key, op.val), r);
        KeysOfTrim([(op.key, op.val)] + Drop(r, op.key), cap);
        TouchedMore(cap, ops);
      } else if Find(r, op.key).Some? {
        KeysOfFront((op.key, Find(r, op.key).value), r);
        TouchedMore(cap, ops);
      }
    }
  }

  lemma TouchedMore<K, V>(cap: nat, ops: seq<Op<K, V>>)
    requires ops != [] && !Last(ops).Clear?
    requires Touched(cap, ops) == [Last(ops).key] + Touched(cap, Front(ops))
    ensures Dedup(Touched(cap, ops)) ==
            [Last(ops).key] + Without(Dedup(Touched(cap, Front(ops))), Last(ops).key)
  {
    assert Touched(cap, ops)[1..] == Touched(cap, Front(ops));
  }

  lemma {:induction false} WithoutTwice<K>(ks: seq<K>, a: K, b: K)
    ensures Without(Without(ks, a), b) == Without(Without(ks, b), a)
    decreases |ks|
  {
    if ks != [] {
      WithoutTwice(ks[1..], a, b);
      WithoutHead(ks, a);
      WithoutHead(ks, b);
      if ks[0] != a {
        WithoutHead([ks[0]] + Without(ks[1..], a), b);
      }
      if ks[0] != b {
        WithoutHead([ks[0]] + Without(ks[1..], b), a);
      }
    }
  }

  lemma WithoutHead<K>(ks: seq<K>, k: K)
    requires ks != []
    ensures Without(ks, k) == if ks[0] == k then Without(ks[1..], k) else [ks[0]] + Without(ks[1..], k)
  {
  }

  lemma {:induction false} DedupWithout<K>(ks: seq<K>, k: K)
    ensures Dedup(Without(ks, k)) == Without(Dedup(ks), k)
    decreases |ks|
  {
    if ks != [] {
      var d := Dedup(ks[1..]);
      DedupWithout(ks[1..], k);
      WithoutHead(ks, k);
      WithoutHead(Dedup(ks), k);
      assert Dedup(ks)[1..] == Without(d, ks[0]);
      if ks[0] == k {
        WithoutAbsent(d, k);
        WithoutAbsent(Without(d, k), k);
      } else {
        assert ([ks[0]] + Without(ks[1..], k))[1..] == Without(ks[1..], k);
        WithoutTwice(d, ks[0], k);
      }
    }
  }

  /** Removing a key from a prefix leaves a prefix. */
  lemma WithoutPrefix<K>(part: seq<K>, all: seq<K>, k: K)
    requires Distinct(all) && part <= all
    ensures Without(part, k) <= Without(all, k)
  {
    WithoutTake(all, k, |part|);
    if |part| == |all| {
      assert part == all;
    }
  }

  /** What a run that may delete does to the keys held. */
  lemma KeysAfter<K, V>(cap: nat, ops: seq<Op<K, V>>)
    requires ops != []
    ensures var r, ks, after := RunOps(cap, Front(ops)), KeySeq(RunOps(cap, Front(ops))), KeySeq(RunOps(cap, ops));
            match Last(ops)
            case Put(k, _) => after == Take([k] + Without(ks, k), cap)
            case Get(k) => after == if Find(r, k).Some? then [k] + Without(ks, k) else ks
            case Del(k) => after == Without(ks, k)
            case Clear => after == []
  {
    var r := RunOps(cap, Front(ops));
    match Last(ops) {
      case Put(k, v) =>
        KeysOfFront((k, v), r);
        KeysOfTrim([(k, v)] + Drop(r, k), cap);
      case Get(k) =>
        if Find(r, k).Some? {
          KeysOfFront((k, Find(r, k).value), r);
        }
      case Del(k) => KeysOfDrop(r, k);
      case Clear =>
    }
  }

  /** With deletions too, the keys held are the most recently touched ones that were not deleted since, as many as the map holds. */
  lemma {:induction false} RecentKeys<K, V>(cap: nat, ops: seq<Op<K, V>>)
    ensures KeySeq(RunOps(cap, ops)) <= Dedup(Touched(cap, ops))
    decreases |ops|
  {
    if ops != [] {
      var ks, d := KeySeq(RunOps(cap, Front(ops))), Dedup(Touched(cap, Front(ops)));
      RecentKeys(cap, Front(ops));
      DedupDistinct(Touched(cap, Front(ops)));
      KeysAfter(cap, ops);
      if !Last(ops).Clear? {
        WithoutPrefix(ks, d, Last(ops).key);
        if Last(ops).Del? {
          DedupWithout(Touched(cap, Front(ops)), Last(ops).key);
        } else if Touched(cap, ops) != Touched(cap, Front(ops)) {
          TouchedMore(cap, ops);
        }
      }
    }
  }

  /** As many as the map holds: a put of a new key adds one unless the map is full, a deletion of a held one takes one. */
  lemma SizeAfter<K, V>(cap: nat, ops: seq<Op<K, V>>)
    requires ops != []
    ensures var r, n := RunOps(cap, Front(ops)), |RunOps(cap, ops)|;
            match Last(ops)
            case Put(k, _) => n == if k !in Keys(r) && |r| < cap then |r| + 1 else |r|
            case Get(_) => n == |r|
            case Del(k) => n == |r| - if k in Keys(r) then 1 else 0
            case Clear => n == 0
  {
    var r := RunOps(cap, Front(ops));
    RunKeeps(cap, Front(ops));
    match Last(ops) {
      case Put(k, v) => DropKeys(r, k);
      case Get(k) => DropKeys(r, k);
      case Del(k) => DropKeys(r, k);
      case Clear =>
    }
  }

  // ---------------------------------------------------------------- deletion

  lemma {:induction false} DropIsSub<K, V>(r: Recency<K, V>, k: K)
    ensures Sub(Drop(r, k), r)
    decreases |r|
  {
    if r != [] {
      DropIsSub(r[1..], k);
      if r[0].0 == k {
        assert Drop(r, k) == Drop(r[1..], k);
        SubLater(Drop(r, k), r[0], r[1..]);
      } else {
        SubCons(r[0], Drop(r[1..], k), r[1..]);
        assert [r[0]] + r[1..] == r;
      }
    }
  }

  /** A part stays a part when the larger list gets a further head. */
  lemma {:induction false} SubLater<T>(a: seq<T>, x: T, b: seq<T>)
    requires Sub(a, b)
    ensures Sub(a, [x] + b)
    decreases |b|, 1
  {
    assert ([x] + b)[1..] == b;
    if a != [] && a[0] == x {
      SubTail(a, b);
    }
  }

  lemma {:induction false} SubTail<T>(a: seq<T>, b: seq<T>)
    requires Sub(a, b) && a != []
    ensures Sub(a[1..], b)
    decreases |b|, 0
  {
    if a[0] == b[0] {
      SubLater(a[1..], b[0], b[1..]);
      assert [b[0]] + b[1..] == b;
    } else {
      SubTail(a, b[1..]);
      SubLater(a[1..], b[0], b[1..]);
      assert [b[0]] + b[1..] == b;
    }
  }

  /** A deleted key is gone; every other key is found as before, and the order of the rest is unchanged. */
  lemma DeletedIsGone<K, V>(cap: nat, ops: seq<Op<K, V>>, k: K)
    ensures var r, after := RunOps(cap, ops), RunOps(cap, ops + [Del(k)]);
            && Find(after, k) == None
            && (forall x :: x != k ==> Find(after, x) == Find(r, x))
            && Sub(after, r) && Keys(after) == Keys(r) - {k}
  {
    var all, r := ops + [Del(k)], RunOps(cap, ops);
    assert Front(all) == ops && Last(all) == Del(k);
    var after := RunOps(cap, all);
    RunKeeps(cap, ops);
    DropKeys(r, k);
    DropIsSub(r, k);
    forall x | x != k
      ensures Find(after, x) == Find(r, x)
    {
      if Find(after, x).Some? {
        SubFind(after, r, x);
      }
    }
  }

  /** The put at `i` is the last thing a run does to `k`: no put or deletion of it comes later, and no clearing. */
  predicate LastSet<K(==), V(==)>(ops: seq<Op<K, V>>, i: nat, k: K, v: V) {
    && i < |ops| && ops[i] == Put(k, v)
    && forall j :: i < j < |ops| ==> !ops[j].Clear? && !((ops[j].Put? || ops[j].Del?) && ops[j].key == k)
  }

  /** Whatever is held was put after the last deletion of its key and after the last clearing, with the value it has. */
  lemma {:induction false} HeldSincePut<K, V>(cap: nat, ops: seq<Op<K, V>>, k: K, v: V) returns (i: nat)
    requires (k, v) in RunOps(cap, ops)
    ensures LastSet(ops, i, k, v)
    decreases |ops|
  {
    var r, op := RunOps(cap, Front(ops)), Last(ops);
    if op == Put(k, v) {
      i := |ops| - 1;
    } else {
      if !op.Clear? {
        DropWithin(r, op.key);
      }
      assert (k, v) in r && !(op.Put? && op.key == k) && !(op.Del? && op.key == k) && !op.Clear?;
      i := HeldSincePut(cap, Front(ops), k, v);
      assert ops == Front(ops) + [op];
    }
  }

  /** Every pair held has the value of the latest put of its key. */
  ghost predicate Latest<K, V>(r: Recency<K, V>, ops: seq<Op<K, V>>) {
    forall i :: 0 <= i < |r| ==> LastPut(ops, r[i].0) == Some(r[i].1)
  }

  lemma {:induction false} DropWithin<K, V>(r: Recency<K, V>, k: K)
    ensures forall x :: x in Drop(r, k) ==> x in r && x.0 != k
  {
    if r != [] {
      DropWithin(r[1..], k);
    }
  }

  lemma {:induction false} ValuesAreLatest<K, V>(cap: nat, ops: seq<Op<K, V>>)
    ensures Latest(RunOps(cap, ops), ops)
    decreases |ops|
  {
    if ops != [] {
      var r, op, r' := RunOps(cap, Front(ops)), Last(ops), RunOps(cap, ops);
      ValuesAreLatest(cap, Front(ops));
      if !op.Clear? {
        DropWithin(r, op.key);
      }
      forall i | 0 <= i < |r'|
        ensures LastPut(ops, r'[i].0) == Some(r'[i].1)
      {
        assert r'[i] in r || (op.Put? && r'[i] == (op.key, op.val));
        assert op.Put? && r'[i] in r && r'[i] != (op.key, op.val) ==> r'[i].0 != op.key;
      }
    }
  }
}

/** The map as an object: a list of nodes, and an index from keys to nodes. */
module LruObject {
  import opened Ptype
  import opened Sequences
  import opened Lru

  /** The nodes a list names. */
  ghost function Ids(order: seq<nat>): (s: set<nat>)
    ensures forall i :: 0 <= i < |order| ==> order[i] in s
  {
    if order == [] then {} else {order[0]} + Ids(order[1..])
  }

  /** What the list shows: `order` names its nodes, `nodes` gives what each of them holds. */
  ghost function Pairs<K, V>(order: seq<nat>, nodes: map<nat, (K, V)>): (r: Recency<K, V>)
    requires Ids(order) <= nodes.Keys
    ensures |r| == |order|
    ensures forall i :: 0 <= i < |r| ==> r[i] == nodes[order[i]]
  {
    if order == [] then [] else [nodes[order[0]]] + Pairs(order[1..], nodes)
  }

  /** The list names every node, each once. */
  ghost predicate Listed<K, V>(order: seq<nat>, nodes: map<nat, (K, V)>) {
    Distinct(order) && Ids(order) == nodes.Keys
  }

  /** The index sends every key to the node that holds it. */
  ghost predicate Indexed<K, V>(nodes: map<nat, (K, V)>, kv: map<K, nat>) {
    && (forall id :: id in nodes ==> nodes[id].0 in kv && kv[nodes[id].0] == id)
    && (forall k :: k in kv ==> kv[k] in nodes && nodes[kv[k]].0 == k)
  }

  ghost predicate Linked<K, V>(order: seq<nat>, nodes: map<nat, (K, V)>, kv: map<K, nat>) {
    Listed(order, nodes) && Indexed(nodes, kv)
  }

  lemma {:induction false} IdAt(order: seq<nat>, id: nat) returns (i: nat)
    requires id in Ids(order)
    ensures i < |order| && order[i] == id
  {
    if order[0] == id {
      i := 0;
    } else {
      i := IdAt(order[1..], id);
      i := i + 1;
    }
  }

  lemma LinkedNoDup<K, V>(order: seq<nat>, nodes: map<nat, (K, V)>, kv: map<K, nat>)
    requires Linked(order, nodes, kv)
    ensures NoDup(Pairs(order, nodes))
  {
    var r := Pairs(order, nodes);
    forall i, j | 0 <= i < j < |r|
      ensures r[i].0 != r[j].0
    {
      assert order[i] != order[j];
    }
  }

  lemma LinkedKeys<K, V>(order: seq<nat>, nodes: map<nat, (K, V)>, kv: map<K, nat>)
    requires Linked(order, nodes, kv)
    ensures kv.Keys == Keys(Pairs(order, nodes)) && |kv| == |order|
  {
    var r := Pairs(order, nodes);
    LinkedNoDup(order, nodes, kv);
    forall k | k in kv
      ensures k in Keys(r)
    {
      var i := IdAt(order, kv[k]);
      assert r[i].0 == k;
    }
    assert kv.Keys == Keys(r);
    KeysSize(r);
  }

  /** A list without repeated keys has one key per element. */
  lemma {:induction false} KeysSize<K, V>(r: Recency<K, V>)
    requires NoDup(r)
    ensures |Keys(r)| == |r|
    decreases |r|
  {
    if r != [] {
      HeadIsNew(r);
      KeysCons(r);
      KeysSize(r[1..]);
    }
  }

  lemma {:induction false} WithoutIds(order: seq<nat>, id: nat)
    requires Distinct(order)
    ensures Ids(Without(order, id)) == Ids(order) - {id}
    ensures Distinct(Without(order, id))
    ensures |Without(order, id)| == |order| - if id in Ids(order) then 1 else 0
    decreases |order|
  {
    WithoutDistinct(order, id);
    if order != [] {
      var rest := Without(order[1..], id);
      WithoutIds(order[1..], id);
      if order[0] == id {
        assert Without(order, id) == rest;
      } else {
        assert Without(order, id)[1..] == rest;
      }
    }
  }

  /** Erasing a node shows as dropping its key. */
  lemma {:induction false} EraseIsDrop<K, V>(order: seq<nat>, nodes: map<nat, (K, V)>, k: K, id: nat)
    requires Distinct(order) && Ids(order) <= nodes.Keys
    requires forall i :: 0 <= i < |order| ==> (nodes[order[i]].0 == k <==> order[i] == id)
    ensures Ids(Without(order, id)) <= nodes.Keys
    ensures Pairs(Without(order, id), nodes) == Drop(Pairs(order, nodes), k)
    decreases |order|
  {
    WithoutIds(order, id);
    if order != [] {
      var rest := Without(order[1..], id);
      EraseIsDrop(order[1..], nodes, k, id);
      assert Pairs(order, nodes)[1..] == Pairs(order[1..], nodes);
      if order[0] == id {
        assert Without(order, id) == rest;
      } else {
        assert Without(order, id) == [order[0]] + rest && ([order[0]] + rest)[1..] == rest;
      }
    }
  }

  /** In a linked list, a key and the node its index entry names go together. */
  lemma IndexPicks<K, V>(order: seq<nat>, nodes: map<nat, (K, V)>, kv: map<K, nat>, k: K)
    requires Linked(order, nodes, kv) && k in kv
    ensures forall i :: 0 <= i < |order| ==> (nodes[order[i]].0 == k <==> order[i] == kv[k])
  {
  }

  /** Pairs depend only on the nodes listed. */
  lemma {:induction false} PairsFrame<K, V>(order: seq<nat>, nodes: map<nat, (K, V)>, other: map<nat, (K, V)>)
    requires Ids(order) <= nodes.Keys && Ids(order) <= other.Keys
    requires forall i :: 0 <= i < |order| ==> other[order[i]] == nodes[order[i]]
    ensures Pairs(order, other) == Pairs(order, nodes)
    decreases |order|
  {
    if order != [] {
      PairsFrame(order[1..], nodes, other);
    }
  }

  lemma IndexErased<K, V>(nodes: map<nat, (K, V)>, kv: map<K, nat>, id: nat)
    requires Indexed(nodes, kv) && id in nodes
    ensures Indexed(nodes - {id}, kv - {nodes[id].0})
  {
  }

  lemma IndexInserted<K, V>(nodes: map<nat, (K, V)>, kv: map<K, nat>, id: nat, k: K, v: V)
    requires Indexed(nodes, kv) && k !in kv && id !in nodes
    ensures Indexed(nodes[id := (k, v)], kv[k := id])
  {
  }

  lemma ConsIds(id: nat, order: seq<nat>)
    requires Distinct(order) && id !in Ids(order)
    ensures Distinct([id] + order) && Ids([id] + order) == {id} + Ids(order)
  {
    var more := [id] + order;
    assert more[1..] == order;
    forall i, j | 0 <= i < j < |more|
      ensures more[i] != more[j]
    {
      assert more[j] == order[j - 1];
    }
  }

  lemma {:induction false} FrontIds(order: seq<nat>)
    requires Distinct(order) && order != []
    ensures Distinct(Front(order)) && Ids(Front(order)) == Ids(order) - {order[|order| - 1]}
    decreases |order|
  {
    if |order| > 1 {
      FrontIds(order[1..]);
      assert Front(order)[1..] == Front(order[1..]);
      assert order[0] != order[|order| - 1];
    }
  }

  lemma PairsCons<K, V>(id: nat, order: seq<nat>, nodes: map<nat, (K, V)>)
    requires id in nodes && Ids(order) <= nodes.Keys
    ensures Ids([id] + order) <= nodes.Keys && Pairs([id] + order, nodes) == [nodes[id]] + Pairs(order, nodes)
  {
    assert ([id] + order)[1..] == order;
  }

  lemma PairsFront<K, V>(order: seq<nat>, nodes: map<nat, (K, V)>)
    requires order != [] && Distinct(order) && Ids(order) <= nodes.Keys
    ensures Ids(Front(order)) <= nodes.Keys && Pairs(Front(order), nodes) == Front(Pairs(order, nodes))
  {
    FrontIds(order);
  }

  lemma ListInserted<K, V>(order: seq<nat>, nodes: map<nat, (K, V)>, id: nat, x: (K, V))
    requires Listed(order, nodes) && id !in nodes
    ensures Listed([id] + order, nodes[id := x])
    ensures Pairs([id] + order, nodes[id := x]) == [x] + Pairs(order, nodes)
  {
    ConsIds(id, order);
    PairsCons(id, order, nodes[id := x]);
    PairsFrame(order, nodes, nodes[id := x]);
  }

  /** Taking the last node off shows as taking the last pair off. */
  lemma ListPopped<K, V>(order: seq<nat>, nodes: map<nat, (K, V)>)
    requires Listed(order, nodes) && order != []
    ensures Listed(Front(order), nodes - {order[|order| - 1]})
    ensures Pairs(Front(order), nodes - {order[|order| - 1]}) == Front(Pairs(order, nodes))
  {
    FrontIds(order);
    PairsFront(order, nodes);
    PairsFrame(Front(order), nodes, nodes - {order[|order| - 1]});
  }

  lemma Erased<K, V>(order: seq<nat>, nodes: map<nat, (K, V)>, kv: map<K, nat>, k: K)
    requires Linked(order, nodes, kv) && k in kv
    ensures Linked(Without(order, kv[k]), nodes - {kv[k]}, kv - {k})
    ensures Pairs(Without(order, kv[k]), nodes - {kv[k]}) == Drop(Pairs(order, nodes), k)
    ensures |Without(order, kv[k])| == |order| - 1
  {
    IndexPicks(order, nodes, kv, k);
    EraseIsDrop(order, nodes, k, kv[k]);
    WithoutIds(order, kv[k]);
    PairsFrame(Without(order, kv[k]), nodes, nodes - {kv[k]});
    IndexErased(nodes, kv, kv[k]);
  }

  /** Moving a node to the front shows as touching its key. */
  lemma Spliced<K, V>(order: seq<nat>, nodes: map<nat, (K, V)>, kv: map<K, nat>, k: K)
    requires Linked(order, nodes, kv) && k in kv
    ensures Linked([kv[k]] + Without(order, kv[k]), nodes, kv)
    ensures Pairs([kv[k]] + Without(order, kv[k]), nodes) == [nodes[kv[k]]] + Drop(Pairs(order, nodes), k)
  {
    IndexPicks(order, nodes, kv, k);
    EraseIsDrop(order, nodes, k, kv[k]);
    WithoutIds(order, kv[k]);
    ConsIds(kv[k], Without(order, kv[k]));
    PairsCons(kv[k], Without(order, kv[k]), nodes);
  }

  /** The node a key points to holds the value the list gives for it. */
  lemma {:induction false} FindAt<K, V>(r: Recency<K, V>, i: nat)
    requires NoDup(r) && i < |r|
    ensures Find(r, r[i].0) == Some(r[i].1)
    decreases |r|
  {
    HeadIsNew(r);
    if i > 0 {
      assert r[1..][i - 1] == r[i] && r[i].0 in Keys(r[1..]);
      FindAt(r[1..], i - 1);
    }
  }

  lemma IndexFinds<K, V>(order: seq<nat>, nodes: map<nat, (K, V)>, kv: map<K, nat>, k: K)
    requires Linked(order, nodes, kv) && k in kv
    ensures Find(Pairs(order, nodes), k) == Some(nodes[kv[k]].1)
  {
    LinkedNoDup(order, nodes, kv);
    var i := IdAt(order, kv[k]);
    FindAt(Pairs(order, nodes), i);
  }

  class LruMap<K(==), V> {
    const maxSize: nat
    var order: seq<nat>
    var nodes: map<nat, (K, V)>
    var kv: map<K, nat>
    var spare: nat

    ghost predicate Valid()
      reads this
    {
      Linked(order, nodes, kv) && |order| <= maxSize && forall id :: id in nodes ==> id < spare
    }

    ghost function Contents(): Recency<K, V>
      requires Valid()
      reads this
    {
      Pairs(order, nodes)
    }

    constructor (maxSize: nat)
      ensures Valid() && Contents() == [] && this.maxSize == maxSize
    {
      this.maxSize := maxSize;
      order, nodes, kv, spare := [], map[], map[], 0;
    }

    /** Takes the node of `key` out of the list if there is one. */
    method Unlink(key: K) returns (found: bool)
      requires Valid()
      modifies this`order, this`nodes, this`kv
      ensures Valid() && Contents() == Drop(old(Contents()), key)
      ensures key !in kv && nodes.Keys <= old(nodes).Keys
      ensures found <==> key in Keys(old(Contents()))
    {
      LinkedKeys(order, nodes, kv);
      found := key in kv;
      if found {
        Erased(order, nodes, kv, key);
        order, nodes, kv := Without(order, kv[key]), nodes - {kv[key]}, kv - {key};
      } else {
        DropKeys(Pairs(order, nodes), key);
      }
    }

    /** Puts a new node in front, for a key that has none. */
    method Link(key: K, value: V)
      requires Linked(order, nodes, kv) && key !in kv && forall id :: id in nodes ==> id < spare
      modifies this`order, this`nodes, this`kv, this`spare
      ensures Linked(order, nodes, kv) && forall id :: id in nodes ==> id < spare
      ensures Pairs(order, nodes) == [(key, value)] + old(Pairs(order, nodes))
    {
      ListInserted(order, nodes, spare, (key, value));
      IndexInserted(nodes, kv, spare, key, value);
      order, nodes, kv, spare := [spare] + order, nodes[spare := (key, value)], kv[key := spare], spare + 1;
    }

    /** Takes the last node off the list. */
    method PopBack()
      requires Linked(order, nodes, kv) && order != []
      modifies this`order, this`nodes, this`kv
      ensures Linked(order, nodes, kv) && nodes.Keys <= old(nodes).Keys
      ensures Pairs(order, nodes) == Front(old(Pairs(order, nodes)))
    {
      ListPopped(order, nodes);
      var last := order[|order| - 1];
      IndexErased(nodes, kv, last);
      order, nodes, kv := order[..|order| - 1], nodes - {last}, kv - {nodes[last].0};
    }

    /** The new node goes to the front, the key's old one goes, and the last one goes when there are too many. */
    method Put(key: K, value: V)
      requires Valid()
      modifies this`order, this`nodes, this`kv, this`spare
      ensures Valid() && Contents() == Apply(old(Contents()), maxSize, Op.Put(key, value))
    {
      LinkedNoDup(order, nodes, kv);
      PutIs(Contents(), maxSize, key, value);
      var _ := Unlink(key);
      Link(key, value);
      LinkedKeys(order, nodes, kv);
      if |kv| > maxSize {
        PopBack();
      }
    }

    method GetPtr(key: K) returns (r: Option<V>)
      requires Valid()
      modifies this`order
      ensures Valid() && Contents() == Apply(old(Contents()), maxSize, Op.Get(key))
      ensures r == Find(old(Contents()), key)
    {
      LinkedKeys(order, nodes, kv);
      if key !in kv {
        return None;
      }
      IndexFinds(order, nodes, kv, key);
      Spliced(order, nodes, kv, key);
      WithoutIds(order, kv[key]);
      order := [kv[key]] + Without(order, kv[key]);
      r := Some(nodes[kv[key]].1);
    }

    method Del(key: K) returns (found: bool)
      requires Valid()
      modifies this`order, this`nodes, this`kv
      ensures Valid() && Contents() == Apply(old(Contents()), maxSize, Op.Del(key))
      ensures found <==> key in Keys(old(Contents()))
    {
      found := Unlink(key);
    }

    method Clear()
      requires Valid()
      modifies this`order, this`nodes, this`kv
      ensures Valid() && Contents() == []
    {
      order, nodes, kv := [], map[], map[];
    }

    method Size() returns (n: nat)
      requires Valid()
      ensures n == |Contents()|
    {
      LinkedKeys(order, nodes, kv);
      n := |kv|;
    }
  }
}
