/** Which member of each paxos group a server is (core/paxos_group.cpp). */
module PaxosGroup {
  import opened Ptype
  import opened ProposerSpec
  import ProposalIds

  /** 0, 1, …, n - 1. */
  function Range(n: nat): (s: seq<int>)
    ensures |s| == n && forall i :: 0 <= i < n ==> s[i] == i
  {
    if n == 0 then [] else Range(n - 1) + [n - 1]
  }

  /** One row of a member table: the server behind each member, every server once. */
  ghost predicate Arrangement(row: seq<int>, n: nat) {
    multiset(row) == multiset(Range(n))
  }

  /** The place of `x` in `row`, or -1. */
  function First(row: seq<int>, x: int): (p: int)
    ensures -1 <= p < |row|
    ensures p == -1 <==> x !in row
    ensures p >= 0 ==> row[p] == x && x !in row[..p]
  {
    if row == [] then -1
    else if row[0] == x then 0
    else
      var p := First(row[1..], x);
      assert row == [row[0]] + row[1..];
      assert p >= 0 ==> row[..p + 1] == [row[0]] + row[1..][..p];
      if p == -1 then -1 else p + 1
  }

  lemma RangeCounts(n: nat, x: int)
    ensures multiset(Range(n))[x] == if 0 <= x < n then 1 else 0
  {
    if n > 0 {
      RangeCounts(n - 1, x);
    }
  }

  /** An element met twice counts twice. */
  lemma TwiceCounts(row: seq<int>, i: nat, j: nat)
    requires i < j < |row| && row[i] == row[j]
    ensures multiset(row)[row[i]] >= 2
  {
    assert row == row[..i] + [row[i]] + row[i + 1..j] + [row[j]] + row[j + 1..];
  }

  /** Every row of a table pairs members and servers one to one. */
  lemma ArrangementPairs(row: seq<int>, n: nat)
    requires Arrangement(row, n)
    ensures |row| == n
    ensures forall i :: 0 <= i < n ==> 0 <= row[i] < n
    ensures forall i, j :: 0 <= i < j < n ==> row[i] != row[j]
    ensures forall x :: 0 <= x < n ==> x in row
  {
    assert |multiset(row)| == |row| && |multiset(Range(n))| == n;
    forall i | 0 <= i < n
      ensures 0 <= row[i] < n
    {
      RangeCounts(n, row[i]);
      assert row[i] in multiset(row);
    }
    forall i, j | 0 <= i < j < n
      ensures row[i] != row[j]
    {
      if row[i] == row[j] {
        TwiceCounts(row, i, j);
        RangeCounts(n, row[i]);
      }
    }
    forall x | 0 <= x < n
      ensures x in row
    {
      RangeCounts(n, x);
      assert x in multiset(row);
    }
  }

  /** The reverse of a row undoes it, from servers to members and back. */
  lemma ReverseUndoes(row: seq<int>, n: nat)
    requires Arrangement(row, n)
    ensures |row| == n
    ensures forall s :: 0 <= s < n ==> 0 <= First(row, s) < n && row[First(row, s)] == s
    ensures forall m :: 0 <= m < n ==> 0 <= row[m] < n && First(row, row[m]) == m
  {
    ArrangementPairs(row, n);
    forall m | 0 <= m < n
      ensures First(row, row[m]) == m
    {
      var p := First(row, row[m]);
      assert row[p] == row[m];
    }
  }

  /** Two servers of one group never issue the same pid in it, whatever happens to either of them. */
  lemma ServersNeverCollide(row: seq<int>, n: nat, s: int, t: int, total: nat, vs: nat, vt: nat,
                            es: seq<Event>, et: seq<Event>)
    requires Arrangement(row, n) && 0 <= s < n && 0 <= t < n && s != t
    ensures 0 <= First(row, s) < n && 0 <= First(row, t) < n && First(row, s) != First(row, t)
    ensures var a := ProposalIds.Issued(total, Initial(First(row, s), n, vs), es);
            var b := ProposalIds.Issued(total, Initial(First(row, t), n, vt), et);
            forall i, j :: 0 <= i < |a| && 0 <= j < |b| ==> a[i].1 != b[j].1
  {
    ReverseUndoes(row, n);
    ProposalIds.MembersNeverCollide(total, n, First(row, s), First(row, t), vs, vt, es, et);
  }

  /** A library step from one arrangement to the next; it only reorders what it is given. */
  ghost predicate Reorders(next: seq<int> -> Option<seq<int>>) {
    forall s :: next(s).Some? ==> multiset(next(s).value) == multiset(s)
  }

  /** `rows` are the `m` arrangements counted from `arr` up to the last one. */
  ghost predicate Complete(rows: seq<seq<int>>, arr: seq<int>, m: nat, next: seq<int> -> Option<seq<int>>) {
    && 0 < |rows| == m && rows[0] == arr
    && (forall i :: 0 < i < m ==> next(rows[i - 1]) == Some(rows[i]))
    && next(rows[m - 1]) == None
  }

  lemma GoesOn(rows: seq<seq<int>>, arr: seq<int>, m: nat, next: seq<int> -> Option<seq<int>>, k: nat)
    requires Complete(rows, arr, m, next) && 0 < k <= m
    ensures next(rows[k - 1]).Some? <==> k < m
  {
    assert k < m ==> next(rows[k - 1]) == Some(rows[k]);
  }

  /** Fills the table; fails exactly where the source asserts, when there are not `m` arrangements. */
  method GenGroup(arr: seq<int>, m: nat, next: seq<int> -> Option<seq<int>>) returns (rows: Option<seq<seq<int>>>)
    requires Reorders(next)
    ensures forall t :: Complete(t, arr, m, next) <==> rows == Some(t)
    ensures rows.Some? ==> forall i :: 0 <= i < |rows.value| ==> multiset(rows.value[i]) == multiset(arr)
  {
    if m == 0 {
      return None;
    }
    var cur, out := arr, [arr];
    while next(cur).Some?
      invariant 0 < |out| <= m && out[0] == arr && out[|out| - 1] == cur
      invariant forall i :: 0 <= i < |out| ==> multiset(out[i]) == multiset(arr)
      invariant forall i :: 0 < i < |out| ==> next(out[i - 1]) == Some(out[i])
      invariant forall t :: Complete(t, arr, m, next) ==> t[..|out|] == out
      decreases m - |out|
    {
      forall t | Complete(t, arr, m, next)
        ensures |out| < m && t[..|out| + 1] == out + [next(cur).value]
      {
        GoesOn(t, arr, m, next, |out|);
        assert t[..|out|][|out| - 1] == cur;
      }
      if |out| == m {
        return None;
      }
      cur := next(cur).value;
      out := out + [cur];
    }
    forall t | Complete(t, arr, m, next)
      ensures |out| == m && t == out
    {
      GoesOn(t, arr, m, next, |out|);
      assert t[..|out|][|out| - 1] == cur;
      assert t == t[..m];
    }
    return if |out| == m then Some(out) else None;
  }

  function Row(a: array2<int>, i: nat): (s: seq<int>)
    requires i < a.Length0
    reads a
    ensures |s| == a.Length1 && forall k :: 0 <= k < a.Length1 ==> s[k] == a[i, k]
  {
    seq(a.Length1, k requires 0 <= k < a.Length1 reads a => a[i, k])
  }

  /** Fills each row of `out` with the places of 0, 1, … in the same row of `table`. */
  method GenGroupReverse(table: array2<int>, out: array2<int>)
    requires table != out && table.Length0 == out.Length0 && table.Length1 == out.Length1
    modifies out
    ensures forall i, j :: 0 <= i < out.Length0 && 0 <= j < out.Length1 ==> out[i, j] == First(Row(table, i), j)
  {
    for i := 0 to table.Length0
      invariant forall a, j :: 0 <= a < i && 0 <= j < out.Length1 ==> out[a, j] == First(Row(table, a), j)
    {
      for j := 0 to table.Length1
        invariant forall a, b :: 0 <= a < i && 0 <= b < out.Length1 ==> out[a, b] == First(Row(table, a), b)
        invariant forall b :: 0 <= b < j ==> out[i, b] == First(Row(table, i), b)
      {
        var p, k := -1, 0;
        while k < table.Length1
          invariant 0 <= k <= table.Length1 && p == -1 && j !in Row(table, i)[..k]
        {
          if table[i, k] == j {
            p := k;
            break;
          }
          assert Row(table, i)[..k + 1] == Row(table, i)[..k] + [table[i, k]];
          k := k + 1;
        }
        FirstAt(Row(table, i), j, k);
        out[i, j] := p;
      }
    }
  }

  /** The scan has found the first place, or none, when it stops at `k`. */
  lemma {:induction false} FirstAt(row: seq<int>, x: int, k: nat)
    requires k <= |row| && x !in row[..k] && (k < |row| ==> row[k] == x)
    ensures First(row, x) == if k < |row| then k else -1
    decreases k
  {
    if k > 0 {
      var rest := row[1..][..k - 1];
      forall j | 0 <= j < |rest|
        ensures rest[j] != x
      {
        assert rest[j] == row[..k][j + 1];
      }
      FirstAt(row[1..], x, k - 1);
    }
  }

  class Group {
    const groups: nat
    const members: nat
    var mapping: array2<int>
    var reverse: array2<int>

    ghost predicate Valid()
      reads this, mapping, reverse
    {
      && groups > 0
      && mapping.Length0 == groups == reverse.Length0 && mapping.Length1 == members == reverse.Length1
      && (forall i :: 0 <= i < groups ==> Arrangement(Row(mapping, i), members))
      && (forall i, j :: 0 <= i < groups && 0 <= j < members ==> reverse[i, j] == First(Row(mapping, i), j))
    }

    constructor (groups: nat, members: nat, rows: seq<seq<int>>)
      requires groups > 0 && |rows| == groups
      requires forall i :: 0 <= i < groups ==> |rows[i]| == members && Arrangement(rows[i], members)
      ensures Valid() && this.groups == groups && this.members == members
      ensures forall i :: 0 <= i < groups ==> Row(mapping, i) == rows[i]
    {
      this.groups, this.members := groups, members;
      var table := new int[groups, members]((i, j) requires 0 <= i < groups && 0 <= j < members => rows[i][j]);
      var back := new int[groups, members];
      mapping, reverse := table, back;
      new;
      assert forall i :: 0 <= i < groups ==> Row(table, i) == rows[i];
      GenGroupReverse(table, back);
      assert forall i :: 0 <= i < groups ==> Row(table, i) == rows[i];
    }

    method GetMemberIdBySvrId(pinst: nat, id: int) returns (m: int)
      requires Valid()
      ensures id < 0 || id >= members ==> m == -1
      ensures 0 <= id < members ==> 0 <= m < members && Row(mapping, pinst % groups)[m] == id
    {
      if id < 0 || id >= members {
        return -1;
      }
      ReverseUndoes(Row(mapping, pinst % groups), members);
      m := reverse[pinst % groups, id];
    }

    method GetSvrIdByMemberId(pinst: nat, id: int) returns (s: int)
      requires Valid()
      ensures id < 0 || id >= members ==> s == -1
      ensures 0 <= id < members ==> 0 <= s < members && First(Row(mapping, pinst % groups), s) == id
    {
      if id < 0 || id >= members {
        return -1;
      }
      ReverseUndoes(Row(mapping, pinst % groups), members);
      s := mapping[pinst % groups, id];
    }

    method GetPaxosGroupMember(pinst: nat, out: array<int>) returns (r: int)
      requires Valid()
      modifies out
      ensures out.Length != members ==> r == -1 && out[..] == old(out[..])
      ensures out.Length == members ==> r == members && out[..] == Row(mapping, pinst % groups)
    {
      if out.Length != members {
        return -1;
      }
      forall i | 0 <= i < members {
        out[i] := mapping[pinst % groups, i];
      }
      assert out[..] == Row(mapping, pinst % groups);
      r := members;
    }
  }
}
