/** The log of one paxos instance: its entries and its watermarks (core/plog.h, core/plog.cpp). */
module Plog {
  import opened Ptype

  /** One log entry: the promise it is bound by and the proposal it has accepted. */
  datatype Entry = Entry(promised: Option<Proposal>, accepted: Option<Proposal>) {

    function Status(): nat {
      if accepted.Some? then accepted.value.status
      else if promised.Some? then promised.value.status
      else INVALID_PROPOSAL
    }

    predicate Chosen() {
      accepted.Some? && accepted.value.status == CHOSEN
    }
  }

  const EMPTY: Entry := Entry(None, None)

  /** What the request handlers can see and change of a log. */
  datatype Log = Log(entries: map<nat, Entry>, lastChosen: nat, globalMax: nat, maxInUse: nat) {

    function At(e: nat): Entry {
      if e in entries then entries[e] else EMPTY
    }
  }

  const FRESH: Log := Log(map[], NONE, NONE, NONE)

  /** `current` raised to `e`, where the sentinel counts as "nothing yet". */
  function Raise(current: nat, e: nat): nat {
    if current == NONE || current < e then e else current
  }

  /** The log once entry `e` is cached; `stored` is what storage holds for it. */
  function Created(g: Log, e: nat, stored: Option<Entry>): Log {
    if e in g.entries then g
    else
      var unseen := g.maxInUse == NONE || e > g.maxInUse;
      var ent := if unseen && stored.Some? then stored.value else EMPTY;
      g.(entries := g.entries[e := ent], maxInUse := Raise(g.maxInUse, e))
  }

  /** The log with entry `e` replaced. */
  function With(g: Log, e: nat, ent: Entry): Log {
    g.(entries := g.entries[e := ent])
  }

  /** The log once an uncached entry has been looked up in storage. */
  function Fetched(g: Log, e: nat, stored: Option<Entry>): Log {
    if e in g.entries || stored.None? then g else With(g, e, stored.value)
  }

  /** The log after entry `e` was saved as chosen. */
  function MarkedChosen(g: Log, e: nat): Log {
    g.(lastChosen := Raise(g.lastChosen, e), globalMax := Raise(g.globalMax, e))
  }

  /** One answer of the storage layer to a batched read. */
  datatype Batch = Failed(code: int) | Loaded(entries: seq<(nat, Entry)>)

  /** Storage content of one instance. */
  type Disk = map<nat, Entry>

  /** The run lists stored entries from `start` on in ascending order and skips none in between. */
  ghost predicate Contiguous(disk: Disk, start: nat, run: seq<(nat, Entry)>)
    decreases |run|
  {
    run != [] ==>
      && start <= run[0].0
      && run[0].0 in disk
      && disk[run[0].0] == run[0].1
      && (forall e :: e in disk && start <= e ==> run[0].0 <= e)
      && Contiguous(disk, run[0].0 + 1, run[1..])
  }

  /** A successful batched read; an empty one says that nothing is stored from `start` on. */
  ghost predicate GoodBatch(disk: Disk, start: nat, run: seq<(nat, Entry)>) {
    Contiguous(disk, start, run) && (run == [] ==> forall e :: e in disk ==> e < start)
  }

  /** The entries below `end`; the sentinel asks for all of them. */
  ghost function Below(disk: Disk, end: nat): Disk {
    if end == NONE then disk else map e | e in disk && e < end :: disk[e]
  }

  ghost predicate GoodLoader(disk: Disk, load: (nat, nat) -> Batch) {
    forall start, end :: load(start, end).Loaded? ==> GoodBatch(Below(disk, end), start, load(start, end).entries)
  }
}

/** The manager of one log instance, updated in place (core/plog.cpp). */
module EntryManager {
  import opened Ptype
  import opened Plog

  /** The five watermarks that recovery computes. */
  datatype Marks = Marks(lastChosen: nat, maxContinue: nat, firstUnchosen: nat, firstValid: nat, maxInUse: nat)

  ghost function ChosenIn(part: Disk): set<nat> {
    set e | e in part && part[e].Status() == CHOSEN
  }

  ghost function UnchosenIn(part: Disk): set<nat> {
    set e | e in part && part[e].Status() != CHOSEN
  }

  ghost predicate IsMax(r: nat, base: nat, s: set<nat>) {
    base <= r && (r == base || r in s) && forall e :: e in s ==> e <= r
  }

  ghost predicate IsMin(r: nat, base: nat, s: set<nat>) {
    r <= base && (r == base || r in s) && forall e :: e in s ==> r <= e
  }

  /** `r` is the end of the unbroken run of `s` that follows `base`. */
  ghost predicate IsRunEnd(r: nat, base: nat, s: set<nat>) {
    base <= r && r + 1 !in s && forall e :: base < e <= r ==> e in s
  }

  /** `m` is what a single pass over `part` makes of the initial watermarks `m0`. */
  ghost predicate Summary(m0: Marks, m: Marks, part: Disk) {
    && IsMax(m.lastChosen, m0.lastChosen, ChosenIn(part))
    && IsRunEnd(m.maxContinue, m0.maxContinue, ChosenIn(part))
    && IsMin(m.firstUnchosen, m0.firstUnchosen, UnchosenIn(part))
    && IsMin(m.firstValid, m0.firstValid, part.Keys)
    && IsMax(m.maxInUse, m0.maxInUse, part.Keys)
  }

  /** The stored entries with `lo <= id < hi`. */
  ghost function Range(disk: Disk, lo: nat, hi: nat): Disk {
    map e | e in disk && lo <= e < hi :: disk[e]
  }

  ghost function Remaining(disk: Disk, lo: nat): set<nat> {
    set e | e in disk && lo <= e
  }

  /** A summary is determined by the entries alone, however they were batched. */
  lemma SummaryUnique(m0: Marks, a: Marks, b: Marks, part: Disk)
    requires Summary(m0, a, part) && Summary(m0, b, part)
    ensures a == b
  {
    RunEndUnique(a.maxContinue, b.maxContinue, m0.maxContinue, ChosenIn(part));
  }

  lemma RunEndUnique(r: nat, q: nat, base: nat, s: set<nat>)
    requires IsRunEnd(r, base, s) && IsRunEnd(q, base, s)
    ensures r == q
  {
    assert !(r < q) by {
      assert r + 1 !in s;
    }
    assert !(q < r) by {
      assert q + 1 !in s;
    }
  }

  /** Reading one more entry, later than all before, extends the stored range by exactly that entry. */
  lemma RangeExtends(disk: Disk, lo: nat, mid: nat, x: nat)
    requires x in disk && lo <= mid <= x
    requires forall e :: e in disk && mid <= e ==> x <= e
    ensures Range(disk, lo, x + 1) == Range(disk, lo, mid)[x := disk[x]]
  {
  }

  function Visit(m: Marks, x: nat, ent: Entry): Marks {
    var chosen := ent.Status() == CHOSEN;
    Marks(
      if chosen && x > m.lastChosen then x else m.lastChosen,
      if chosen && x == m.maxContinue + 1 then x else m.maxContinue,
      if !chosen && x < m.firstUnchosen then x else m.firstUnchosen,
      if x < m.firstValid then x else m.firstValid,
      if x > m.maxInUse then x else m.maxInUse)
  }

  lemma VisitSummary(m0: Marks, m: Marks, part: Disk, x: nat, ent: Entry)
    requires Summary(m0, m, part)
    requires forall e :: e in part ==> e < x
    ensures Summary(m0, Visit(m, x, ent), part[x := ent])
  {
    var after := part[x := ent];
    assert after.Keys == part.Keys + {x};
    if ent.Status() == CHOSEN {
      assert ChosenIn(after) == ChosenIn(part) + {x};
      assert UnchosenIn(after) == UnchosenIn(part);
    } else {
      assert ChosenIn(after) == ChosenIn(part);
      assert UnchosenIn(after) == UnchosenIn(part) + {x};
    }
  }

  function VisitAll(m: Marks, run: seq<(nat, Entry)>): Marks
    decreases |run|
  {
    if run == [] then m else VisitAll(Visit(m, run[0].0, run[0].1), run[1..])
  }

  function CacheAll(cache: map<nat, Entry>, run: seq<(nat, Entry)>): map<nat, Entry>
    decreases |run|
  {
    if run == [] then cache else CacheAll(cache[run[0].0 := run[0].1], run[1..])
  }

  function Beyond(start: nat, run: seq<(nat, Entry)>): nat
    decreases |run|
  {
    if run == [] then start
    else Beyond(if run[0].0 >= start then run[0].0 + 1 else start, run[1..])
  }

  /** Visiting a contiguous batch extends the summary to every stored entry up to the end of the batch. */
  lemma {:induction false} BatchSummary(m0: Marks, m: Marks, disk: Disk, first: nat, start: nat, run: seq<(nat, Entry)>)
    requires first <= start && Contiguous(disk, start, run)
    requires Summary(m0, m, Range(disk, first, start))
    ensures Summary(m0, VisitAll(m, run), Range(disk, first, Beyond(start, run)))
    decreases |run|
  {
    if run != [] {
      var (x, ent) := run[0];
      RangeExtends(disk, first, start, x);
      VisitSummary(m0, m, Range(disk, first, start), x, ent);
      BatchSummary(m0, Visit(m, x, ent), disk, first, x + 1, run[1..]);
    }
  }

  /** A batch that is not empty moves the reading position past one more stored entry. */
  lemma {:induction false} BatchProgress(disk: Disk, start: nat, run: seq<(nat, Entry)>)
    requires Contiguous(disk, start, run)
    ensures start <= Beyond(start, run)
    ensures run != [] ==> Remaining(disk, Beyond(start, run)) < Remaining(disk, start)
    decreases |run|
  {
    if run != [] {
      var x := run[0].0;
      BatchProgress(disk, x + 1, run[1..]);
      assert x in Remaining(disk, start) && x !in Remaining(disk, Beyond(start, run));
    }
  }

  /** Caching a contiguous batch caches exactly the stored range it covers. */
  lemma {:induction false} BatchCache(
      cache: map<nat, Entry>, disk: Disk, first: nat, start: nat, run: seq<(nat, Entry)>)
    requires first <= start && Contiguous(disk, start, run)
    ensures CacheAll(cache + Range(disk, first, start), run) == cache + Range(disk, first, Beyond(start, run))
    decreases |run|
  {
    if run != [] {
      var (x, ent) := run[0];
      RangeExtends(disk, first, start, x);
      assert (cache + Range(disk, first, start))[x := ent] == cache + Range(disk, first, x + 1);
      BatchCache(cache, disk, first, x + 1, run[1..]);
    }
  }

  class EntryMng {
    var entries: map<nat, Entry>
    var maxCommitted: nat
    var maxContinueChosen: nat
    var firstValid: nat
    var maxInUsed: nat
    var lastChosen: nat
    var firstUnchosen: nat
    var globalMaxChosen: nat

    constructor ()
      ensures State() == FRESH
    {
      entries := map[];
      maxCommitted, maxContinueChosen := 0, 0;
      firstValid, maxInUsed, lastChosen, firstUnchosen, globalMaxChosen := NONE, NONE, NONE, NONE, NONE;
    }

    function State(): Log
      reads this
    {
      Log(entries, lastChosen, globalMaxChosen, maxInUsed)
    }

    function Watermarks(): Marks
      reads this
    {
      Marks(lastChosen, maxContinueChosen, firstUnchosen, firstValid, maxInUsed)
    }

    method CreateEntry(e: nat, stored: Option<Entry>)
      modifies this`entries, this`maxInUsed
      ensures State() == Created(old(State()), e, stored)
      ensures e in entries
    {
      if e in entries {
        return;
      }
      entries := entries[e := EMPTY];
      if maxInUsed == NONE || e > maxInUsed {
        maxInUsed := e;
        if stored.Some? {
          entries := entries[e := stored.value];
        }
      }
    }

    /** Looks an entry up in the cache and then in storage. */
    method GetEntry(e: nat, stored: Option<Entry>) returns (found: bool)
      modifies this`entries
      ensures State() == Fetched(old(State()), e, stored)
      ensures found <==> e in entries
      ensures found <==> e in old(entries) || stored.Some?
    {
      if e in entries {
        return true;
      }
      if stored.None? {
        return false;
      }
      entries := entries[e := stored.value];
      found := true;
    }

    /** The promise is set in memory before it is saved, and stays there when the save fails. */
    method SetPromised(p: Proposal, stored: Option<Entry>, saved: bool) returns (err: int)
      modifies this`entries
      ensures var g := Fetched(old(State()), p.entry, stored);
              if p.entry !in g.entries then err == ENTRY_NOT_EXIST && State() == old(State())
              else
                && (err == OK <==> saved)
                && State() == With(g, p.entry, g.entries[p.entry].(promised := Some(p)))
    {
      var found := GetEntry(p.entry, stored);
      if !found {
        return ENTRY_NOT_EXIST;
      }
      entries := entries[p.entry := entries[p.entry].(promised := Some(p))];
      err := if saved then OK else WRITE_PLOG_FAIL;
    }

    method ClearPromised(e: nat, stored: Option<Entry>, saved: bool) returns (err: int)
      modifies this`entries
      ensures var g := Fetched(old(State()), e, stored);
              if e !in g.entries then err == PLOG_NOT_EXIST && State() == old(State())
              else
                && (err == OK <==> saved)
                && State() == With(g, e, g.entries[e].(promised := None))
    {
      var found := GetEntry(e, stored);
      if !found {
        return PLOG_NOT_EXIST;
      }
      entries := entries[e := entries[e].(promised := None)];
      err := if saved then OK else WRITE_PLOG_FAIL;
    }

    method SetAccepted(p: Proposal, stored: Option<Entry>, saved: bool) returns (err: int)
      modifies this`entries
      ensures var g := Fetched(old(State()), p.entry, stored);
              if p.entry !in g.entries then err == ENTRY_NOT_EXIST && State() == old(State())
              else
                && (err == OK <==> saved)
                && State() == With(g, p.entry, g.entries[p.entry].(accepted := Some(p)))
    {
      var found := GetEntry(p.entry, stored);
      if !found {
        return ENTRY_NOT_EXIST;
      }
      entries := entries[p.entry := entries[p.entry].(accepted := Some(p))];
      err := if saved then OK else WRITE_PLOG_FAIL;
    }

    method SetChosen(e: nat, stored: Option<Entry>, saved: bool) returns (err: int)
      modifies this`entries, this`lastChosen, this`globalMaxChosen
      ensures var g := Fetched(old(State()), e, stored);
              if e !in g.entries then err == ENTRY_NOT_EXIST && State() == old(State())
              else if g.entries[e].accepted.None? then err == PROPOSAL_NOT_EXIST && State() == g
              else
                && (err == OK <==> saved)
                && var ent := g.entries[e];
                   var marked := With(g, e, ent.(accepted := Some(ent.accepted.value.(status := CHOSEN))));
                   State() == if saved then MarkedChosen(marked, e) else marked
    {
      var found := GetEntry(e, stored);
      if !found {
        return ENTRY_NOT_EXIST;
      }
      var ent := entries[e];
      if ent.accepted.None? {
        return PROPOSAL_NOT_EXIST;
      }
      entries := entries[e := ent.(accepted := Some(ent.accepted.value.(status := CHOSEN)))];
      if !saved {
        return WRITE_PLOG_FAIL;
      }
      if lastChosen == NONE || lastChosen < e {
        lastChosen := e;
      }
      if globalMaxChosen == NONE || globalMaxChosen < e {
        globalMaxChosen := e;
      }
      err := OK;
    }

    method SetGlobalMaxChosenEntry(e: nat)
      modifies this`globalMaxChosen
      ensures globalMaxChosen == Raise(old(globalMaxChosen), e)
    {
      if globalMaxChosen != NONE && globalMaxChosen >= e {
        return;
      }
      globalMaxChosen := e;
    }

    /** Takes one loaded entry into the watermarks and the cache. */
    method Absorb(x: nat, ent: Entry)
      modifies this
      ensures Watermarks() == Visit(old(Watermarks()), x, ent)
      ensures entries == old(entries)[x := ent]
      ensures globalMaxChosen == old(globalMaxChosen) && maxCommitted == old(maxCommitted)
    {
      if ent.Status() == CHOSEN {
        if x > lastChosen {
          lastChosen := x;
        }
        if x == maxContinueChosen + 1 {
          maxContinueChosen := maxContinueChosen + 1;
        }
      } else if x < firstUnchosen {
        firstUnchosen := x;
      }
      if x < firstValid {
        firstValid := x;
      }
      if x > maxInUsed {
        maxInUsed := x;
      }
      entries := entries[x := ent];
    }

    /** Takes in a whole batch; `next` is where the following read has to start. */
    method AbsorbAll(run: seq<(nat, Entry)>, start: nat) returns (next: nat)
      modifies this
      ensures Watermarks() == VisitAll(old(Watermarks()), run)
      ensures entries == CacheAll(old(entries), run)
      ensures next == Beyond(start, run)
      ensures globalMaxChosen == old(globalMaxChosen) && maxCommitted == old(maxCommitted)
    {
      next := start;
      var j := 0;
      while j < |run|
        invariant 0 <= j <= |run|
        invariant VisitAll(Watermarks(), run[j..]) == VisitAll(old(Watermarks()), run)
        invariant CacheAll(entries, run[j..]) == CacheAll(old(entries), run)
        invariant Beyond(next, run[j..]) == Beyond(start, run)
        invariant globalMaxChosen == old(globalMaxChosen) && maxCommitted == old(maxCommitted)
      {
        assert run[j..][1..] == run[j + 1..];
        Absorb(run[j].0, run[j].1);
        if run[j].0 >= next {
          next := run[j].0 + 1;
        }
        j := j + 1;
      }
    }

    /**
     * Batched recovery. Whatever the batching, the watermarks end up as one pass over the stored
     * entries read, which are all of them from `start` up to `end` unless storage reports a failure.
     */
    method RecoverRange(start: nat, end: nat, load: (nat, nat) -> Batch, ghost disk: Disk)
      returns (complete: bool, ghost reached: nat)
      requires GoodLoader(disk, load)
      modifies this
      ensures Summary(old(Watermarks()), Watermarks(), Range(Below(disk, end), start, reached))
      ensures complete ==> forall e :: e in Below(disk, end) ==> e < reached
      ensures !complete ==> load(reached, end).Failed?
      ensures entries == old(entries) + Range(Below(disk, end), start, reached)
      ensures globalMaxChosen == if lastChosen > old(globalMaxChosen) then lastChosen else old(globalMaxChosen)
      ensures maxCommitted == old(maxCommitted)
    {
      ghost var part := Below(disk, end);
      var next := start;
      complete := false;
      assert Range(part, start, start) == map[];
      while true
        invariant start <= next
        invariant Summary(old(Watermarks()), Watermarks(), Range(part, start, next))
        invariant entries == old(entries) + Range(part, start, next)
        invariant globalMaxChosen == old(globalMaxChosen) && maxCommitted == old(maxCommitted)
        decreases Remaining(part, next)
      {
        var batch := load(next, end);
        if batch.Failed? {
          break;
        }
        if batch.entries == [] {
          complete := true;
          break;
        }
        BatchSummary(old(Watermarks()), Watermarks(), part, start, next, batch.entries);
        BatchProgress(part, next, batch.entries);
        BatchCache(old(entries), part, start, next, batch.entries);
        next := AbsorbAll(batch.entries, next);
      }
      reached := next;
      if lastChosen > globalMaxChosen {
        globalMaxChosen := lastChosen;
      }
    }

    method LoadAllFromDisk(lastCommitted: Option<nat>, load: (nat, nat) -> Batch, ghost disk: Disk)
      returns (ok: bool, complete: bool, ghost reached: nat)
      requires GoodLoader(disk, load)
      modifies this
      ensures ok <==> lastCommitted.Some?
      ensures !ok ==> State() == old(State()) && Watermarks() == old(Watermarks())
      ensures ok ==>
                && Summary(Marks(0, lastCommitted.value, NONE, NONE, 0), Watermarks(), Range(disk, 1, reached))
                && (if complete then forall e :: e in disk ==> e < reached else load(reached, NONE).Failed?)
                && maxCommitted == lastCommitted.value && globalMaxChosen == lastChosen
    {
      complete, reached := false, 0;
      if lastCommitted.None? {
        return false, false, 0;
      }
      ok := true;
      maxInUsed, lastChosen := 0, 0;
      firstValid, firstUnchosen := NONE, NONE;
      maxCommitted, maxContinueChosen := lastCommitted.value, lastCommitted.value;
      globalMaxChosen := 0;
      complete, reached := RecoverRange(1, NONE, load, disk);
    }
  }
}
