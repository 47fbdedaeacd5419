/**
 * What an acceptor makes of what storage holds: when a request first touches an entry, and over runs that
 * begin with an empty cache.
 */
module Restart {
  import opened Ptype
  import opened Sequences
  import opened Plog
  import opened AcceptorSpec
  import opened AcceptorRuns

  // ---------------------------------------------------------------- first touch

  /** The log as if the entry had been in the cache with this content all along. */
  function Preloaded(g: Log, e: nat, ent: Entry): Log {
    Log(g.entries[e := ent], g.lastChosen, g.globalMax, if g.maxInUse == NONE || g.maxInUse < e then e else g.maxInUse)
  }

  /** For every request that is not refused, the handlers act and answer as if the entry had been in the cache. */
  ghost predicate ActsOn(g: Log, e: nat, stored: Option<Entry>, ent: Entry) {
    forall r: Request | r.body.entry == e && !Refused(g, r) ::
      LogStep(g, r, stored) == LogStep(Preloaded(g, e, ent), r, None) && Reply(g, r, stored) == Reply(Preloaded(g, e, ent), r, None)
  }

  /** The one that is always looked at and, for a foreign vote, changes nothing. */
  function Harmless(e: nat, ent: Entry): Request {
    var pid := if ent.accepted.Some? then ent.accepted.value.pid + 1 else 0;
    Choose(ZERO.(entry := e, pid := pid), false)
  }

  lemma ActsOnOne(g: Log, e: nat, stored: Option<Entry>, ent: Entry, r: Request)
    requires e !in g.entries && r.body.entry == e && !Refused(g, r)
    requires ent == if (g.maxInUse == NONE || e > g.maxInUse) && stored.Some? then stored.value else EMPTY
    ensures LogStep(g, r, stored) == LogStep(Preloaded(g, e, ent), r, None)
    ensures Reply(g, r, stored) == Reply(Preloaded(g, e, ent), r, None)
  {
  }

  lemma HarmlessKeeps(g: Log, e: nat, ent: Entry)
    ensures LogStep(Preloaded(g, e, ent), Harmless(e, ent), None).At(e) == ent
  {
  }

  /**
   * The first touch of an entry works on what storage holds for it exactly if nothing is in use yet, or the
   * entry is beyond everything in use, or storage holds nothing for it but an empty entry.
   */
  lemma LoadedIff(g: Log, e: nat, stored: Option<Entry>)
    requires e !in g.entries
    ensures ActsOn(g, e, stored, if stored.Some? then stored.value else EMPTY) <==>
            g.maxInUse == NONE || e > g.maxInUse || stored.None? || stored == Some(EMPTY)
  {
    var ent := if stored.Some? then stored.value else EMPTY;
    if g.maxInUse == NONE || e > g.maxInUse || stored.None? || stored == Some(EMPTY) {
      forall r: Request | r.body.entry == e && !Refused(g, r)
        ensures LogStep(g, r, stored) == LogStep(Preloaded(g, e, ent), r, None)
        ensures Reply(g, r, stored) == Reply(Preloaded(g, e, ent), r, None)
      {
        ActsOnOne(g, e, stored, ent, r);
      }
    } else {
      var r := Harmless(e, ent);
      HarmlessKeeps(g, e, ent);
      ActsOnOne(g, e, stored, EMPTY, r);
      assert LogStep(g, r, stored).At(e) == EMPTY;
      assert !Refused(g, r);
    }
  }

  /** A first touch below what is in use works on an empty entry, whatever storage holds. */
  lemma ForgottenBelow(g: Log, e: nat, stored: Option<Entry>)
    requires e !in g.entries && g.maxInUse != NONE && e <= g.maxInUse
    ensures ActsOn(g, e, stored, EMPTY)
  {
    forall r: Request | r.body.entry == e && !Refused(g, r)
      ensures LogStep(g, r, stored) == LogStep(Preloaded(g, e, EMPTY), r, None)
      ensures Reply(g, r, stored) == Reply(Preloaded(g, e, EMPTY), r, None)
    {
      ActsOnOne(g, e, stored, EMPTY, r);
    }
  }

  /** The setters work on what was cached or, failing that, stored; nothing else changes by looking it up. */
  lemma FetchedIs(g: Log, e: nat, stored: Option<Entry>)
    ensures var f := Fetched(g, e, stored);
            && f.lastChosen == g.lastChosen && f.globalMax == g.globalMax && f.maxInUse == g.maxInUse
            && (forall d :: d != e ==> (d in f.entries <==> d in g.entries) && f.At(d) == g.At(d))
            && (e in f.entries <==> e in g.entries || stored.Some?)
            && (e in g.entries ==> f.At(e) == g.At(e))
            && (e !in g.entries && stored.Some? ==> f.At(e) == stored.value)
  {
  }

  // ---------------------------------------------------------------- runs that begin with an empty cache

  function OnDisk(disk: Disk, e: nat): Option<Entry> {
    if e in disk then Some(disk[e]) else None
  }

  function DiskAt(disk: Disk, e: nat): Entry {
    if e in disk then disk[e] else EMPTY
  }

  /** What storage holds for an entry that is not cached does not change, since only cached entries are saved. */
  function RestartRun(disk: Disk, rs: seq<Request>): Log {
    if rs == [] then FRESH
    else LogStep(RestartRun(disk, Front(rs)), Last(rs), OnDisk(disk, Last(rs).body.entry))
  }

  function Asked(rs: seq<Request>): set<nat> {
    if rs == [] then {} else Asked(Front(rs)) + {Last(rs).body.entry}
  }

  /** Entries are asked for the first time in ascending order. */
  predicate Ascending(rs: seq<Request>) {
    rs == [] ||
    (Ascending(Front(rs)) &&
     (Last(rs).body.entry in Asked(Front(rs)) || forall e :: e in Asked(Front(rs)) ==> e < Last(rs).body.entry))
  }

  predicate Below64(rs: seq<Request>) {
    forall i :: 0 <= i < |rs| ==> rs[i].body.entry < NONE
  }

  /** The cache holds what was asked for, and the watermarks are about that. */
  ghost predicate CacheOk(g: Log, asked: set<nat>) {
    && g.entries.Keys == asked
    && (asked == {} <==> g.maxInUse == NONE)
    && (asked != {} ==> g.maxInUse in asked && forall e :: e in asked ==> e <= g.maxInUse)
    && (g.lastChosen == NONE || g.lastChosen in asked)
  }

  lemma StepCache(g: Log, asked: set<nat>, r: Request, stored: Option<Entry>)
    requires CacheOk(g, asked) && r.body.entry < NONE
    requires r.body.entry in asked || forall e :: e in asked ==> e < r.body.entry
    ensures CacheOk(LogStep(g, r, stored), asked + {r.body.entry})
  {
    var e := r.body.entry;
    if Refused(g, r) {
      assert asked + {e} == asked;
    } else {
      var g1 := Created(if r.Choose? then g else NoteRemote(g, r.body), e, stored);
      assert CacheOk(g1, asked + {e});
    }
  }

  lemma {:induction false} RunCache(disk: Disk, rs: seq<Request>)
    requires Ascending(rs) && Below64(rs)
    ensures CacheOk(RestartRun(disk, rs), Asked(rs))
    decreases |rs|
  {
    if rs != [] {
      RunCache(disk, Front(rs));
      StepCache(RestartRun(disk, Front(rs)), Asked(Front(rs)), Last(rs), OnDisk(disk, Last(rs).body.entry));
    }
  }

  /** Any entry, in whatever form storage gave it back, only moves up. */
  lemma AnyEntryAdvances(ent: Entry, r: Request)
    ensures Advances(ent, EntryStep(ent, r))
  {
  }

  lemma AdvancesOn(a: Entry, b: Entry, d: Entry)
    requires Advances(a, b) && Advances(b, d)
    ensures Advances(a, d)
  {
  }

  /** The entry after one request of an ascending run, in terms of what storage or the cache held. */
  lemma StepTouches(disk: Disk, g: Log, asked: set<nat>, r: Request, e: nat)
    requires CacheOk(g, asked) && r.body.entry < NONE
    requires r.body.entry in asked || forall d :: d in asked ==> d < r.body.entry
    requires e in asked ==> Advances(DiskAt(disk, e), g.At(e))
    ensures e in asked + {r.body.entry} ==>
              Advances(DiskAt(disk, e), LogStep(g, r, OnDisk(disk, r.body.entry)).At(e))
  {
    var d := r.body.entry;
    if e == d && !Refused(g, r) {
      var was := if e in asked then g.At(e) else DiskAt(disk, e);
      assert LogStep(g, r, OnDisk(disk, d)).At(e) == EntryStep(was, r);
      AnyEntryAdvances(was, r);
      AdvancesOn(DiskAt(disk, e), was, EntryStep(was, r));
    }
  }

  /**
   * After a restart, as long as entries are asked for in ascending order, nothing that was saved is forgotten:
   * every entry asked for keeps its floor and its acceptance, and a chosen proposal for good.
   */
  lemma {:induction false} RestartKeeps(disk: Disk, rs: seq<Request>, e: nat)
    requires Ascending(rs) && Below64(rs) && e in Asked(rs)
    ensures Advances(DiskAt(disk, e), RestartRun(disk, rs).At(e))
    decreases |rs|
  {
    RunCache(disk, Front(rs));
    if e in Asked(Front(rs)) {
      RestartKeeps(disk, Front(rs), e);
    }
    StepTouches(disk, RestartRun(disk, Front(rs)), Asked(Front(rs)), Last(rs), e);
  }

  /**
   * So a prepare that is not refused, sent at the end of such a run, is answered ACCEPTED if storage held an
   * accepted proposal for its entry, with an accepted proposal of no lower pid.
   */
  lemma RestartAnswers(disk: Disk, rs: seq<Request>, pp: Proposal, saved: bool)
    requires Ascending(rs + [Prepare(pp, saved)]) && Below64(rs + [Prepare(pp, saved)])
    requires DiskAt(disk, pp.entry).accepted.Some? && !Refused(RestartRun(disk, rs), Prepare(pp, saved))
    ensures var m := Reply(RestartRun(disk, rs), Prepare(pp, saved), OnDisk(disk, pp.entry));
            && m.err == OK && m.body.status == ACCEPTED
            && DiskAt(disk, pp.entry).accepted.value.pid <= m.body.pid
  {
    var r := Prepare(pp, saved);
    assert Front(rs + [r]) == rs && Last(rs + [r]) == r;
    assert Below64(rs) by {
      assert forall i :: 0 <= i < |rs| ==> (rs + [r])[i] == rs[i];
    }
    assert pp.entry < NONE by {
      assert (rs + [r])[|rs|] == r;
    }
    RunCache(disk, rs);
    if pp.entry in Asked(rs) {
      RestartKeeps(disk, rs, pp.entry);
    }
  }

  /** Entry 5 was accepted at pid 3 before the restart. */
  const VOTED: Disk := map[5 := Entry(None, Some(ZERO.(pid := 3, entry := 5, valueId := 9, status := ACCEPTED, data := [7])))]

  function Ask(pid: nat, e: nat): Request {
    Prepare(ZERO.(pid := pid, entry := e), true)
  }

  /** In order, a prepare at pid 4 is shown the vote; after a touch of entry 7 even one at pid 1 is promised. */
  lemma OutOfOrderForgets()
    ensures var m := Reply(RestartRun(VOTED, []), Ask(4, 5), OnDisk(VOTED, 5));
            m.err == OK && m.body.status == ACCEPTED && m.body.pid == 3 && m.body.valueId == 9 && m.body.data == [7]
    ensures var m := Reply(RestartRun(VOTED, [Ask(1, 7)]), Ask(1, 5), OnDisk(VOTED, 5));
            m.err == OK && m.body.status == PROMISED && m.body.pid == 1
    ensures RestartRun(VOTED, [Ask(1, 7)] + [Ask(1, 5)]).At(5).accepted == None
  {
    assert Front([Ask(1, 7)]) == [];
    assert Front([Ask(1, 7)] + [Ask(1, 5)]) == [Ask(1, 7)];
  }
}

/** Recovery over entries as they were written: encoded, stored and decoded. */
module RecoveredLog {
  import opened Ptype
  import opened Plog
  import opened EntryManager
  import opened Codec

  /** Storage gives back what was written. */
  ghost predicate ReadBack(written: Disk, disk: Disk) {
    && written.Keys == disk.Keys
    && forall e :: e in written ==>
         EntryWellformed(written[e]) && TotalSize(written[e]) < Pow256(4) && Decode(Encode(written[e])) == Good(disk[e])
  }

  /** The status that recovery looks at is the accepted proposal's, however the entry was stored and read back. */
  lemma StatusSurvives(e: Entry)
    ensures Reloaded(e).Status() == CHOSEN <==> e.Chosen()
    ensures e.accepted.Some? ==> e.Status() == e.accepted.value.status == Reloaded(e).Status()
    ensures e.accepted.None? ==> e.Status() == if e.promised.Some? then e.promised.value.status else INVALID_PROPOSAL
  {
  }

  lemma ReadBackChosen(written: Disk, disk: Disk, e: nat)
    requires ReadBack(written, disk) && e in disk
    ensures disk[e].Status() == CHOSEN <==> written[e].Chosen()
  {
    EntryRoundTrip(written[e]);
    StatusSurvives(written[e]);
  }

  /** The entries that were written as chosen, of those from 1 up to `reached`. */
  predicate WasChosen(written: Disk, reached: nat, e: nat) {
    e in written && 1 <= e < reached && written[e].Chosen()
  }

  predicate WasWritten(written: Disk, reached: nat, e: nat) {
    e in written && 1 <= e < reached
  }

  /** The same entries, and the same ones chosen. */
  ghost predicate Alike(written: Disk, disk: Disk) {
    written.Keys == disk.Keys && forall e :: e in written ==> (disk[e].Status() == CHOSEN <==> written[e].Chosen())
  }

  lemma ReadBackAlike(written: Disk, disk: Disk)
    requires ReadBack(written, disk)
    ensures Alike(written, disk)
  {
    forall e | e in written
      ensures disk[e].Status() == CHOSEN <==> written[e].Chosen()
    {
      ReadBackChosen(written, disk, e);
    }
  }

  lemma PartIs(written: Disk, disk: Disk, reached: nat)
    requires Alike(written, disk)
    ensures forall e: nat :: e in ChosenIn(Range(disk, 1, reached)) <==> WasChosen(written, reached, e)
    ensures forall e: nat :: e in UnchosenIn(Range(disk, 1, reached)) <==>
                               WasWritten(written, reached, e) && !written[e].Chosen()
    ensures forall e: nat :: e in Range(disk, 1, reached).Keys <==> WasWritten(written, reached, e)
  {
  }

  /** The greatest chosen entry or 0, and the end of the unbroken run of chosen ones after the committed entry. */
  ghost predicate ChosenMarks(written: Disk, committed: nat, m: Marks, reached: nat) {
    && (m.lastChosen == 0 || WasChosen(written, reached, m.lastChosen))
    && (forall e: nat :: WasChosen(written, reached, e) ==> e <= m.lastChosen)
    && committed <= m.maxContinue && !WasChosen(written, reached, m.maxContinue + 1)
    && (forall e: nat :: committed < e <= m.maxContinue ==> WasChosen(written, reached, e))
  }

  /** The least entry that is not chosen, the least and the greatest of all. */
  ghost predicate OtherMarks(written: Disk, m: Marks, reached: nat) {
    && (m.firstUnchosen == NONE || (WasWritten(written, reached, m.firstUnchosen) && !written[m.firstUnchosen].Chosen()))
    && (forall e: nat :: WasWritten(written, reached, e) && !written[e].Chosen() ==> m.firstUnchosen <= e)
    && (m.firstValid == NONE || WasWritten(written, reached, m.firstValid))
    && (forall e: nat :: WasWritten(written, reached, e) ==> m.firstValid <= e)
    && (m.maxInUse == 0 || WasWritten(written, reached, m.maxInUse))
    && (forall e: nat :: WasWritten(written, reached, e) ==> e <= m.maxInUse)
  }

  lemma ChosenMarksHold(written: Disk, committed: nat, m: Marks, reached: nat, part: Disk)
    requires Summary(Marks(0, committed, NONE, NONE, 0), m, part)
    requires forall e: nat :: e in ChosenIn(part) <==> WasChosen(written, reached, e)
    ensures ChosenMarks(written, committed, m, reached)
  {
    assert forall e: nat :: committed < e <= m.maxContinue ==> e in ChosenIn(part);
  }

  lemma OtherMarksHold(written: Disk, committed: nat, m: Marks, reached: nat, part: Disk)
    requires Summary(Marks(0, committed, NONE, NONE, 0), m, part)
    requires forall e: nat :: e in UnchosenIn(part) <==> WasWritten(written, reached, e) && !written[e].Chosen()
    requires forall e: nat :: e in part.Keys <==> WasWritten(written, reached, e)
    ensures OtherMarks(written, m, reached)
  {
  }

  /**
   * What recovery finds, in terms of what was written and of the accepted proposals in it: the five marks of
   * the entries written from 1 up to where reading ended.
   */
  lemma RecoveredMarks(written: Disk, disk: Disk, committed: nat, m: Marks, reached: nat)
    requires ReadBack(written, disk) && Summary(Marks(0, committed, NONE, NONE, 0), m, Range(disk, 1, reached))
    ensures ChosenMarks(written, committed, m, reached) && OtherMarks(written, m, reached)
  {
    ReadBackAlike(written, disk);
    PartIs(written, disk, reached);
    ChosenMarksHold(written, committed, m, reached, Range(disk, 1, reached));
    OtherMarksHold(written, committed, m, reached, Range(disk, 1, reached));
  }
}
