/** What holds of one acceptor over every sequence of requests, failed saves included. */
module AcceptorRuns {
  import opened Ptype
  import opened Plog
  import opened AcceptorSpec

  /** A proposal that was written into the accepted slot of an entry. */
  datatype Vote = Vote(entry: nat, pid: nat, valueId: nat)

  /** An acceptor together with every vote it has ever installed in memory. */
  datatype Node = Node(log: Log, votes: set<Vote>)

  const START: Node := Node(FRESH, {})

  function VoteOf(p: Proposal): Vote {
    Vote(p.entry, p.pid, p.valueId)
  }

  /** The request writes a vote. */
  predicate Casts(n: Node, r: Request) {
    r.Accept? && !Refused(n.log, r) && Installs(n.log.At(r.body.entry), r.body)
  }

  /** Without restarts or eviction, storage never answers for an entry that is not cached. */
  function NodeStep(n: Node, r: Request): Node {
    Node(LogStep(n.log, r, None), n.votes + if Casts(n, r) then {VoteOf(r.body)} else {})
  }

  function NodeRun(n: Node, rs: seq<Request>): Node
    decreases |rs|
  {
    if rs == [] then n else NodeRun(NodeStep(n, rs[0]), rs[1..])
  }

  /** The ballot below which an entry accepts nothing. */
  function Floor(ent: Entry): nat {
    if ent.accepted.Some? then ent.accepted.value.pid
    else if ent.promised.Some? then ent.promised.value.pid
    else 0
  }

  /** An entry's proposals are its own, carry the right status, and the promise never exceeds the accepted pid. */
  predicate EntryOk(e: nat, ent: Entry) {
    && (ent.promised.Some? ==> ent.promised.value.entry == e && ent.promised.value.pid > 0)
    && (ent.accepted.Some? ==> ent.accepted.value.entry == e && ent.accepted.value.status in {ACCEPTED, CHOSEN})
    && (ent.promised.Some? && ent.accepted.Some? ==> ent.promised.value.pid <= ent.accepted.value.pid)
  }

  ghost predicate EntriesOk(g: Log) {
    forall e :: e in g.entries ==> EntryOk(e, g.entries[e])
  }

  /** The votes of a node agree with what its entries hold. */
  ghost predicate VotesOk(n: Node) {
    && (forall e :: e in n.log.entries && n.log.entries[e].accepted.Some? ==> VoteOf(n.log.entries[e].accepted.value) in n.votes)
    && (forall v :: v in n.votes ==> Outvoted(n.log.At(v.entry), v))
    && (forall v, w :: v in n.votes && w in n.votes && v.entry == w.entry && v.pid == w.pid ==> v == w)
  }

  predicate Outvoted(ent: Entry, v: Vote) {
    && ent.accepted.Some?
    && v.pid <= ent.accepted.value.pid
    && (v.pid == ent.accepted.value.pid ==> v.valueId == ent.accepted.value.valueId)
  }

  ghost predicate NodeOk(n: Node) {
    EntriesOk(n.log) && VotesOk(n)
  }

  /** The entry after a step, seen from any entry id. */
  lemma StepAt(n: Node, r: Request, e: nat)
    ensures NodeStep(n, r).log.At(e) ==
            if e == r.body.entry && !Refused(n.log, r) then EntryStep(n.log.At(e), r) else n.log.At(e)
  {
  }

  /** One request on one entry: the floor holds, nothing below it gets in, accepted and chosen stay. */
  lemma EntryStepKeeps(e: nat, ent: Entry, r: Request)
    requires EntryOk(e, ent) && r.body.entry == e
    ensures EntryOk(e, EntryStep(ent, r))
    ensures Floor(ent) <= Floor(EntryStep(ent, r))
    ensures ent.accepted.Some? ==> EntryStep(ent, r).accepted.Some?
    ensures ent.Chosen() ==> EntryStep(ent, r).accepted == ent.accepted
    ensures r.Accept? && Installs(ent, r.body) ==>
              && Floor(ent) <= r.body.pid == Floor(EntryStep(ent, r))
              && (ent.accepted.Some? ==> ent.accepted.value.pid < r.body.pid)
    ensures !(r.Accept? && Installs(ent, r.body)) && ent.accepted.Some? ==>
              SameVote(EntryStep(ent, r).accepted.value, ent.accepted.value)
    ensures !(r.Accept? && Installs(ent, r.body)) && ent.accepted.None? ==> EntryStep(ent, r).accepted.None?
  {
  }

  lemma StepKeepsEntries(n: Node, r: Request)
    requires EntriesOk(n.log)
    ensures EntriesOk(NodeStep(n, r).log)
  {
    var n' := NodeStep(n, r);
    forall e | e in n'.log.entries
      ensures EntryOk(e, n'.log.entries[e])
    {
      StepAt(n, r, e);
      if e == r.body.entry {
        EntryStepKeeps(e, n.log.At(e), r);
      }
    }
  }

  lemma AcceptedIsVoted(n: Node, r: Request, e: nat)
    requires EntriesOk(n.log) && VotesOk(n) && NodeStep(n, r).log.At(e).accepted.Some?
    ensures VoteOf(NodeStep(n, r).log.At(e).accepted.value) in NodeStep(n, r).votes
  {
    StepAt(n, r, e);
    if e == r.body.entry && !Refused(n.log, r) {
      EntryStepKeeps(e, n.log.At(e), r);
    }
  }

  lemma VoteIsOutvoted(n: Node, r: Request, v: Vote)
    requires EntriesOk(n.log) && VotesOk(n) && v in NodeStep(n, r).votes
    ensures Outvoted(NodeStep(n, r).log.At(v.entry), v)
  {
    StepAt(n, r, v.entry);
    if v.entry == r.body.entry && !Refused(n.log, r) {
      EntryStepKeeps(v.entry, n.log.At(v.entry), r);
    }
  }

  /** A new vote is higher than every earlier one of its entry. */
  lemma NewVoteIsHigher(n: Node, r: Request, v: Vote)
    requires EntriesOk(n.log) && VotesOk(n) && Casts(n, r) && v in n.votes && v.entry == r.body.entry
    ensures v.pid < r.body.pid
  {
    EntryStepKeeps(v.entry, n.log.At(v.entry), r);
    assert Outvoted(n.log.At(v.entry), v);
  }

  lemma OneVotePerPid(n: Node, r: Request, v: Vote, w: Vote)
    requires EntriesOk(n.log) && VotesOk(n) && v in NodeStep(n, r).votes && w in NodeStep(n, r).votes
    requires v.entry == w.entry && v.pid == w.pid
    ensures v == w
  {
    assert NodeStep(n, r).votes == if Casts(n, r) then n.votes + {VoteOf(r.body)} else n.votes;
    if v in n.votes && w !in n.votes {
      NewVoteIsHigher(n, r, v);
    } else if w in n.votes && v !in n.votes {
      NewVoteIsHigher(n, r, w);
    }
  }

  lemma StepKeepsVotes(n: Node, r: Request)
    requires NodeOk(n)
    ensures VotesOk(NodeStep(n, r))
  {
    var n' := NodeStep(n, r);
    forall e | e in n'.log.entries && n'.log.entries[e].accepted.Some?
      ensures VoteOf(n'.log.entries[e].accepted.value) in n'.votes
    {
      AcceptedIsVoted(n, r, e);
    }
    forall v | v in n'.votes
      ensures Outvoted(n'.log.At(v.entry), v)
    {
      VoteIsOutvoted(n, r, v);
    }
    forall v, w | v in n'.votes && w in n'.votes && v.entry == w.entry && v.pid == w.pid
      ensures v == w
    {
      OneVotePerPid(n, r, v, w);
    }
  }

  /** An entry can only move up: its floor rises, its acceptance stays, a chosen proposal is final. */
  predicate Advances(ent: Entry, ent': Entry) {
    && Floor(ent) <= Floor(ent')
    && (ent.accepted.Some? ==> ent'.accepted.Some?)
    && (ent.Chosen() ==> ent'.accepted == ent.accepted)
  }

  lemma StepAdvances(n: Node, r: Request, e: nat)
    requires EntriesOk(n.log)
    ensures Advances(n.log.At(e), NodeStep(n, r).log.At(e))
    ensures forall v :: v in NodeStep(n, r).votes - n.votes && v.entry == e ==> Floor(n.log.At(e)) <= v.pid
  {
    StepAt(n, r, e);
    if e == r.body.entry {
      EntryStepKeeps(e, n.log.At(e), r);
    }
  }

  /**
   * The ballot floor over whole runs: for every entry the floor never falls, what is accepted stays
   * accepted, a chosen proposal never changes, every vote cast during the run is at or above the floor
   * the run started from, and one pid never gets two value ids.
   */
  lemma {:induction false} BallotFloor(n: Node, rs: seq<Request>, e: nat)
    requires NodeOk(n)
    ensures NodeOk(NodeRun(n, rs))
    ensures Advances(n.log.At(e), NodeRun(n, rs).log.At(e))
    ensures n.votes <= NodeRun(n, rs).votes
    ensures forall v :: v in NodeRun(n, rs).votes - n.votes && v.entry == e ==> Floor(n.log.At(e)) <= v.pid
    decreases |rs|
  {
    if rs != [] {
      StepKeepsEntries(n, rs[0]);
      StepKeepsVotes(n, rs[0]);
      StepAdvances(n, rs[0], e);
      BallotFloor(NodeStep(n, rs[0]), rs[1..], e);
    }
  }

  // ---------------------------------------------------------------- watermarks

  /** Ids below the sentinel; what a chosen request says about its sender's last chosen entry is not looked at. */
  predicate Plain(r: Request) {
    r.body.entry < NONE && (!r.Choose? ==> r.body.lastChosen < NONE)
  }

  predicate AtLeast(mark: nat, mark': nat) {
    mark != NONE ==> mark' != NONE && mark <= mark'
  }

  /** `lastChosen` is the greatest chosen entry, and the three watermarks are ordered. */
  ghost predicate MarksOk(g: Log) {
    && (g.lastChosen == NONE <==> forall e :: e in g.entries ==> !g.entries[e].Chosen())
    && (g.lastChosen != NONE ==> g.lastChosen in g.entries && g.entries[g.lastChosen].Chosen())
    && (forall e :: e in g.entries && g.entries[e].Chosen() ==> e <= g.lastChosen)
    && AtLeast(g.lastChosen, g.globalMax)
    && (forall e :: e in g.entries ==> g.maxInUse != NONE && e <= g.maxInUse)
  }

  /** What a request that is not refused does to the log, watermark by watermark. */
  lemma MarksAfter(n: Node, r: Request)
    requires EntriesOk(n.log) && !Refused(n.log, r)
    ensures var e, g, g' := r.body.entry, n.log, NodeStep(n, r).log;
            && g'.entries == g.entries[e := EntryStep(g.At(e), r)]
            && g'.maxInUse == (if e in g.entries then g.maxInUse else Raise(g.maxInUse, e))
            && (g'.entries[e].Chosen() <==> g.At(e).Chosen() || (r.Choose? && r.saved && Commits(g.At(e), r.body)))
            && g'.lastChosen == (if g'.entries[e].Chosen() && !g.At(e).Chosen() then Raise(g.lastChosen, e) else g.lastChosen)
  {
    EntryStepKeeps(r.body.entry, n.log.At(r.body.entry), r);
  }

  lemma GlobalMaxAfter(n: Node, r: Request)
    requires EntriesOk(n.log) && Plain(r) && AtLeast(n.log.lastChosen, n.log.globalMax)
    ensures AtLeast(n.log.globalMax, NodeStep(n, r).log.globalMax)
    ensures AtLeast(NodeStep(n, r).log.lastChosen, NodeStep(n, r).log.globalMax)
  {
  }

  lemma StepKeepsMarks(n: Node, r: Request)
    requires EntriesOk(n.log) && MarksOk(n.log) && Plain(r)
    ensures MarksOk(NodeStep(n, r).log)
    ensures AtLeast(n.log.lastChosen, NodeStep(n, r).log.lastChosen)
    ensures AtLeast(n.log.globalMax, NodeStep(n, r).log.globalMax)
    ensures AtLeast(n.log.maxInUse, NodeStep(n, r).log.maxInUse)
  {
    GlobalMaxAfter(n, r);
    if Refused(n.log, r) {
      assert NodeStep(n, r).log == n.log;
    } else {
      MarksAfter(n, r);
      MarksRaised(n.log, NodeStep(n, r).log, r.body.entry);
    }
  }

  /** Replacing one entry, chosen or not, keeps watermarks exact when they are raised for it. */
  lemma MarksRaised(g: Log, g': Log, e: nat)
    requires MarksOk(g) && e < NONE && e in g'.entries && g'.entries == g.entries[e := g'.entries[e]]
    requires g'.maxInUse == (if e in g.entries then g.maxInUse else Raise(g.maxInUse, e))
    requires g.At(e).Chosen() ==> g'.entries[e].Chosen()
    requires g'.lastChosen == (if g'.entries[e].Chosen() && !g.At(e).Chosen() then Raise(g.lastChosen, e) else g.lastChosen)
    requires AtLeast(g'.lastChosen, g'.globalMax)
    ensures MarksOk(g') && AtLeast(g.lastChosen, g'.lastChosen) && AtLeast(g.maxInUse, g'.maxInUse)
  {
    assert forall d :: d in g.entries && d != e ==> g'.entries[d] == g.entries[d];
  }

  /** The watermarks over whole runs: exact, ordered and never falling. */
  lemma {:induction false} WatermarksOverRuns(n: Node, rs: seq<Request>)
    requires NodeOk(n) && MarksOk(n.log)
    requires forall i :: 0 <= i < |rs| ==> Plain(rs[i])
    ensures MarksOk(NodeRun(n, rs).log)
    ensures AtLeast(n.log.lastChosen, NodeRun(n, rs).log.lastChosen)
    ensures AtLeast(n.log.globalMax, NodeRun(n, rs).log.globalMax)
    ensures AtLeast(n.log.maxInUse, NodeRun(n, rs).log.maxInUse)
    decreases |rs|
  {
    if rs != [] {
      StepKeepsEntries(n, rs[0]);
      StepKeepsVotes(n, rs[0]);
      StepKeepsMarks(n, rs[0]);
      WatermarksOverRuns(NodeStep(n, rs[0]), rs[1..]);
    }
  }

  /** Exactly when a 64-bit request makes the global watermark fall: a sentinel report after something was chosen. */
  lemma GlobalMaxFallsIff(n: Node, r: Request)
    requires NodeOk(n) && MarksOk(n.log)
    requires r.body.entry < NONE && r.body.lastChosen <= NONE && n.log.globalMax <= NONE
    ensures !AtLeast(n.log.globalMax, NodeStep(n, r).log.globalMax) <==>
            r.body.lastChosen == NONE && !r.Choose? && n.log.lastChosen < r.body.entry
  {
  }
}
