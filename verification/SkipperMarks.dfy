/**
 * What a member other than 0 that skips the prepare phase does to chosen marks: with three acceptors or more
 * two of them mark different proposals, with different values, for one entry; with one or two they cannot.
 */
module SkipperMarks {
  import opened Ptype
  import opened Plog
  import opened AcceptorSpec
  import opened AcceptorRuns
  import opened ProposerSpec
  import opened Consensus
  import opened Agreement
  import opened ValueAgreement
  import opened Skippers

  // ---------------------------------------------------------------- one or two acceptors

  lemma WholeGroup(q: set<nat>, s: set<nat>)
    requires q <= s && |s| <= |q|
    ensures q == s
  {
    UnionSize(q, s - q);
    assert s == q + (s - q);
  }

  /** With at most two acceptors a majority is everybody, so an acceptor's mark is above every elected vote. */
  lemma MarkIsTop(c: Config, sys: System, a: nat, e: nat, w: Vote)
    requires Inv(c, sys) && |c.acceptors| <= 2 && a in sys.acceptors && sys.acceptors[a].log.At(e).Chosen()
    requires Elected(sys, w) && w.entry == e
    ensures Outvoted(sys.acceptors[a].log.At(e), w)
  {
    var q :| VotedBy(sys, q, w);
    WholeGroup(q, sys.acceptors.Keys);
    assert NodeSound(sys, sys.acceptors[a]);
  }

  lemma SmallMarksAgree(c: Config, sys: System, a: nat, b: nat, e: nat)
    requires Inv(c, sys) && |c.acceptors| <= 2 && a in sys.acceptors && b in sys.acceptors
    requires sys.acceptors[a].log.At(e).Chosen() && sys.acceptors[b].log.At(e).Chosen()
    ensures VoteOf(sys.acceptors[a].log.At(e).accepted.value) == VoteOf(sys.acceptors[b].log.At(e).accepted.value)
  {
    MarkIsElected(c, sys, a, e);
    MarkIsElected(c, sys, b, e);
    MarkIsTop(c, sys, a, e, VoteOf(sys.acceptors[b].log.At(e).accepted.value));
    MarkIsTop(c, sys, b, e, VoteOf(sys.acceptors[a].log.At(e).accepted.value));
  }

  lemma SmallGroupAgrees(c: Config, sys: System)
    requires Inv(c, sys) && |c.acceptors| <= 2
    ensures ChosenAgree(sys)
  {
    forall a, e | a in sys.acceptors && sys.acceptors[a].log.At(e).Chosen()
      ensures Elected(sys, VoteOf(sys.acceptors[a].log.At(e).accepted.value))
    {
      MarkIsElected(c, sys, a, e);
    }
    forall a, b, e | a in sys.acceptors && b in sys.acceptors
                     && sys.acceptors[a].log.At(e).Chosen() && sys.acceptors[b].log.At(e).Chosen()
      ensures SameVote(sys.acceptors[a].log.At(e).accepted.value, sys.acceptors[b].log.At(e).accepted.value)
    {
      SmallMarksAgree(c, sys, a, b, e);
    }
  }

  // ---------------------------------------------------------------- three acceptors or more

  const OTHER: seq<Byte> := [8]

  /** The acceptor has marked this vote chosen, with this value. */
  predicate Marked(n: Node, v: Vote, data: seq<Byte>) {
    var ent := n.log.At(v.entry);
    ent.Chosen() && VoteOf(ent.accepted.value) == v && ent.accepted.value.data == data
  }

  /** An acceptor that holds an announced vote marks it. */
  lemma Marks(c: Config, sys: System, a: nat, v: Vote, data: seq<Byte>) returns (end: System)
    requires a in sys.acceptors && Announces(sys, v)
    requires var ent := sys.acceptors[a].log.At(v.entry);
             && ent.accepted.Some? && ent.accepted.value.status == ACCEPTED
             && VoteOf(ent.accepted.value) == v && ent.accepted.value.data == data
    ensures Reaches(c, sys, end) && end == sys.(acceptors := end.acceptors, net := end.net)
    ensures end.acceptors.Keys == sys.acceptors.Keys && Marked(end.acceptors[a], v, data)
    ensures forall z :: z in sys.acceptors && z != a ==> end.acceptors[z] == sys.acceptors[z]
  {
    var x :| x in sys.net && AnnouncesBy(x, v);
    ServeOne(c, sys, a, x);
    ReachesSelf(c, sys);
    ReachesNext(c, sys, sys, Serve(a, x, true));
    end := Next(c, sys, Serve(a, x, true));
    CommitMarks(sys.acceptors[a], x.body, v, data);
  }

  lemma CommitMarks(n: Node, p: Proposal, v: Vote, data: seq<Byte>)
    requires VoteOf(p) == v
    requires var ent := n.log.At(v.entry);
             && ent.accepted.Some? && ent.accepted.value.status == ACCEPTED
             && VoteOf(ent.accepted.value) == v && ent.accepted.value.data == data
    ensures Marked(NodeStep(n, Choose(p, true)), v, data)
  {
    StepAt(n, Choose(p, true), v.entry);
  }

  /** The skipping member's proposal for entry 2. */
  function Second(t: Inst): Proposal {
    Opened(t, Draft(t, 0, OTHER))
  }

  lemma SkipCall(c: Config, sys: System, k: nat) returns (end: System)
    requires k in sys.proposers && k in c.skippers && 0 < k < 0x1_0000 && Ahead(sys.proposers[k].inst, k, 1)
    ensures Reaches(c, sys, end) && end.acceptors == sys.acceptors && end.spent == sys.spent && end.nextBid == sys.nextBid + 1
    ensures var t, p := sys.proposers[k].inst, Second(sys.proposers[k].inst);
            var s := OnPropose(t, 0, OTHER).inst;
            && end.proposers == sys.proposers[k := Peer(s, sys.nextBid, {})]
            && Ask(AcceptReq, k, p.term, sys.nextBid, p) in end.net
            && Attempt(s, p, Accepting) && WithCounts(s, 0) == s && s.proposerId == k && s.lastChosen == 1
            && VoteOf(p) == Vote(2, k + 1, t.nextVid) && p.proposer == k && p.data == OTHER && p.lastChosen == 1
  {
    ReachesSelf(c, sys);
    ReachesNext(c, sys, sys, Call(k, 0, OTHER));
    end := Next(c, sys, Call(k, 0, OTHER));
  }

  /** The skipped accept gets in wherever the first proposal was accepted or nothing was. */
  lemma SkipWelcome(n: Node, p: Proposal)
    requires p.entry == 2 && p.pid > 1 && p.lastChosen == 1 && (Untouched(n) || HoldsFirst(n))
    ensures Welcomes(n, p)
  {
  }

  /** The acceptor has accepted the first proposal of entry 2 and does not know it chosen. */
  predicate HoldsFirst(n: Node) {
    Quiet(n) && var x := n.log.At(2).accepted; x.Some? && x.value.status == ACCEPTED && x.value.pid == 1
  }

  /** Another majority, without `a`, takes the skipping member's proposal; it announces that, and `b` marks it. */
  lemma Overturns(c: Config, sys: System, k: nat, a: nat, r: set<nat>) returns (end: System, b: nat)
    requires c.Valid() && Countable(c) && 0 < k < c.proposers && k in c.skippers && sys.acceptors.Keys == c.acceptors
    requires k in sys.proposers && Ahead(sys.proposers[k].inst, k, 1) && BidsOld(sys, sys.nextBid)
    requires r <= c.acceptors - {a} && |r| == Majority(|c.acceptors|)
    requires forall z :: z in r ==> Untouched(sys.acceptors[z]) || HoldsFirst(sys.acceptors[z])
    ensures Reaches(c, sys, end) && b in r && end.acceptors.Keys == c.acceptors
    ensures Marked(end.acceptors[b], Vote(2, k + 1, sys.proposers[k].inst.nextVid), OTHER)
    ensures a in sys.acceptors ==> end.acceptors[a] == sys.acceptors[a]
  {
    var p := Second(sys.proposers[k].inst);
    var s := OnPropose(sys.proposers[k].inst, 0, OTHER).inst;
    var asked := SkipCall(c, sys, k);
    forall z | z in r
      ensures Welcomes(asked.acceptors[z], p)
    {
      SkipWelcome(asked.acceptors[z], p);
    }
    var voted := AllVote(c, asked, r, Ask(AcceptReq, k, p.term, sys.nextBid, p));
    ReachesTrans(c, sys, asked, voted);
    var told := Concludes(c, voted, k, r, s, p, sys.nextBid);
    ReachesTrans(c, sys, voted, told);
    b :| b in r;
    assert Voted(asked.acceptors[b], voted.acceptors[b], p);
    end := Marks(c, told, b, VoteOf(p), OTHER);
    ReachesTrans(c, sys, told, end);
  }

  /** Member 0 announces its proposal for entry 2, and `a` marks it. */
  lemma MarksFirst(c: Config, sys: System, k: nat, q: set<nat>, bid: nat, a: nat) returns (end: System)
    requires Setting(c, k, q) && sys.acceptors.Keys == c.acceptors && a in q
    requires FirstTaken(sys, q) && Answered(sys, 0, q, Told(c, k), bid)
    requires k in sys.proposers && Ahead(sys.proposers[k].inst, k, 1)
    ensures Reaches(c, sys, end) && end.acceptors.Keys == c.acceptors && Marked(end.acceptors[a], Vote(2, 1, 0), VALUE)
    ensures k in end.proposers && end.proposers[k] == sys.proposers[k] && BidsOld(end, end.nextBid)
    ensures forall z :: z in c.acceptors && z != a ==> end.acceptors[z] == sys.acceptors[z]
  {
    var told := Finish(c, sys, 0, q, Told(c, k), bid);
    end := Marks(c, told, a, Vote(2, 1, 0), VALUE);
    ReachesTrans(c, sys, told, end);
  }

  /** Two acceptors' marks for entry 2 carry different votes and different values. */
  ghost predicate SplitAt(sys: System, a: nat, b: nat, v: Vote, w: Vote) {
    && a in sys.acceptors && b in sys.acceptors && v.entry == w.entry == 2 && v != w
    && Marked(sys.acceptors[a], v, VALUE) && Marked(sys.acceptors[b], w, OTHER)
  }

  ghost predicate Split(sys: System) {
    exists a, b, v, w :: SplitAt(sys, a, b, v, w)
  }

  /** The first half of the run: acceptor `a` of `q` has marked the first proposal of entry 2. */
  lemma FirstHalf(c: Config, k: nat, q: set<nat>, a: nat) returns (end: System)
    requires Setting(c, k, q) && a in q
    ensures Reaches(c, Begin(c, k), end) && end.acceptors.Keys == c.acceptors && Marked(end.acceptors[a], Vote(2, 1, 0), VALUE)
    ensures k in end.proposers && Ahead(end.proposers[k].inst, k, 1) && BidsOld(end, end.nextBid)
    ensures forall z :: z in q && z != a ==> HoldsFirst(end.acceptors[z])
    ensures forall z :: z in c.acceptors && z !in q ==> Untouched(end.acceptors[z])
  {
    var one := FirstEntry(c, k, q);
    var two := FirstMajority(c, one, k, q);
    ReachesTrans(c, Begin(c, k), one, two);
    end := MarksFirst(c, two, k, q, one.nextBid + 1, a);
    ReachesTrans(c, Begin(c, k), two, end);
  }

  lemma SkipperSplits(c: Config, k: nat)
    requires c.Valid() && Countable(c) && 3 <= |c.acceptors| && 0 < k < c.proposers && k in c.skippers
    ensures exists sys, end :: Init(c, sys) && Reaches(c, sys, end) && Split(end)
  {
    BeginIsInit(c, k);
    var q := SubsetOf(c.acceptors, Majority(|c.acceptors|));
    var a :| a in q;
    var r := SubsetOf(c.acceptors - {a}, Majority(|c.acceptors|));
    var mid := FirstHalf(c, k, q, a);
    var end, b := Overturns(c, mid, k, a, r);
    ReachesTrans(c, Begin(c, k), mid, end);
    assert SplitAt(end, a, b, Vote(2, 1, 0), Vote(2, k + 1, mid.proposers[k].inst.nextVid));
  }

  // ---------------------------------------------------------------- exactly when marks and values agree

  lemma SplitVotes(sys: System)
    requires Split(sys)
    ensures !ChosenAgree(sys)
  {
    var a, b, v, w :| SplitAt(sys, a, b, v, w);
  }

  lemma SplitValues(sys: System)
    requires Split(sys)
    ensures !SameValues(sys)
  {
    var a, b, v, w :| SplitAt(sys, a, b, v, w);
    assert VALUE[0] != OTHER[0];
  }

  ghost predicate MarksAlwaysAgree(c: Config) {
    forall sys, end :: Init(c, sys) && Reaches(c, sys, end) ==> ChosenAgree(end)
  }

  ghost predicate ValuesAlwaysAgree(c: Config) {
    forall sys, end :: Init(c, sys) && Reaches(c, sys, end) ==> SameValues(end)
  }

  lemma MarksAgreeIn(c: Config, sys: System, acts: seq<Action>)
    requires Init(c, sys) && Legal(c, sys, acts) && (|c.acceptors| <= 2 || c.skippers <= {0})
    ensures ChosenAgree(After(c, sys, acts)) && SameValues(After(c, sys, acts))
  {
    if c.skippers <= {0} {
      AgreementHolds(c, sys, acts);
    } else {
      InitSound(c, sys);
      RunSound(c, sys, acts);
      SmallGroupAgrees(c, After(c, sys, acts));
    }
    MarkedValuesAgree(c, sys, acts);
  }

  /**
   * Exactly when chosen marks agree in all runs of a group, and exactly when the values under them do: if it
   * has at most two acceptors, or no member but 0 may skip the prepare phase.
   */
  lemma MarksAgreeIff(c: Config)
    requires c.Valid() && Countable(c) && forall i :: i in c.skippers ==> i < c.proposers
    ensures MarksAlwaysAgree(c) <==> |c.acceptors| <= 2 || c.skippers <= {0}
    ensures ValuesAlwaysAgree(c) <==> |c.acceptors| <= 2 || c.skippers <= {0}
  {
    if |c.acceptors| <= 2 || c.skippers <= {0} {
      forall sys, end | Init(c, sys) && Reaches(c, sys, end)
        ensures ChosenAgree(end) && SameValues(end)
      {
        var acts :| Legal(c, sys, acts) && After(c, sys, acts) == end;
        MarksAgreeIn(c, sys, acts);
      }
    } else {
      var k :| k in c.skippers && k !in {0};
      SkipperSplits(c, k);
      var sys, end :| Init(c, sys) && Reaches(c, sys, end) && Split(end);
      SplitVotes(end);
      SplitValues(end);
    }
  }
}
