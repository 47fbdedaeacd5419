/** Watermarks of all acceptors over runs of the whole system: no proposer reports the sentinel. */
module SystemWatermarks {
  import opened Ptype
  import opened AcceptorSpec
  import opened AcceptorRuns
  import opened ProposerSpec
  import opened Consensus
  import opened ConsensusProof
  import opened Agreement
  import opened ValueAgreement

  /** Entry ids in use stay below the 64-bit sentinel. */
  ghost predicate Within(sys: System) {
    forall i :: i in sys.proposers ==> sys.proposers[i].inst.lastChosen + 1 < NONE
  }

  /** What a member sends is about its next entry at most, and reports what it knows to be chosen. */
  predicate Modest(s: Inst, w: Packet)
    requires w.Ask?
  {
    w.body.entry <= s.lastChosen + 1 && (w.kind != ChosenReq ==> w.body.lastChosen <= s.lastChosen)
  }

  predicate ReqModest(s: Inst) {
    s.req.Some? ==> s.req.value.entry <= s.lastChosen + 1
  }

  ghost predicate MarksSound(sys: System) {
    && (forall a :: a in sys.acceptors ==> MarksOk(sys.acceptors[a].log))
    && (forall i :: i in sys.proposers ==> ReqModest(sys.proposers[i].inst))
    && (forall w :: w in sys.net && w.Ask? ==> w.owner in sys.proposers && Modest(sys.proposers[w.owner].inst, w))
  }

  /** None of the three watermarks falls. */
  ghost predicate Rises(n: Node, n': Node) {
    && AtLeast(n.log.lastChosen, n'.log.lastChosen)
    && AtLeast(n.log.globalMax, n'.log.globalMax)
    && AtLeast(n.log.maxInUse, n'.log.maxInUse)
  }

  lemma RisesOn(n: Node, m: Node, o: Node)
    requires Rises(n, m) && Rises(m, o)
    ensures Rises(n, o)
  {
  }

  // ---------------------------------------------------------------- one step

  /** One acceptor moved and answered: the parts make up the whole. */
  lemma AnswerMarks(sys: System, sys': System, a: nat, w: Packet)
    requires MarksSound(sys) && sys'.proposers == sys.proposers && sys'.net == sys.net + {w} && w.Answer?
    requires sys'.acceptors.Keys == sys.acceptors.Keys && a in sys.acceptors
    requires forall b :: b in sys.acceptors && b != a ==> sys'.acceptors[b] == sys.acceptors[b]
    requires MarksOk(sys'.acceptors[a].log) && Rises(sys.acceptors[a], sys'.acceptors[a])
    ensures MarksSound(sys')
    ensures forall b :: b in sys.acceptors ==> Rises(sys.acceptors[b], sys'.acceptors[b])
  {
  }

  /** Requests in flight stay below the sentinel. */
  lemma AsksArePlain(c: Config, sys: System, ask: Packet, saved: bool)
    requires MarksSound(sys) && Within(sys) && ask in sys.net && ask.Ask? && ask.kind in {PrepareReq, AcceptReq, ChosenReq}
    ensures Plain(RequestOf(ask, saved))
  {
    assert Modest(sys.proposers[ask.owner].inst, ask);
  }

  lemma ServeShape(sys: System, sys': System, a: nat, ask: Packet, saved: bool) returns (w: Packet)
    requires a in sys.acceptors && ask.Ask? && sys' == Served(sys, a, ask, saved)
    ensures sys'.proposers == sys.proposers && sys'.net == sys.net + {w} && w.Answer?
    ensures sys'.acceptors.Keys == sys.acceptors.Keys
    ensures forall b :: b in sys.acceptors && b != a ==> sys'.acceptors[b] == sys.acceptors[b]
  {
    w := Answer(a, ask, Reply(sys.acceptors[a].log, RequestOf(ask, saved), None));
  }

  lemma ServedNode(sys: System, sys': System, a: nat, ask: Packet, saved: bool)
    requires a in sys.acceptors && ask.Ask? && sys' == Served(sys, a, ask, saved)
    requires EntriesOk(sys.acceptors[a].log) && MarksOk(sys.acceptors[a].log) && Plain(RequestOf(ask, saved))
    ensures a in sys'.acceptors && MarksOk(sys'.acceptors[a].log) && Rises(sys.acceptors[a], sys'.acceptors[a])
  {
    StepKeepsMarks(sys.acceptors[a], RequestOf(ask, saved));
  }

  /** What an attempt that opens its accept phase reports. */
  lemma OpenReports(total: nat, s: Inst, m: PaxosMsg)
    requires s.Sane() && s.req.Some? && s.phase == Preparing && OnPrepareRsp(total, s, m).out.send.Some?
    ensures OnPrepareRsp(total, s, m).out.send.value.body.lastChosen == s.lastChosen
    ensures OnPrepareRsp(total, s, m).out.send.value.kind == AcceptReq
  {
  }

  lemma StartReports(s: Inst, opaqueId: nat, value: seq<Byte>)
    requires s.Sane() && s.req.None?
    ensures var o := OnPropose(s, opaqueId, value);
            && o.inst.req.Some? && o.inst.req.value.entry == s.lastChosen + 1 && o.inst.lastChosen == s.lastChosen
            && o.out.send.Some? && o.out.send.value.kind != ChosenReq
            && o.out.send.value.body.entry == s.lastChosen + 1 && o.out.send.value.body.lastChosen == s.lastChosen
  {
  }

  lemma SentModest(c: Config, sys: System, i: nat, ev: Event, w: Packet)
    requires Inv(c, sys) && MarksSound(sys) && Speaks(sys, i) && Comes(sys, i, ev, w)
    requires Handle(|c.acceptors|, sys.proposers[i].inst, ev).out.send.Some?
    ensures Modest(sys.proposers[i].inst, Sent(c, sys, i, ev))
  {
    var s := sys.proposers[i].inst;
    assert ReqModest(s);
    var how := LoudTurn(|c.acceptors|, s, ev);
    match how {
      case Starts =>
        StartReports(s, ev.opaqueId, ev.value);
      case Opens =>
        OpenFacts(c, sys, i, ev, w);
        OpenReports(|c.acceptors|, s, ev.msg);
      case Wins =>
        CountedAccept(c, sys, i, ev, w);
    }
  }

  lemma CarriesModest(s: Inst, s': Inst)
    requires Carries(s, s') && ReqModest(s)
    ensures ReqModest(s')
  {
  }

  /** Requests in flight stay modest while their senders only learn. */
  lemma OldAsksModest(sys: System, sys': System, i: nat, x: Packet)
    requires MarksSound(sys) && NewAsks(sys, sys', i, x) && i in sys.proposers && sys'.proposers.Keys == sys.proposers.Keys
    requires sys.proposers[i].inst.lastChosen <= sys'.proposers[i].inst.lastChosen
    requires forall j :: j in sys.proposers && j != i ==> sys'.proposers[j] == sys.proposers[j]
    requires x in sys'.net && x !in sys.net && x.Ask? ==> Modest(sys.proposers[i].inst, x)
    ensures forall w :: w in sys'.net && w.Ask? ==> w.owner in sys'.proposers && Modest(sys'.proposers[w.owner].inst, w)
  {
    forall w | w in sys'.net && w.Ask?
      ensures w.owner in sys'.proposers && Modest(sys'.proposers[w.owner].inst, w)
    {
      if w in sys.net {
        assert Modest(sys.proposers[w.owner].inst, w);
      }
    }
  }

  lemma TurnMarks(c: Config, sys: System, i: nat, ev: Event, w: Packet)
    requires Inv(c, sys) && MarksSound(sys) && Speaks(sys, i) && Comes(sys, i, ev, w)
    ensures var sys' := Turned(c, sys, i, ev, w); MarksSound(sys') && sys'.acceptors == sys.acceptors
  {
    var sys' := Turned(c, sys, i, ev, w);
    TurnAdds(c, sys, {}, i, ev, w);
    CarriesModest(sys.proposers[i].inst, sys'.proposers[i].inst);
    if Handle(|c.acceptors|, sys.proposers[i].inst, ev).out.send.Some? {
      SentModest(c, sys, i, ev, w);
    }
    OldAsksModest(sys, sys', i, Sent(c, sys, i, ev));
  }

  lemma StepMarks(c: Config, sys: System, act: Action)
    requires Inv(c, sys) && MarksSound(sys) && Within(sys) && Enabled(c, sys, act)
    ensures var sys' := Next(c, sys, act);
            && MarksSound(sys')
            && forall b :: b in sys.acceptors ==> b in sys'.acceptors && Rises(sys.acceptors[b], sys'.acceptors[b])
  {
    if act.Serve? {
      RequestSound(c, sys, act.a, act.ask);
      AsksArePlain(c, sys, act.ask, act.saved);
      ServedNode(sys, Next(c, sys, act), act.a, act.ask, act.saved);
      var w := ServeShape(sys, Next(c, sys, act), act.a, act.ask, act.saved);
      AnswerMarks(sys, Next(c, sys, act), act.a, w);
    } else {
      NextIsTurn(c, sys, act);
      TurnMarks(c, sys, MoverOf(act), EventOf(act), SourceOf(act));
    }
  }

  // ---------------------------------------------------------------- whole runs

  lemma StepWithin(c: Config, sys: System, act: Action)
    requires Enabled(c, sys, act) && Within(Next(c, sys, act))
    ensures Within(sys)
  {
    if !act.Serve? {
      NextIsTurn(c, sys, act);
      TurnAdds(c, sys, {}, MoverOf(act), EventOf(act), SourceOf(act));
    }
  }

  lemma {:induction false} RunWithin(c: Config, sys: System, acts: seq<Action>)
    requires Legal(c, sys, acts) && Within(After(c, sys, acts))
    ensures Within(sys)
    decreases |acts|
  {
    if acts != [] {
      RunWithin(c, Next(c, sys, acts[0]), acts[1..]);
      StepWithin(c, sys, acts[0]);
    }
  }

  lemma {:induction false} RunMarks(c: Config, sys: System, acts: seq<Action>, a: nat)
    requires Inv(c, sys) && MarksSound(sys) && Legal(c, sys, acts) && Within(After(c, sys, acts)) && a in sys.acceptors
    ensures var end := After(c, sys, acts);
            MarksSound(end) && a in end.acceptors && Rises(sys.acceptors[a], end.acceptors[a])
    decreases |acts|
  {
    if acts != [] {
      var next := Next(c, sys, acts[0]);
      RunWithin(c, sys, acts);
      StepSound(c, sys, acts[0]);
      StepMarks(c, sys, acts[0]);
      RunMarks(c, next, acts[1..], a);
      RisesOn(sys.acceptors[a], next.acceptors[a], After(c, sys, acts).acceptors[a]);
    }
  }

  lemma InitMarks(c: Config, sys: System)
    requires Init(c, sys)
    ensures MarksSound(sys)
  {
  }

  /**
   * In every run of the system in which entry ids stay below the 64-bit sentinel, at every acceptor: the last
   * chosen entry is none or exactly the greatest one marked chosen, the three watermarks are ordered, and none
   * of them ever falls from one point of the run to a later one. No condition on what is reported is needed.
   */
  lemma WatermarksHold(c: Config, sys: System, acts: seq<Action>, more: seq<Action>, a: nat)
    requires Init(c, sys) && Legal(c, sys, acts) && Legal(c, After(c, sys, acts), more)
    requires Within(After(c, After(c, sys, acts), more)) && a in sys.acceptors
    ensures var mid, end := After(c, sys, acts), After(c, After(c, sys, acts), more);
            && a in mid.acceptors && a in end.acceptors
            && MarksOk(mid.acceptors[a].log) && MarksOk(end.acceptors[a].log) && Rises(mid.acceptors[a], end.acceptors[a])
  {
    var mid := After(c, sys, acts);
    InitSound(c, sys);
    InitMarks(c, sys);
    RunSound(c, sys, acts);
    RunWithin(c, mid, more);
    RunMarks(c, sys, acts, a);
    RunMarks(c, mid, more, a);
  }
}
