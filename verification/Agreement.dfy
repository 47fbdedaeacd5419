/** At most one proposal per entry is ever accepted by a majority, and only that one can be marked chosen. */
module Agreement {
  import opened Ptype
  import opened AcceptorSpec
  import opened AcceptorRuns
  import opened ProposerSpec
  import opened Consensus
  import opened ConsensusProof

  lemma InitSound(c: Config, sys: System)
    requires Init(c, sys)
    ensures Inv(c, sys) && Guarded(sys)
  {
    forall i | i in sys.proposers
      ensures PeerSound(sys, i) && VotersSound(sys, i) && sys.proposers[i].inst.step == c.proposers
    {
      var vid :| sys.proposers[i] == Peer(Initial(i, c.proposers, vid), 0, {});
      assert i + 1 == i + 1 + 0 * c.proposers;
    }
  }

  /** The event an action gives to a proposer. */
  function EventOf(act: Action): Event
    requires !act.Serve?
  {
    match act
    case Call(_, opaqueId, value) => Propose(opaqueId, value)
    case Receive(answer) => if answer.Answer? && answer.ask.Ask? then Deliver(answer.ask.term, answer.msg) else Expire(0)
    case Timer(_, term) => Expire(term)
    case Tell(_, chosen, from, fromPlog) => Notice(chosen, from, fromPlog)
  }

  function MoverOf(act: Action): nat
    requires !act.Serve?
  {
    match act
    case Call(i, _, _) => i
    case Receive(answer) => if answer.Answer? && answer.ask.Ask? then answer.ask.owner else 0
    case Timer(i, _) => i
    case Tell(i, _, _, _) => i
  }

  /** The answer an event stems from, or a stand-in. */
  function SourceOf(act: Action): Packet {
    if act.Receive? then act.answer else Answer(0, Ask(ChosenReq, 0, 0, 0, ZERO), PaxosMsg(ChosenRsp, OK, ZERO))
  }

  /** Every action but a served request is a proposer's turn. */
  lemma NextIsTurn(c: Config, sys: System, act: Action)
    requires Enabled(c, sys, act) && !act.Serve?
    ensures Speaks(sys, MoverOf(act)) && Comes(sys, MoverOf(act), EventOf(act), SourceOf(act))
    ensures Next(c, sys, act) == Turned(c, sys, MoverOf(act), EventOf(act), SourceOf(act))
  {
  }

  /** Every step keeps the invariant, whoever skips the prepare phase. */
  lemma StepSound(c: Config, sys: System, act: Action)
    requires Inv(c, sys) && Enabled(c, sys, act)
    ensures Inv(c, Next(c, sys, act))
  {
    if act.Serve? {
      ServeKeeps(c, sys, Next(c, sys, act), act.a, act.ask, act.saved);
    } else {
      NextIsTurn(c, sys, act);
      TurnKeeps(c, sys, MoverOf(act), EventOf(act), SourceOf(act));
    }
  }

  /** Accepts stay guarded as long as only member 0 skips. */
  lemma StepGuarded(c: Config, sys: System, act: Action)
    requires Inv(c, sys) && Guarded(sys) && Enabled(c, sys, act) && c.skippers <= {0}
    ensures Guarded(Next(c, sys, act))
  {
    if act.Serve? {
      RequestSound(c, sys, act.a, act.ask);
      ServeGrows(sys, act.a, act.ask, act.saved);
      ServeGuarded(sys, Next(c, sys, act), act.a, act.ask, act.saved);
    } else {
      NextIsTurn(c, sys, act);
      assert PeerSound(sys, MoverOf(act));
      TurnGuarded(c, sys, Next(c, sys, act), MoverOf(act), EventOf(act), SourceOf(act));
    }
  }

  lemma {:induction false} RunSound(c: Config, sys: System, acts: seq<Action>)
    requires Inv(c, sys) && Legal(c, sys, acts)
    ensures Inv(c, After(c, sys, acts))
    decreases |acts|
  {
    if acts != [] {
      StepSound(c, sys, acts[0]);
      RunSound(c, Next(c, sys, acts[0]), acts[1..]);
    }
  }

  lemma {:induction false} RunGuarded(c: Config, sys: System, acts: seq<Action>)
    requires Inv(c, sys) && Guarded(sys) && Legal(c, sys, acts) && c.skippers <= {0}
    ensures Guarded(After(c, sys, acts))
    decreases |acts|
  {
    if acts != [] {
      StepSound(c, sys, acts[0]);
      StepGuarded(c, sys, acts[0]);
      RunGuarded(c, Next(c, sys, acts[0]), acts[1..]);
    }
  }

  // ---------------------------------------------------------------- agreement

  lemma QuorumsMeet(sys: System, q: set<nat>, p: set<nat>) returns (a: nat)
    requires IsQuorum(sys, q) && IsQuorum(sys, p)
    ensures a in q && a in p
  {
    if q * p == {} {
      UnionSize(q, p);
      SubsetSize(q + p, sys.acceptors.Keys);
      assert false;
    }
    a :| a in q * p;
  }

  lemma UnionSize(q: set<nat>, p: set<nat>)
    requires q * p == {}
    ensures |q + p| == |q| + |p|
  {
  }

  lemma {:induction false} SubsetSize(small: set<nat>, large: set<nat>)
    requires small <= large
    ensures |small| <= |large|
  {
    assert large == small + (large - small);
    UnionSize(small, large - small);
  }

  /** A majority cannot have voted below a pid that an accept was asked for. */
  lemma NoLowerMajority(c: Config, sys: System, v: Vote, w: Vote)
    requires Inv(c, sys) && Guarded(sys) && Elected(sys, v) && Elected(sys, w) && v.entry == w.entry
    ensures !(v.pid < w.pid)
  {
    var q :| VotedBy(sys, q, v);
    var p :| VotedBy(sys, p, w);
    var a := QuorumsMeet(sys, q, p);
    assert NodeSound(sys, sys.acceptors[a]);
    if v.pid < w.pid {
      var b :| Bars(sys, b, w.entry, w.pid);
      var d := QuorumsMeet(sys, q, b);
    }
  }

  lemma ElectedUnique(c: Config, sys: System, v: Vote, w: Vote)
    requires Inv(c, sys) && Guarded(sys) && Elected(sys, v) && Elected(sys, w) && v.entry == w.entry
    ensures v == w
  {
    NoLowerMajority(c, sys, v, w);
    NoLowerMajority(c, sys, w, v);
    var q :| VotedBy(sys, q, v);
    var p :| VotedBy(sys, p, w);
    var a := QuorumsMeet(sys, q, p);
    assert NodeSound(sys, sys.acceptors[a]);
  }

  /** No two proposals for one entry have each been held by a majority at some time. */
  ghost predicate Agrees(sys: System) {
    forall v, w :: Elected(sys, v) && Elected(sys, w) && v.entry == w.entry ==> v == w
  }

  /** Chosen marks carry a proposal a majority accepted, and all acceptors mark the same one. */
  ghost predicate ChosenAgree(sys: System) {
    && (forall a, e :: a in sys.acceptors && sys.acceptors[a].log.At(e).Chosen() ==>
          Elected(sys, VoteOf(sys.acceptors[a].log.At(e).accepted.value)))
    && (forall a, b, e :: a in sys.acceptors && b in sys.acceptors
                          && sys.acceptors[a].log.At(e).Chosen() && sys.acceptors[b].log.At(e).Chosen() ==>
          SameVote(sys.acceptors[a].log.At(e).accepted.value, sys.acceptors[b].log.At(e).accepted.value))
  }

  /** A chosen mark sits on its own entry's proposal, which a majority has voted for. */
  lemma MarkIsElected(c: Config, sys: System, a: nat, e: nat)
    requires Inv(c, sys) && a in sys.acceptors && sys.acceptors[a].log.At(e).Chosen()
    ensures var p := sys.acceptors[a].log.At(e).accepted.value;
            Elected(sys, VoteOf(p)) && p.entry == e
  {
    var n := sys.acceptors[a];
    assert NodeSound(sys, n);
    assert EntryOk(e, n.log.entries[e]);
  }

  lemma MarksAgree(c: Config, sys: System)
    requires Inv(c, sys) && Agrees(sys)
    ensures ChosenAgree(sys)
  {
    forall a, e | a in sys.acceptors && sys.acceptors[a].log.At(e).Chosen()
      ensures Elected(sys, VoteOf(sys.acceptors[a].log.At(e).accepted.value))
              && sys.acceptors[a].log.At(e).accepted.value.entry == e
    {
      MarkIsElected(c, sys, a, e);
    }
  }

  /**
   * Agreement in every run of any number of acceptors and proposers, with lost, delayed, reordered and
   * repeated messages, timeouts, arbitrary notices and failed writes, provided that only member 0 ever
   * skips the prepare phase.
   */
  lemma AgreementHolds(c: Config, sys: System, acts: seq<Action>)
    requires Init(c, sys) && Legal(c, sys, acts) && c.skippers <= {0}
    ensures Agrees(After(c, sys, acts)) && ChosenAgree(After(c, sys, acts))
  {
    InitSound(c, sys);
    RunSound(c, sys, acts);
    RunGuarded(c, sys, acts);
    var end := After(c, sys, acts);
    forall v, w | Elected(end, v) && Elected(end, w) && v.entry == w.entry
      ensures v == w
    {
      ElectedUnique(c, end, v, w);
    }
    MarksAgree(c, end);
  }

  lemma ServeFinal(sys: System, b: nat, ask: Packet, saved: bool, a: nat, e: nat)
    requires a in sys.acceptors && b in sys.acceptors && ask.Ask?
    requires EntriesOk(sys.acceptors[a].log) && sys.acceptors[a].log.At(e).Chosen()
    ensures Served(sys, b, ask, saved).acceptors[a].log.At(e).accepted == sys.acceptors[a].log.At(e).accepted
  {
    StepAdvances(sys.acceptors[a], RequestOf(ask, saved), e);
  }

  lemma StepFinal(c: Config, sys: System, act: Action, a: nat, e: nat)
    requires Enabled(c, sys, act) && a in sys.acceptors && sys.acceptors[a].log.At(e).Chosen()
    requires EntriesOk(sys.acceptors[a].log)
    ensures a in Next(c, sys, act).acceptors
    ensures Next(c, sys, act).acceptors[a].log.At(e).accepted == sys.acceptors[a].log.At(e).accepted
  {
    if act.Serve? {
      ServeFinal(sys, act.a, act.ask, act.saved, a, e);
    } else {
      assert Next(c, sys, act).acceptors == sys.acceptors;
    }
  }

  /** Once an acceptor has marked an entry chosen, no later step changes the proposal it holds. */
  lemma {:induction false} ChosenIsFinal(c: Config, sys: System, acts: seq<Action>, a: nat, e: nat)
    requires Inv(c, sys) && Legal(c, sys, acts)
    requires a in sys.acceptors && sys.acceptors[a].log.At(e).Chosen()
    ensures a in After(c, sys, acts).acceptors
    ensures After(c, sys, acts).acceptors[a].log.At(e).accepted == sys.acceptors[a].log.At(e).accepted
    decreases |acts|
  {
    if acts != [] {
      StepSound(c, sys, acts[0]);
      assert NodeSound(sys, sys.acceptors[a]);
      StepFinal(c, sys, acts[0], a, e);
      ChosenIsFinal(c, Next(c, sys, acts[0]), acts[1..], a, e);
    }
  }

  /** Finality over whole runs: a chosen mark found after any run is still there after any further one. */
  lemma ChosenNeverChanges(c: Config, sys: System, acts: seq<Action>, more: seq<Action>, a: nat, e: nat)
    requires Init(c, sys) && Legal(c, sys, acts) && Legal(c, After(c, sys, acts), more)
    requires a in After(c, sys, acts).acceptors && After(c, sys, acts).acceptors[a].log.At(e).Chosen()
    ensures var mid, end := After(c, sys, acts), After(c, After(c, sys, acts), more);
            && a in end.acceptors && end.acceptors[a].log.At(e).accepted == mid.acceptors[a].log.At(e).accepted
            && Elected(end, VoteOf(end.acceptors[a].log.At(e).accepted.value))
  {
    InitSound(c, sys);
    RunSound(c, sys, acts);
    var mid := After(c, sys, acts);
    ChosenIsFinal(c, mid, more, a, e);
    RunSound(c, mid, more);
    MarkIsElected(c, After(c, mid, more), a, e);
  }
}
