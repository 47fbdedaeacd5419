/** Every step of the system keeps the invariant. */
module ConsensusProof {
  import opened Ptype
  import opened IdGeneration
  import opened AcceptorSpec
  import opened AcceptorRuns
  import opened ProposerSpec
  import opened Consensus
  import ProposalIds

  // ---------------------------------------------------------------- an acceptor handles a request

  lemma NodeStepGrows(n: Node, r: Request)
    requires NodeOk(n)
    ensures NodeGrows(n, NodeStep(n, r))
  {
    var n' := NodeStep(n, r);
    forall e
      ensures Floor(n.log.At(e)) <= Floor(n'.log.At(e))
    {
      StepAdvances(n, r, e);
    }
    forall v | v in n'.votes && v !in n.votes
      ensures Floor(n.log.At(v.entry)) <= v.pid
    {
      StepAdvances(n, r, v.entry);
    }
  }

  /** A request leaves every promise as it was, or replaces it by the prepare request itself. */
  lemma StepPromise(n: Node, r: Request, e: nat)
    ensures var old', new' := n.log.At(e).promised, NodeStep(n, r).log.At(e).promised;
            || new' == old'
            || new' == None
            || (r.Prepare? && r.body.pid > 0 && r.body.entry == e && new' == Some(r.body.(status := PROMISED)))
  {
    StepAt(n, r, e);
  }

  /** A request casts at most the vote of an accept request. */
  lemma StepVotes(n: Node, r: Request)
    ensures forall v :: v in NodeStep(n, r).votes && v !in n.votes ==> r.Accept? && v == VoteOf(r.body)
  {
  }

  /** An entry becomes chosen only through a chosen request for the very proposal it holds. */
  lemma StepChosen(n: Node, r: Request, e: nat)
    requires NodeOk(n) && NodeStep(n, r).log.At(e).Chosen()
    ensures var was, now := n.log.At(e), NodeStep(n, r).log.At(e);
            || (was.Chosen() && now.accepted == was.accepted)
            || (r.Choose? && VoteOf(now.accepted.value) == VoteOf(r.body))
  {
    StepAt(n, r, e);
    if e == r.body.entry {
      EntryStepKeeps(e, n.log.At(e), r);
    }
  }

  lemma ServePromises(sys: System, sys': System, n: Node, ask: Packet, saved: bool)
    requires Grows(sys, sys') && ask.Ask? && NodeSound(sys, n) && AskSound(sys, ask)
    ensures var n' := NodeStep(n, RequestOf(ask, saved));
            forall e :: e in n'.log.entries && n'.log.entries[e].promised.Some? ==>
              Owned(sys', n'.log.entries[e].promised.value)
  {
    var r := RequestOf(ask, saved);
    var n' := NodeStep(n, r);
    forall e | e in n'.log.entries && n'.log.entries[e].promised.Some?
      ensures Owned(sys', n'.log.entries[e].promised.value)
    {
      StepPromise(n, r, e);
      assert n'.log.At(e) == n'.log.entries[e];
      assert n.log.At(e).promised.Some? ==> n.log.At(e) == n.log.entries[e];
    }
  }

  /** A chosen mark found after a request sits on a vote that a majority has cast. */
  lemma MarkIsSound(sys: System, n: Node, r: Request, e: nat)
    requires NodeSound(sys, n) && (r.Choose? ==> Elected(sys, VoteOf(r.body)))
    requires NodeStep(n, r).log.At(e).Chosen()
    ensures Elected(sys, VoteOf(NodeStep(n, r).log.At(e).accepted.value))
  {
    StepChosen(n, r, e);
    if n.log.At(e).Chosen() {
      assert n.log.At(e) == n.log.entries[e];
    }
  }

  lemma ServeChosen(sys: System, sys': System, n: Node, r: Request)
    requires Grows(sys, sys') && NodeSound(sys, n) && (r.Choose? ==> Elected(sys, VoteOf(r.body)))
    ensures var n' := NodeStep(n, r);
            forall e :: e in n'.log.entries && n'.log.entries[e].Chosen() ==>
              Elected(sys', VoteOf(n'.log.entries[e].accepted.value))
  {
    var n' := NodeStep(n, r);
    forall e | e in n'.log.entries && n'.log.entries[e].Chosen()
      ensures Elected(sys', VoteOf(n'.log.entries[e].accepted.value))
    {
      MarkIsSound(sys, n, r, e);
      ElectedGrows(sys, sys', VoteOf(n'.log.entries[e].accepted.value));
    }
  }

  lemma ServeNode(sys: System, sys': System, n: Node, ask: Packet, saved: bool)
    requires Grows(sys, sys') && ask.Ask? && ask.kind in {PrepareReq, AcceptReq, ChosenReq}
    requires NodeSound(sys, n) && AskSound(sys, ask)
    ensures NodeSound(sys', NodeStep(n, RequestOf(ask, saved)))
  {
    var r := RequestOf(ask, saved);
    StepKeepsEntries(n, r);
    StepKeepsVotes(n, r);
    ServePromises(sys, sys', n, ask, saved);
    ServeChosen(sys, sys', n, r);
    forall v | v in NodeStep(n, r).votes
      ensures v.pid > 0
    {
      StepVotes(n, r);
    }
  }

  /** A promise answer means that nothing below the asked pid was or will be accepted there. */
  lemma PromiseBars(n: Node, pp: Proposal, saved: bool)
    requires NodeOk(n) && pp.pid > 0
    requires var m := Reply(n.log, Prepare(pp, saved), None); m.err == OK && m.body.status == PROMISED
    ensures Barred(NodeStep(n, Prepare(pp, saved)), pp.entry, pp.pid)
  {
    var r := Prepare(pp, saved);
    StepAt(n, r, pp.entry);
    assert n.log.At(pp.entry).accepted.None?;
  }

  /** What a promise answer carries: the request itself, or a promise made earlier at no lower pid. */
  lemma PromiseBody(n: Node, pp: Proposal, saved: bool)
    requires NodeOk(n)
    requires var m := Reply(n.log, Prepare(pp, saved), None); m.err == OK && m.body.status == PROMISED
    ensures var m := Reply(n.log, Prepare(pp, saved), None);
            || VoteOf(m.body) == VoteOf(pp)
            || (&& n.log.At(pp.entry).promised.Some?
                && var q := n.log.At(pp.entry).promised.value;
                   VoteOf(m.body) == VoteOf(q) && m.body.proposer == q.proposer
                   && pp.pid <= q.pid && 0 < q.pid && q.entry == pp.entry)
  {
  }

  lemma AcceptAnswer(n: Node, pp: Proposal, saved: bool)
    requires var m := Reply(n.log, Accept(pp, saved), None); m.err == OK && m.body.status == ACCEPTED
    ensures var m := Reply(n.log, Accept(pp, saved), None);
            VoteOf(m.body) == VoteOf(pp) && VoteOf(pp) in NodeStep(n, Accept(pp, saved)).votes
  {
  }

  lemma ReplyKind(n: Node, ask: Packet, saved: bool)
    requires ask.Ask? && ask.kind in {PrepareReq, AcceptReq, ChosenReq}
    ensures var m := Reply(n.log, RequestOf(ask, saved), None);
            && (m.kind == PrepareRsp <==> ask.kind == PrepareReq)
            && (m.kind == AcceptRsp <==> ask.kind == AcceptReq)
  {
  }

  lemma ServePromise(sys: System, sys': System, a: nat, ask: Packet, saved: bool)
    requires a in sys.acceptors && ask.Ask? && ask.kind == PrepareReq && Grows(sys, sys')
    requires NodeSound(sys, sys.acceptors[a])
    requires sys'.acceptors[a] == NodeStep(sys.acceptors[a], Prepare(ask.body, saved))
    requires var m := Reply(sys.acceptors[a].log, Prepare(ask.body, saved), None); m.err == OK && m.body.status == PROMISED
    ensures PromiseSound(sys', a, ask, Reply(sys.acceptors[a].log, Prepare(ask.body, saved), None).body)
  {
    var n, pp := sys.acceptors[a], ask.body;
    if pp.pid > 0 {
      PromiseBars(n, pp, saved);
    }
    PromiseBody(n, pp, saved);
    var body := Reply(n.log, Prepare(pp, saved), None).body;
    if VoteOf(body) != VoteOf(pp) {
      OwnedGrows(sys, sys', n.log.At(pp.entry).promised.value, body);
    }
  }

  lemma OwnedGrows(sys: System, sys': System, p: Proposal, q: Proposal)
    requires Grows(sys, sys') && Owned(sys, p) && VoteOf(q) == VoteOf(p) && q.proposer == p.proposer
    ensures Owned(sys', q)
  {
  }

  lemma ServeAnswer(sys: System, sys': System, a: nat, ask: Packet, saved: bool)
    requires a in sys.acceptors && ask.Ask? && ask.kind in {PrepareReq, AcceptReq, ChosenReq}
    requires Grows(sys, sys') && ask in sys'.net
    requires NodeSound(sys, sys.acceptors[a])
    requires sys'.acceptors[a] == NodeStep(sys.acceptors[a], RequestOf(ask, saved))
    ensures AnswerSound(sys', Answer(a, ask, Reply(sys.acceptors[a].log, RequestOf(ask, saved), None)))
  {
    var n := sys.acceptors[a];
    var m := Reply(n.log, RequestOf(ask, saved), None);
    ReplyKind(n, ask, saved);
    if m.kind == PrepareRsp && m.err == OK && m.body.status == PROMISED {
      ServePromise(sys, sys', a, ask, saved);
    } else if m.kind == AcceptRsp && m.err == OK && m.body.status == ACCEPTED {
      AcceptAnswer(n, ask.body, saved);
    }
  }

  /** Packets already in flight stay sound as long as their senders keep their link to them. */
  lemma OldPackets(sys: System, sys': System)
    requires Grows(sys, sys')
    requires forall w :: w in sys.net ==> PacketSound(sys, w)
    requires forall w :: w in sys.net && w.Ask? ==> w.owner in sys'.proposers && Linked(sys'.proposers[w.owner], w)
    ensures forall w :: w in sys.net ==> PacketSound(sys', w)
  {
    forall w | w in sys.net
      ensures PacketSound(sys', w)
    {
      assert PacketSound(sys, w);
      if w.Ask? {
        AskGrows(sys, sys', w);
      } else {
        AnswerGrows(sys, sys', w);
      }
    }
  }

  /** Proposers that did not move stay sound. */
  lemma OldPeers(sys: System, sys': System, moved: set<nat>)
    requires Grows(sys, sys')
    requires forall i :: i in sys.proposers ==> PeerSound(sys, i) && VotersSound(sys, i)
    requires forall i :: i in sys.proposers && i !in moved ==> sys'.proposers[i] == sys.proposers[i]
    ensures forall i :: i in sys.proposers && i !in moved ==> PeerSound(sys', i) && VotersSound(sys', i)
  {
    forall i | i in sys.proposers && i !in moved
      ensures PeerSound(sys', i) && VotersSound(sys', i)
    {
      PeerStays(sys, sys', i);
    }
  }

  /** So do acceptors. */
  lemma OldNodes(sys: System, sys': System, moved: set<nat>)
    requires Grows(sys, sys')
    requires forall a :: a in sys.acceptors ==> NodeSound(sys, sys.acceptors[a])
    requires forall a :: a in sys.acceptors && a !in moved ==> sys'.acceptors[a] == sys.acceptors[a]
    ensures forall a :: a in sys.acceptors && a !in moved ==> NodeSound(sys', sys'.acceptors[a])
  {
    forall a | a in sys.acceptors && a !in moved
      ensures NodeSound(sys', sys'.acceptors[a])
    {
      NodeStays(sys, sys', sys.acceptors[a]);
    }
  }

  lemma ServeGrows(sys: System, a: nat, ask: Packet, saved: bool)
    requires a in sys.acceptors && ask.Ask? && NodeOk(sys.acceptors[a])
    ensures Grows(sys, Served(sys, a, ask, saved))
  {
    NodeStepGrows(sys.acceptors[a], RequestOf(ask, saved));
    forall b | b in sys.acceptors
      ensures NodeGrows(sys.acceptors[b], Served(sys, a, ask, saved).acceptors[b])
    {
    }
  }

  lemma AnsweredPackets(sys: System, sys': System, w: Packet)
    requires Grows(sys, sys') && forall x :: x in sys.net ==> PacketSound(sys, x)
    requires sys'.proposers == sys.proposers && sys'.net == sys.net + {w} && w.Answer? && AnswerSound(sys', w)
    ensures forall x :: x in sys'.net ==> PacketSound(sys', x)
  {
    forall x | x in sys.net && x.Ask?
      ensures x.owner in sys'.proposers && Linked(sys'.proposers[x.owner], x)
    {
      assert PacketSound(sys, x);
    }
    OldPackets(sys, sys');
  }

  /** One acceptor moved and answered, everything else stayed: the parts make up the invariant. */
  lemma AnsweredSound(c: Config, sys: System, sys': System, a: nat)
    requires Inv(c, sys) && Grows(sys, sys') && sys'.proposers == sys.proposers
    requires forall b :: b in sys.acceptors && b != a ==> sys'.acceptors[b] == sys.acceptors[b]
    requires a in sys'.acceptors && NodeSound(sys', sys'.acceptors[a])
    requires forall x :: x in sys'.net ==> PacketSound(sys', x)
    ensures Inv(c, sys')
  {
    OldNodes(sys, sys', {a});
    OldPeers(sys, sys', {});
  }

  /** What serving a request changes: one acceptor moves, and its answer joins the network. */
  ghost predicate Joins(sys: System, sys': System, a: nat, w: Packet) {
    && Grows(sys, sys') && sys'.proposers == sys.proposers && sys'.net == sys.net + {w}
    && (forall b :: b in sys.acceptors && b != a ==> sys'.acceptors[b] == sys.acceptors[b])
    && a in sys'.acceptors && NodeSound(sys', sys'.acceptors[a]) && w.Answer? && AnswerSound(sys', w)
  }

  lemma ServeAdds(sys: System, sys': System, a: nat, ask: Packet, saved: bool) returns (w: Packet)
    requires a in sys.acceptors && ask in sys.net && ask.Ask? && ask.kind in {PrepareReq, AcceptReq, ChosenReq}
    requires sys' == Served(sys, a, ask, saved) && NodeSound(sys, sys.acceptors[a]) && AskSound(sys, ask)
    ensures Joins(sys, sys', a, w)
  {
    w := Answer(a, ask, Reply(sys.acceptors[a].log, RequestOf(ask, saved), None));
    ServeGrows(sys, a, ask, saved);
    ServeNode(sys, sys', sys.acceptors[a], ask, saved);
    ServeAnswer(sys, sys', a, ask, saved);
  }

  lemma AnswerJoins(c: Config, sys: System, sys': System, a: nat, w: Packet)
    requires Inv(c, sys) && Joins(sys, sys', a, w)
    ensures Inv(c, sys')
  {
    AnsweredPackets(sys, sys', w);
    AnsweredSound(c, sys, sys', a);
  }

  lemma RequestSound(c: Config, sys: System, a: nat, ask: Packet)
    requires Inv(c, sys) && a in sys.acceptors && ask in sys.net && ask.Ask?
    ensures NodeSound(sys, sys.acceptors[a]) && AskSound(sys, ask)
  {
    assert PacketSound(sys, ask);
  }

  lemma ServeKeeps(c: Config, sys: System, sys': System, a: nat, ask: Packet, saved: bool)
    requires Inv(c, sys) && Enabled(c, sys, Serve(a, ask, saved)) && sys' == Served(sys, a, ask, saved)
    ensures Inv(c, sys')
  {
    RequestSound(c, sys, a, ask);
    var w := ServeAdds(sys, sys', a, ask, saved);
    AnswerJoins(c, sys, sys', a, w);
  }

  // ---------------------------------------------------------------- a proposer handles an event

  /** The attempt, if it goes on, keeps its proposal, phase and term; `counted` says whether an answer was. */
  predicate GoesOn(s: Inst, s': Inst, counted: bool) {
    s'.req.Some? ==>
      && s.req.Some? && VoteOf(s'.req.value) == VoteOf(s.req.value) && s'.phase == s.phase && s'.term == s.term
      && s'.validCount == if counted then Bump(s.validCount) else s.validCount
  }

  lemma QuietPrepareRsp(total: nat, s: Inst, m: PaxosMsg)
    requires s.Sane() && s.req.Some? && s.phase == Preparing && OnPrepareRsp(total, s, m).out.send.None?
    ensures GoesOn(s, OnPrepareRsp(total, s, m).inst, CountsPromise(s, m))
  {
  }

  lemma QuietAcceptRsp(total: nat, s: Inst, m: PaxosMsg)
    requires s.Sane() && s.req.Some? && s.phase == Accepting && OnAcceptRsp(total, s, m).out.send.None?
    ensures GoesOn(s, OnAcceptRsp(total, s, m).inst, CountsAccept(s, m))
  {
  }

  /** Nothing is sent: the attempt, if it goes on, keeps its proposal and phase. */
  lemma QuietTurn(total: nat, s: Inst, ev: Event)
    requires s.Sane() && Handle(total, s, ev).out.send.None?
    ensures GoesOn(s, Handle(total, s, ev).inst, Counts(s, ev))
  {
    if ev.Deliver? && Current(s, ev.term) {
      if s.phase == Preparing {
        QuietPrepareRsp(total, s, ev.msg);
      } else if s.phase == Accepting {
        QuietAcceptRsp(total, s, ev.msg);
      }
    }
  }

  datatype Move = Starts | Opens | Wins

  /** The three ways a proposer comes to send something. */
  predicate Moves(total: nat, s: Inst, ev: Event, s': Inst, m: PaxosMsg, how: Move) {
    match how
    case Starts =>
      && ev.Propose? && s.req.None? && s'.req.Some? && s'.term == s.term + 1
      && s'.req.value.valueId == s.nextVid && VoteOf(m.body) == VoteOf(s'.req.value) && m.body.term == s.term
      && m.body.proposer == s'.req.value.proposer
      && (m.kind == PrepareReq || (m.kind == AcceptReq && OnePhase(s, ev.value)))
      && s'.phase == (if m.kind == PrepareReq then Preparing else Accepting)
    case Opens =>
      && ev.Deliver? && Current(s, ev.term) && CountsPromise(s, ev.msg) && ev.msg.body.pid > 0
      && Majority(total) <= Bump(s.validCount)
      && m.kind == AcceptReq && s'.phase == Accepting && s'.req.Some? && VoteOf(s'.req.value) == VoteOf(s.req.value)
      && s'.term == s.term
      && (var s1 := Counted(s, ev.msg.body);
          var pick := if s1.notified then s1.lastv else s1.req;
          pick.Some? && VoteOf(m.body) == VoteOf(pick.value) && m.body.proposer == pick.value.proposer)
    case Wins =>
      && ev.Deliver? && Current(s, ev.term) && CountsAccept(s, ev.msg)
      && Majority(total) <= Bump(s.validCount)
      && m.kind == ChosenReq && s'.req.None? && VoteOf(m.body) == VoteOf(ev.msg.body)
  }

  lemma LoudTurn(total: nat, s: Inst, ev: Event) returns (how: Move)
    requires s.Sane() && Handle(total, s, ev).out.send.Some?
    ensures var o := Handle(total, s, ev);
            && Moves(total, s, ev, o.inst, o.out.send.value, how)
            && (o.inst.req.Some? ==> o.inst.validCount == 0)
  {
    if ev.Propose? {
      how := Starts;
    } else if s.phase == Preparing {
      how := Opens;
    } else {
      how := Wins;
    }
  }

  predicate InstGrows(s: Inst, s': Inst) {
    s.term <= s'.term && s.nextVid <= s'.nextVid && s.step == s'.step && s.proposerId == s'.proposerId
  }

  lemma PrepareRspGrows(total: nat, s: Inst, m: PaxosMsg)
    requires s.Sane() && s.req.Some? && s.phase == Preparing
    ensures InstGrows(s, OnPrepareRsp(total, s, m).inst)
  {
  }

  lemma AcceptRspGrows(total: nat, s: Inst, m: PaxosMsg)
    requires s.Sane() && s.req.Some? && s.phase == Accepting
    ensures InstGrows(s, OnAcceptRsp(total, s, m).inst)
  {
  }

  lemma HandleGrows(total: nat, s: Inst, ev: Event)
    requires s.Sane()
    ensures InstGrows(s, Handle(total, s, ev).inst)
  {
    if ev.Deliver? && Current(s, ev.term) {
      if s.phase == Preparing {
        PrepareRspGrows(total, s, ev.msg);
      } else if s.phase == Accepting {
        AcceptRspGrows(total, s, ev.msg);
      }
    }
  }

  /** A counted foreign promise names the attempt's own proposer, entry and pid. */
  predicate FitsAttempt(s: Inst, ev: Event) {
    ev.Deliver? && Current(s, ev.term) && CountsPromise(s, ev.msg) && Foreign(s, ev.msg.body) ==>
      var r, p := s.req.value, ev.msg.body;
      p.proposer == r.proposer && p.entry == r.entry && p.pid == r.pid && p.valueId < s.nextVid
  }

  lemma InstKeeps(total: nat, i: nat, s: Inst, ev: Event)
    requires InstSound(i, s) && i < 0x1_0000 && FitsAttempt(s, ev)
    ensures InstSound(i, Handle(total, s, ev).inst)
  {
    ProposalIds.TrackStep(total, s, ev);
  }

  /** A response event stems from an answer in flight that its callback has not yet seen. */
  predicate Comes(sys: System, i: nat, ev: Event, w: Packet) {
    ev.Deliver? ==>
      && w in sys.net && w.Answer? && w.ask.Ask? && w.ask.owner == i
      && ev == Deliver(w.ask.term, w.msg) && (w.ask.bid, w.acceptor) !in sys.spent
  }

  lemma CountedPromise(c: Config, sys: System, i: nat, ev: Event, w: Packet)
    requires Inv(c, sys) && i in sys.proposers && Comes(sys, i, ev, w)
    requires ev.Deliver? && Current(sys.proposers[i].inst, ev.term) && CountsPromise(sys.proposers[i].inst, ev.msg)
    ensures var peer := sys.proposers[i];
            var r := peer.inst.req.value;
            && w.acceptor in sys.acceptors && w.acceptor !in peer.voters && w.ask.bid == peer.bid
            && (r.pid > 0 ==> Barred(sys.acceptors[w.acceptor], r.entry, r.pid))
            && FitsAttempt(peer.inst, ev)
  {
    var peer := sys.proposers[i];
    var s, p := peer.inst, ev.msg.body;
    assert PacketSound(sys, w) && PacketSound(sys, w.ask);
    assert PeerSound(sys, i) && VotersSound(sys, i);
    assert VoteOf(w.ask.body) == VoteOf(s.req.value);
    if Foreign(s, p) {
      assert p.pid == s.req.value.pid;
      TracksDisjoint(p.proposer, i, c.proposers, p.pid);
    }
  }

  lemma CountedAccept(c: Config, sys: System, i: nat, ev: Event, w: Packet)
    requires Inv(c, sys) && i in sys.proposers && Comes(sys, i, ev, w)
    requires ev.Deliver? && Current(sys.proposers[i].inst, ev.term) && CountsAccept(sys.proposers[i].inst, ev.msg)
    ensures var peer := sys.proposers[i];
            var v := VoteOf(peer.inst.req.value);
            && w.acceptor in sys.acceptors && w.acceptor !in peer.voters && w.ask.bid == peer.bid
            && VoteOf(ev.msg.body) == v && v in sys.acceptors[w.acceptor].votes
  {
    assert PacketSound(sys, w) && PacketSound(sys, w.ask);
    assert VotersSound(sys, i);
  }

  /** The state of the system after the turn, with the answer marked as used. */
  function Turned(c: Config, sys: System, i: nat, ev: Event, w: Packet): System
    requires Speaks(sys, i) && Comes(sys, i, ev, w)
  {
    if ev.Deliver? then
      Turn(c, sys, i, ev, w.acceptor).(spent := sys.spent + {(w.ask.bid, w.acceptor)})
    else Turn(c, sys, i, ev, 0)
  }

  /** What a turn leaves alone, and what it may add to the network. */
  lemma TurnShape(c: Config, sys: System, i: nat, ev: Event, w: Packet)
    requires Speaks(sys, i) && Comes(sys, i, ev, w)
    ensures var sys', send := Turned(c, sys, i, ev, w), Handle(|c.acceptors|, sys.proposers[i].inst, ev).out.send;
            && i in sys'.proposers && sys'.proposers[i].inst == Handle(|c.acceptors|, sys.proposers[i].inst, ev).inst
            && sys.spent <= sys'.spent && sys.nextBid <= sys'.nextBid
            && sys'.acceptors == sys.acceptors && sys'.proposers.Keys == sys.proposers.Keys
            && (forall j :: j in sys.proposers && j != i ==> sys'.proposers[j] == sys.proposers[j])
            && sys'.net == sys.net + if send.Some?
                                     then {Ask(send.value.kind, i, send.value.body.term, sys.nextBid, send.value.body)}
                                     else {}
  {
  }

  lemma TurnGrows(c: Config, sys: System, i: nat, ev: Event, w: Packet)
    requires Speaks(sys, i) && Comes(sys, i, ev, w)
    ensures Grows(sys, Turned(c, sys, i, ev, w))
  {
    TurnShape(c, sys, i, ev, w);
    HandleGrows(|c.acceptors|, sys.proposers[i].inst, ev);
    PeerGrows(sys, Turned(c, sys, i, ev, w), i);
  }

  lemma PeerGrows(sys: System, sys': System, i: nat)
    requires i in sys.proposers && sys'.acceptors == sys.acceptors && sys'.proposers.Keys == sys.proposers.Keys
    requires forall j :: j in sys.proposers && j != i ==> sys'.proposers[j] == sys.proposers[j]
    requires InstGrows(sys.proposers[i].inst, sys'.proposers[i].inst)
    requires sys.net <= sys'.net && sys.spent <= sys'.spent && sys.nextBid <= sys'.nextBid
    ensures Grows(sys, sys')
  {
  }

  lemma TurnPeer(c: Config, sys: System, i: nat, ev: Event, w: Packet)
    requires Inv(c, sys) && Speaks(sys, i) && Comes(sys, i, ev, w)
    ensures PeerSound(Turned(c, sys, i, ev, w), i)
  {
    var s := sys.proposers[i].inst;
    assert PeerSound(sys, i);
    if ev.Deliver? && Current(s, ev.term) && CountsPromise(s, ev.msg) {
      CountedPromise(c, sys, i, ev, w);
    }
    InstKeeps(|c.acceptors|, i, s, ev);
  }

  /** A counted answer makes its acceptor one more sound voter of the attempt. */
  lemma CountedVoter(c: Config, sys: System, i: nat, ev: Event, w: Packet)
    requires Inv(c, sys) && i in sys.proposers && Comes(sys, i, ev, w) && Counts(sys.proposers[i].inst, ev)
    ensures var peer := sys.proposers[i];
            && w.acceptor !in peer.voters && w.ask.bid == peer.bid
            && VoterSound(sys.(spent := sys.spent + {(w.ask.bid, w.acceptor)}), peer.bid, peer.inst, w.acceptor)
  {
    if CountsPromise(sys.proposers[i].inst, ev.msg) {
      CountedPromise(c, sys, i, ev, w);
    } else {
      CountedAccept(c, sys, i, ev, w);
    }
  }

  /** Whoever vouched for an attempt goes on doing so while its proposal and phase stay. */
  lemma VoterKept(sys: System, sys': System, bid: nat, s: Inst, s': Inst, a: nat)
    requires s.req.Some? && s'.req.Some? && VoteOf(s'.req.value) == VoteOf(s.req.value) && s'.phase == s.phase
    requires sys'.acceptors == sys.acceptors && sys.spent <= sys'.spent && VoterSound(sys, bid, s, a)
    ensures VoterSound(sys', bid, s', a)
  {
  }

  /** The voters of an attempt that goes on, with one more if an answer was counted. */
  lemma VotersKept(sys: System, sys': System, i: nat, counted: bool, who: nat)
    requires VotersSound(sys, i) && i in sys'.proposers && sys'.acceptors == sys.acceptors && sys.spent <= sys'.spent
    requires var peer, peer' := sys.proposers[i], sys'.proposers[i];
             && peer.inst.req.Some? && peer'.inst.req.Some? && VoteOf(peer'.inst.req.value) == VoteOf(peer.inst.req.value)
             && peer'.inst.phase == peer.inst.phase && peer'.bid == peer.bid
             && peer'.voters == (if counted then peer.voters + {who} else peer.voters)
             && peer'.inst.validCount == (if counted then Bump(peer.inst.validCount) else peer.inst.validCount)
             && (counted ==>
                   who !in peer.voters && VoterSound(sys.(spent := sys'.spent), peer.bid, peer.inst, who))
    ensures VotersSound(sys', i)
  {
    var peer, peer' := sys.proposers[i], sys'.proposers[i];
    if counted {
      VoterKept(sys.(spent := sys'.spent), sys', peer.bid, peer.inst, peer'.inst, who);
    }
    forall a | a in peer.voters
      ensures VoterSound(sys', peer.bid, peer'.inst, a)
    {
      VoterKept(sys, sys', peer.bid, peer.inst, peer'.inst, a);
    }
  }

  lemma QuietVoters(c: Config, sys: System, i: nat, ev: Event, w: Packet)
    requires Inv(c, sys) && Speaks(sys, i) && Comes(sys, i, ev, w)
    requires Handle(|c.acceptors|, sys.proposers[i].inst, ev).out.send.None?
    ensures VotersSound(Turned(c, sys, i, ev, w), i)
  {
    var sys' := Turned(c, sys, i, ev, w);
    var peer := sys.proposers[i];
    if sys'.proposers[i].inst.req.Some? {
      assert VotersSound(sys, i);
      QuietTurn(|c.acceptors|, peer.inst, ev);
      if Counts(peer.inst, ev) {
        CountedVoter(c, sys, i, ev, w);
        VotersKept(sys, sys', i, true, w.acceptor);
      } else {
        VotersKept(sys, sys', i, false, 0);
      }
    }
  }

  lemma TurnVoters(c: Config, sys: System, i: nat, ev: Event, w: Packet)
    requires Inv(c, sys) && Speaks(sys, i) && Comes(sys, i, ev, w)
    ensures VotersSound(Turned(c, sys, i, ev, w), i)
  {
    if Handle(|c.acceptors|, sys.proposers[i].inst, ev).out.send.Some? {
      var how := LoudTurn(|c.acceptors|, sys.proposers[i].inst, ev);
    } else {
      QuietVoters(c, sys, i, ev, w);
    }
  }

  /** The promises counted for an attempt that now opens its accept phase bar everything below it. */
  lemma OpeningIsBacked(sys: System, i: nat, a: nat)
    requires VotersSound(sys, i)
    requires var s := sys.proposers[i].inst;
             && s.req.Some? && s.phase == Preparing && s.req.value.pid > 0
             && Majority(|sys.acceptors.Keys|) <= Bump(s.validCount)
             && a in sys.acceptors && a !in sys.proposers[i].voters
             && Barred(sys.acceptors[a], s.req.value.entry, s.req.value.pid)
    ensures var r := sys.proposers[i].inst.req.value;
            Backed(sys, r.entry, r.pid)
  {
    var peer := sys.proposers[i];
    var r := peer.inst.req.value;
    var q := peer.voters + {a};
    forall b | b in peer.voters
      ensures b in sys.acceptors && Barred(sys.acceptors[b], r.entry, r.pid)
    {
      assert VoterSound(sys, peer.bid, peer.inst, b);
    }
    assert Bars(sys, q, r.entry, r.pid);
  }

  /** The accepts counted for an attempt that now wins are a majority of votes for its proposal. */
  lemma WinningIsElected(sys: System, i: nat, a: nat)
    requires VotersSound(sys, i)
    requires var s := sys.proposers[i].inst;
             && s.req.Some? && s.phase == Accepting
             && Majority(|sys.acceptors.Keys|) <= Bump(s.validCount)
             && a in sys.acceptors && a !in sys.proposers[i].voters
             && VoteOf(s.req.value) in sys.acceptors[a].votes
    ensures Elected(sys, VoteOf(sys.proposers[i].inst.req.value))
  {
    var peer := sys.proposers[i];
    var v := VoteOf(peer.inst.req.value);
    var q := peer.voters + {a};
    forall b | b in peer.voters
      ensures b in sys.acceptors && v in sys.acceptors[b].votes
    {
      assert VoterSound(sys, peer.bid, peer.inst, b);
    }
    assert VotedBy(sys, q, v);
  }

  /** A proposal sent by a sound proposer as its own is owned by it. */
  lemma OwnIsOwned(sys: System, i: nat, p: Proposal)
    requires PeerSound(sys, i) && sys.proposers[i].inst.req.Some?
    requires var r := sys.proposers[i].inst.req.value;
             p.proposer == r.proposer && p.pid == r.pid && p.pid > 0 && p.valueId < sys.proposers[i].inst.nextVid
    ensures Owned(sys, p)
  {
  }

  lemma StartAsk(c: Config, sys: System, i: nat, ev: Event, w: Packet)
    requires Inv(c, sys) && Speaks(sys, i) && Comes(sys, i, ev, w)
    requires ev.Propose? && sys.proposers[i].inst.req.None?
    ensures var m := Handle(|c.acceptors|, sys.proposers[i].inst, ev).out.send.value;
            AskSound(Turned(c, sys, i, ev, w), Ask(m.kind, i, m.body.term, sys.nextBid, m.body))
  {
    var s, sys' := sys.proposers[i].inst, Turned(c, sys, i, ev, w);
    TurnPeer(c, sys, i, ev, w);
    assert PeerSound(sys, i);
    var m := OnPropose(s, ev.opaqueId, ev.value).out.send.value;
    if m.body.pid > 0 {
      OwnIsOwned(sys', i, m.body);
    }
  }

  /** When the accept phase opens, a majority is barred below the attempt, and what is sent is of the attempt. */
  lemma OpenFacts(c: Config, sys: System, i: nat, ev: Event, w: Packet)
    requires Inv(c, sys) && Speaks(sys, i) && Comes(sys, i, ev, w)
    requires var o := Handle(|c.acceptors|, sys.proposers[i].inst, ev);
             o.out.send.Some? && Moves(|c.acceptors|, sys.proposers[i].inst, ev, o.inst, o.out.send.value, Opens)
    ensures var s, m := sys.proposers[i].inst, Handle(|c.acceptors|, sys.proposers[i].inst, ev).out.send.value;
            && s.req.Some? && s.req.value.pid > 0 && Backed(sys, s.req.value.entry, s.req.value.pid)
            && m.kind == AcceptReq && m.body.proposer == s.req.value.proposer == i
            && m.body.entry == s.req.value.entry && m.body.pid == s.req.value.pid && m.body.valueId < s.nextVid
  {
    var s := sys.proposers[i].inst;
    CountedPromise(c, sys, i, ev, w);
    assert PeerSound(sys, i) && VotersSound(sys, i);
    OpeningIsBacked(sys, i, w.acceptor);
    OpeningPick(s, ev);
  }

  lemma OpenAsk(c: Config, sys: System, i: nat, ev: Event, w: Packet)
    requires Inv(c, sys) && Speaks(sys, i) && Comes(sys, i, ev, w)
    requires var o := Handle(|c.acceptors|, sys.proposers[i].inst, ev);
             o.out.send.Some? && Moves(|c.acceptors|, sys.proposers[i].inst, ev, o.inst, o.out.send.value, Opens)
    ensures var m := Handle(|c.acceptors|, sys.proposers[i].inst, ev).out.send.value;
            AskSound(Turned(c, sys, i, ev, w), Ask(m.kind, i, m.body.term, sys.nextBid, m.body))
  {
    var s, sys' := sys.proposers[i].inst, Turned(c, sys, i, ev, w);
    var m := Handle(|c.acceptors|, s, ev).out.send.value;
    OpenFacts(c, sys, i, ev, w);
    TurnGrows(c, sys, i, ev, w);
    TurnPeer(c, sys, i, ev, w);
    OwnIsOwned(sys', i, m.body);
  }

  /** Whether it is the client's proposal or the picked one, it has the attempt's proposer, entry and pid. */
  lemma OpeningPick(s: Inst, ev: Event)
    requires s.Sane() && s.req.Some? && s.phase == Preparing && s.req.value.valueId < s.nextVid
    requires s.notified ==> PickSound(s)
    requires ev.Deliver? && Current(s, ev.term) && CountsPromise(s, ev.msg) && FitsAttempt(s, ev)
    ensures var s1 := Counted(s, ev.msg.body);
            var pick := if s1.notified then s1.lastv else s1.req;
            && pick.Some?
            && var p, r := pick.value, s.req.value;
               p.proposer == r.proposer && p.entry == r.entry && p.pid == r.pid && p.valueId < s.nextVid
               && (s1.notified <==> p.valueId != r.valueId)
  {
  }

  lemma WinAsk(c: Config, sys: System, i: nat, ev: Event, w: Packet)
    requires Inv(c, sys) && Speaks(sys, i) && Comes(sys, i, ev, w)
    requires var o := Handle(|c.acceptors|, sys.proposers[i].inst, ev);
             o.out.send.Some? && Moves(|c.acceptors|, sys.proposers[i].inst, ev, o.inst, o.out.send.value, Wins)
    ensures var m := Handle(|c.acceptors|, sys.proposers[i].inst, ev).out.send.value;
            AskSound(Turned(c, sys, i, ev, w), Ask(m.kind, i, m.body.term, sys.nextBid, m.body))
  {
    var sys' := Turned(c, sys, i, ev, w);
    TurnGrows(c, sys, i, ev, w);
    CountedAccept(c, sys, i, ev, w);
    assert VotersSound(sys, i);
    WinningIsElected(sys, i, w.acceptor);
    ElectedGrows(sys, sys', VoteOf(ev.msg.body));
  }

  lemma TurnAsk(c: Config, sys: System, i: nat, ev: Event, w: Packet)
    requires Inv(c, sys) && Speaks(sys, i) && Comes(sys, i, ev, w)
    requires Handle(|c.acceptors|, sys.proposers[i].inst, ev).out.send.Some?
    ensures var m := Handle(|c.acceptors|, sys.proposers[i].inst, ev).out.send.value;
            AskSound(Turned(c, sys, i, ev, w), Ask(m.kind, i, m.body.term, sys.nextBid, m.body))
  {
    var how := LoudTurn(|c.acceptors|, sys.proposers[i].inst, ev);
    match how {
      case Starts => StartAsk(c, sys, i, ev, w);
      case Opens => OpenAsk(c, sys, i, ev, w);
      case Wins => WinAsk(c, sys, i, ev, w);
    }
  }

  // ---------------------------------------------------------------- links between requests and attempts

  /** A request already in flight keeps its link to the attempt of its sender. */
  lemma OldLink(c: Config, sys: System, i: nat, ev: Event, w: Packet, ask: Packet)
    requires Inv(c, sys) && Speaks(sys, i) && Comes(sys, i, ev, w) && ask in sys.net && ask.Ask? && ask.owner == i
    ensures Linked(Turned(c, sys, i, ev, w).proposers[i], ask)
  {
    var s, sys' := sys.proposers[i].inst, Turned(c, sys, i, ev, w);
    assert PacketSound(sys, ask);
    if Handle(|c.acceptors|, s, ev).out.send.Some? {
      var how := LoudTurn(|c.acceptors|, s, ev);
    } else {
      QuietTurn(|c.acceptors|, s, ev);
    }
  }

  lemma NewLink(c: Config, sys: System, i: nat, ev: Event, w: Packet)
    requires Inv(c, sys) && Speaks(sys, i) && Comes(sys, i, ev, w)
    requires Handle(|c.acceptors|, sys.proposers[i].inst, ev).out.send.Some?
    ensures var m := Handle(|c.acceptors|, sys.proposers[i].inst, ev).out.send.value;
            Linked(Turned(c, sys, i, ev, w).proposers[i], Ask(m.kind, i, m.body.term, sys.nextBid, m.body))
  {
    var s := sys.proposers[i].inst;
    var how := LoudTurn(|c.acceptors|, s, ev);
    if how == Opens {
      CountedPromise(c, sys, i, ev, w);
      assert PeerSound(sys, i);
      OpeningPick(s, ev);
    }
  }

  /** Only the proposer that moved can lose a link. */
  lemma LinksAfter(sys: System, sys': System, i: nat)
    requires Grows(sys, sys') && forall x :: x in sys.net ==> PacketSound(sys, x)
    requires forall j :: j in sys.proposers && j != i ==> sys'.proposers[j] == sys.proposers[j]
    requires i in sys'.proposers && forall x :: x in sys.net && x.Ask? && x.owner == i ==> Linked(sys'.proposers[i], x)
    ensures forall x :: x in sys.net ==> PacketSound(sys', x)
  {
    forall x | x in sys.net && x.Ask?
      ensures x.owner in sys'.proposers && Linked(sys'.proposers[x.owner], x)
    {
      assert PacketSound(sys, x);
    }
    OldPackets(sys, sys');
  }

  lemma NewPacket(c: Config, sys: System, i: nat, ev: Event, w: Packet)
    requires Inv(c, sys) && Speaks(sys, i) && Comes(sys, i, ev, w)
    requires Handle(|c.acceptors|, sys.proposers[i].inst, ev).out.send.Some?
    ensures var m := Handle(|c.acceptors|, sys.proposers[i].inst, ev).out.send.value;
            PacketSound(Turned(c, sys, i, ev, w), Ask(m.kind, i, m.body.term, sys.nextBid, m.body))
  {
    TurnAsk(c, sys, i, ev, w);
    NewLink(c, sys, i, ev, w);
  }

  lemma TurnPackets(c: Config, sys: System, sys': System, i: nat, ev: Event, w: Packet)
    requires Inv(c, sys) && Speaks(sys, i) && Comes(sys, i, ev, w)
    requires sys' == Turned(c, sys, i, ev, w) && Grows(sys, sys')
    ensures forall x :: x in sys'.net ==> PacketSound(sys', x)
  {
    TurnShape(c, sys, i, ev, w);
    forall x | x in sys.net && x.Ask? && x.owner == i
      ensures Linked(sys'.proposers[i], x)
    {
      OldLink(c, sys, i, ev, w, x);
    }
    LinksAfter(sys, sys', i);
    if Handle(|c.acceptors|, sys.proposers[i].inst, ev).out.send.Some? {
      NewPacket(c, sys, i, ev, w);
    }
  }

  /** One proposer moved, everything else stayed: the parts make up the invariant. */
  lemma Assembled(c: Config, sys: System, sys': System, i: nat)
    requires Inv(c, sys) && Grows(sys, sys') && sys'.acceptors == sys.acceptors
    requires forall j :: j in sys.proposers && j != i ==> sys'.proposers[j] == sys.proposers[j]
    requires PeerSound(sys', i) && VotersSound(sys', i) && forall x :: x in sys'.net ==> PacketSound(sys', x)
    ensures Inv(c, sys')
  {
    OldNodes(sys, sys', {});
    OldPeers(sys, sys', {i});
  }

  lemma TurnKeeps(c: Config, sys: System, i: nat, ev: Event, w: Packet)
    requires Inv(c, sys) && Speaks(sys, i) && Comes(sys, i, ev, w)
    ensures Inv(c, Turned(c, sys, i, ev, w))
  {
    var sys' := Turned(c, sys, i, ev, w);
    TurnGrows(c, sys, i, ev, w);
    TurnPeer(c, sys, i, ev, w);
    TurnVoters(c, sys, i, ev, w);
    TurnPackets(c, sys, sys', i, ev, w);
    TurnShape(c, sys, i, ev, w);
    Assembled(c, sys, sys', i);
  }

  // ---------------------------------------------------------------- accepts stay guarded while only member 0 skips

  /** Only member 0 may skip the prepare phase, and then its pid is the least. */
  predicate OnePhaseAllowed(s: Inst, ev: Event) {
    ev.Propose? && OnePhase(s, ev.value) ==> s.proposerId == 0
  }

  /** Serving a request casts at most the vote it asks for. */
  lemma ServeGuarded(sys: System, sys': System, a: nat, ask: Packet, saved: bool)
    requires Guarded(sys) && Grows(sys, sys')
    requires a in sys.acceptors && ask in sys.net && ask.Ask? && ask.kind in {PrepareReq, AcceptReq, ChosenReq}
    requires sys' == Served(sys, a, ask, saved)
    ensures Guarded(sys')
  {
    forall b, v | b in sys'.acceptors && v in sys'.acceptors[b].votes
      ensures Backed(sys', v.entry, v.pid)
    {
      StepVotes(sys.acceptors[a], RequestOf(ask, saved));
      BackedGrows(sys, sys', v.entry, v.pid);
    }
    forall w | w in sys'.net && w.Ask? && w.kind == AcceptReq
      ensures Backed(sys', w.body.entry, w.body.pid)
    {
      BackedGrows(sys, sys', w.body.entry, w.body.pid);
    }
  }

  /** What a turn asks to be accepted. */
  lemma AskGuarded(c: Config, sys: System, i: nat, ev: Event, w: Packet)
    requires Inv(c, sys) && Speaks(sys, i) && Comes(sys, i, ev, w) && OnePhaseAllowed(sys.proposers[i].inst, ev)
    requires var send := Handle(|c.acceptors|, sys.proposers[i].inst, ev).out.send; send.Some? && send.value.kind == AcceptReq
    ensures var p := Handle(|c.acceptors|, sys.proposers[i].inst, ev).out.send.value.body;
            Backed(sys, p.entry, p.pid)
  {
    var how := LoudTurn(|c.acceptors|, sys.proposers[i].inst, ev);
    match how {
      case Starts => OnePhaseIsLeast(sys.proposers[i].inst, ev.opaqueId, ev.value);
      case Opens => OpenFacts(c, sys, i, ev, w);
      case Wins =>
    }
  }

  lemma OnePhaseIsLeast(s: Inst, opaqueId: nat, value: seq<Byte>)
    requires s.req.None? && OnePhase(s, value) && s.proposerId == 0
    ensures OnPropose(s, opaqueId, value).out.send.Some? && OnPropose(s, opaqueId, value).out.send.value.body.pid == 1
  {
  }

  lemma TurnGuarded(c: Config, sys: System, sys': System, i: nat, ev: Event, w: Packet)
    requires Inv(c, sys) && Guarded(sys) && Speaks(sys, i) && Comes(sys, i, ev, w)
    requires OnePhaseAllowed(sys.proposers[i].inst, ev) && sys' == Turned(c, sys, i, ev, w)
    ensures Guarded(sys')
  {
    TurnGrows(c, sys, i, ev, w);
    TurnShape(c, sys, i, ev, w);
    forall a, v | a in sys'.acceptors && v in sys'.acceptors[a].votes
      ensures Backed(sys', v.entry, v.pid)
    {
      BackedGrows(sys, sys', v.entry, v.pid);
    }
    forall x | x in sys'.net && x.Ask? && x.kind == AcceptReq
      ensures Backed(sys', x.body.entry, x.body.pid)
    {
      if x !in sys.net {
        AskGuarded(c, sys, i, ev, w);
      }
      BackedGrows(sys, sys', x.body.entry, x.body.pid);
    }
  }
}
