/**
 * Agreement needs its proviso: a run in which a member other than 0 skips the prepare phase, as the
 * one-phase test allows, lets two majorities accept different proposals for one entry.
 */
module Skippers {
  import opened Ptype
  import opened Plog
  import opened AcceptorSpec
  import opened AcceptorRuns
  import opened ProposerSpec
  import opened Consensus
  import opened Agreement

  // ---------------------------------------------------------------- composing runs

  ghost predicate Reaches(c: Config, sys: System, sys': System) {
    exists acts :: Legal(c, sys, acts) && After(c, sys, acts) == sys'
  }

  lemma ReachesSelf(c: Config, sys: System)
    ensures Reaches(c, sys, sys)
  {
    assert Legal(c, sys, []);
  }

  lemma {:induction false} ReachesMore(c: Config, sys: System, acts: seq<Action>, act: Action)
    requires Legal(c, sys, acts) && Enabled(c, After(c, sys, acts), act)
    ensures Legal(c, sys, acts + [act]) && After(c, sys, acts + [act]) == Next(c, After(c, sys, acts), act)
    decreases |acts|
  {
    if acts == [] {
      var one := Next(c, sys, act);
      assert Legal(c, one, []);
      assert [act][1..] == [];
      assert [] + [act] == [act];
    } else {
      ReachesMore(c, Next(c, sys, acts[0]), acts[1..], act);
      assert (acts + [act])[1..] == acts[1..] + [act];
    }
  }

  lemma ReachesNext(c: Config, sys: System, mid: System, act: Action)
    requires Reaches(c, sys, mid) && Enabled(c, mid, act)
    ensures Reaches(c, sys, Next(c, mid, act))
  {
    var acts :| Legal(c, sys, acts) && After(c, sys, acts) == mid;
    ReachesMore(c, sys, acts, act);
  }

  lemma {:induction false} ReachesOn(c: Config, sys: System, mid: System, acts: seq<Action>)
    requires Reaches(c, sys, mid) && Legal(c, mid, acts)
    ensures Reaches(c, sys, After(c, mid, acts))
    decreases |acts|
  {
    if acts != [] {
      ReachesNext(c, sys, mid, acts[0]);
      ReachesOn(c, sys, Next(c, mid, acts[0]), acts[1..]);
    }
  }

  lemma ReachesTrans(c: Config, sys: System, mid: System, end: System)
    requires Reaches(c, sys, mid) && Reaches(c, mid, end)
    ensures Reaches(c, sys, end)
  {
    var acts :| Legal(c, mid, acts) && After(c, mid, acts) == end;
    ReachesOn(c, sys, mid, acts);
  }

  // ---------------------------------------------------------------- what the handlers do on a quiet log

  predicate Quiet(n: Node) {
    n.log.lastChosen == NONE
  }

  /** Entries other than `e` are as before. */
  ghost predicate SameElsewhere(n: Node, n': Node, e: nat) {
    forall d :: d != e ==> n'.log.At(d) == n.log.At(d)
  }

  lemma FreshPrepare(n: Node, pp: Proposal)
    requires Quiet(n) && n.log.At(pp.entry) == EMPTY && pp.pid > 0 && pp.lastChosen < NONE
    ensures var n' := NodeStep(n, Prepare(pp, true));
            && Quiet(n') && n'.votes == n.votes && SameElsewhere(n, n', pp.entry)
            && n'.log.At(pp.entry) == Entry(Some(pp.(status := PROMISED)), None)
            && Reply(n.log, Prepare(pp, true), None) == PaxosMsg(PrepareRsp, OK, Stamped(pp, PROMISED, n.log))
  {
  }

  lemma InstallingAccept(n: Node, pp: Proposal)
    requires Quiet(n) && Installs(n.log.At(pp.entry), pp) && pp.lastChosen < NONE
    ensures var n' := NodeStep(n, Accept(pp, true));
            && Quiet(n') && n'.votes == n.votes + {VoteOf(pp)} && SameElsewhere(n, n', pp.entry)
            && n'.log.At(pp.entry) == Entry(None, Some(pp.(status := ACCEPTED)))
            && Reply(n.log, Accept(pp, true), None) == PaxosMsg(AcceptRsp, OK, Stamped(pp.(data := []), ACCEPTED, n.log))
  {
  }

  // ---------------------------------------------------------------- acceptors serve, proposers hear

  ghost predicate ServedBy(sys: System, end: System, z: nat, ask: Packet)
    requires ask.Ask?
  {
    && z in sys.acceptors && z in end.acceptors
    && var n, r := sys.acceptors[z], RequestOf(ask, true);
       end.acceptors[z] == NodeStep(n, r) && Answer(z, ask, Reply(n.log, r, None)) in end.net
  }

  /** What all steps of acceptors leave alone, and the acceptors that did not move. */
  ghost predicate OnlyServed(sys: System, end: System, q: set<nat>) {
    && end == sys.(acceptors := end.acceptors, net := end.net)
    && sys.net <= end.net && end.acceptors.Keys == sys.acceptors.Keys
    && forall z :: z in sys.acceptors && z !in q ==> end.acceptors[z] == sys.acceptors[z]
  }

  lemma ServeOne(c: Config, sys: System, a: nat, ask: Packet)
    requires a in sys.acceptors && ask in sys.net && ask.Ask? && ask.kind in {PrepareReq, AcceptReq, ChosenReq}
    ensures Enabled(c, sys, Serve(a, ask, true))
    ensures var end := Next(c, sys, Serve(a, ask, true));
            OnlyServed(sys, end, {a}) && ServedBy(sys, end, a, ask)
  {
  }

  lemma ServedOnce(sys: System, mid: System, end: System, a: nat, q: set<nat>, ask: Packet)
    requires ask.Ask? && OnlyServed(sys, mid, {a}) && ServedBy(sys, mid, a, ask) && OnlyServed(mid, end, q - {a})
    requires forall z :: z in q - {a} ==> ServedBy(mid, end, z, ask)
    ensures forall z :: z in q ==> ServedBy(sys, end, z, ask)
  {
    forall z | z in q
      ensures ServedBy(sys, end, z, ask)
    {
      assert z != a ==> ServedBy(mid, end, z, ask);
    }
  }

  /** Every acceptor of `q` serves the request in turn. */
  lemma {:induction false} ServeAll(c: Config, sys: System, q: set<nat>, ask: Packet) returns (end: System)
    requires q <= sys.acceptors.Keys && ask in sys.net && ask.Ask? && ask.kind in {PrepareReq, AcceptReq, ChosenReq}
    ensures Reaches(c, sys, end) && OnlyServed(sys, end, q)
    ensures forall z :: z in q ==> ServedBy(sys, end, z, ask)
    decreases |q|
  {
    ReachesSelf(c, sys);
    end := sys;
    if q != {} {
      var a :| a in q;
      ServeOne(c, sys, a, ask);
      ReachesNext(c, sys, sys, Serve(a, ask, true));
      var mid := Next(c, sys, Serve(a, ask, true));
      end := ServeAll(c, mid, q - {a}, ask);
      ReachesTrans(c, sys, mid, end);
      ServedOnce(sys, mid, end, a, q, ask);
    }
  }

  /** What an answer that arrives does to the system when nothing is sent. */
  lemma Hears(c: Config, sys: System, w: Packet)
    requires w in sys.net && w.Answer? && w.ask.Ask? && Speaks(sys, w.ask.owner) && (w.ask.bid, w.acceptor) !in sys.spent
    ensures Enabled(c, sys, Receive(w))
    ensures var i, end := w.ask.owner, Next(c, sys, Receive(w));
            var o := Handle(|c.acceptors|, sys.proposers[i].inst, Deliver(w.ask.term, w.msg));
            && i in end.proposers && end.proposers == sys.proposers[i := end.proposers[i]] && end.proposers[i].inst == o.inst
            && end.acceptors == sys.acceptors && end.spent == sys.spent + {(w.ask.bid, w.acceptor)}
            && (o.out.send.None? ==> end.net == sys.net && end.nextBid == sys.nextBid && end.proposers[i].bid == sys.proposers[i].bid)
            && (o.out.send.Some? ==>
                  && end.proposers[i] == Peer(o.inst, sys.nextBid, {}) && end.nextBid == sys.nextBid + 1
                  && var m := o.out.send.value;
                     end.net == sys.net + {Ask(m.kind, i, m.body.term, sys.nextBid, m.body)})
  {
  }

  /** The attempt `s` with `j` answers in, all counted. */
  function WithCounts(s: Inst, j: nat): Inst {
    s.(rspCount := j, validCount := j)
  }

  /** Fewer than `limit` answers `m` are counted and bring nothing else about. */
  ghost predicate Gathers(total: nat, s: Inst, term: nat, m: PaxosMsg, limit: nat) {
    forall j :: 0 <= j < limit ==> WithCounts(s, j).Sane() && Handle(total, WithCounts(s, j), Deliver(term, m)) == Outcome(WithCounts(s, j + 1), SILENT)
  }

  ghost predicate Pending(sys: System, q: set<nat>, ask: Packet, m: PaxosMsg)
    requires ask.Ask?
  {
    forall z :: z in q ==> Answer(z, ask, m) in sys.net && (ask.bid, z) !in sys.spent
  }

  ghost predicate HeardFrom(sys: System, end: System, q: set<nat>, bid: nat) {
    && sys.spent <= end.spent
    && forall z :: z in end.spent && z !in sys.spent ==> z.0 == bid && z.1 in q
  }

  /** What silent answers to one broadcast leave alone. */
  ghost predicate OnlyHeard(sys: System, end: System, q: set<nat>, ask: Packet)
    requires ask.Ask?
  {
    && ask.owner in end.proposers && HeardFrom(sys, end, q, ask.bid)
    && end == sys.(proposers := sys.proposers[ask.owner := end.proposers[ask.owner]], spent := end.spent)
  }

  lemma HearOne(c: Config, sys: System, q: set<nat>, z: nat, ask: Packet, m: PaxosMsg, s: Inst, j: nat)
    requires ask.Ask? && ask.owner in sys.proposers && sys.proposers[ask.owner].inst == WithCounts(s, j)
    requires Gathers(|c.acceptors|, s, ask.term, m, j + 1) && z in q && Pending(sys, q, ask, m)
    ensures Enabled(c, sys, Receive(Answer(z, ask, m)))
    ensures var end := Next(c, sys, Receive(Answer(z, ask, m)));
            && OnlyHeard(sys, end, {z}, ask) && end.proposers[ask.owner].inst == WithCounts(s, j + 1)
            && Pending(end, q - {z}, ask, m)
  {
    assert WithCounts(s, j).Sane();
    Hears(c, sys, Answer(z, ask, m));
    var end := Next(c, sys, Receive(Answer(z, ask, m)));
    assert Handle(|c.acceptors|, WithCounts(s, j), Deliver(ask.term, m)) == Outcome(WithCounts(s, j + 1), SILENT);
    assert end == System(end.acceptors, end.proposers, end.net, end.spent, end.nextBid);
  }

  lemma HeardMore(sys: System, mid: System, end: System, q: set<nat>, z: nat, ask: Packet)
    requires ask.Ask? && z in q && OnlyHeard(sys, mid, {z}, ask) && OnlyHeard(mid, end, q - {z}, ask)
    ensures OnlyHeard(sys, end, q, ask)
  {
    assert end.proposers == sys.proposers[ask.owner := end.proposers[ask.owner]];
  }

  /** The same answer arrives from every acceptor of `q`. */
  lemma {:induction false} HearSome(c: Config, sys: System, q: set<nat>, ask: Packet, m: PaxosMsg, s: Inst, j: nat, limit: nat)
      returns (end: System)
    requires ask.Ask? && ask.owner in sys.proposers && sys.proposers[ask.owner].inst == WithCounts(s, j)
    requires Gathers(|c.acceptors|, s, ask.term, m, limit) && j + |q| <= limit && Pending(sys, q, ask, m)
    ensures Reaches(c, sys, end) && OnlyHeard(sys, end, q, ask)
    ensures end.proposers[ask.owner].inst == WithCounts(s, j + |q|)
    decreases |q|
  {
    ReachesSelf(c, sys);
    end := sys;
    if q != {} {
      var z :| z in q;
      HearOne(c, sys, q, z, ask, m, s, j);
      ReachesNext(c, sys, sys, Receive(Answer(z, ask, m)));
      var mid := Next(c, sys, Receive(Answer(z, ask, m)));
      end := HearSome(c, mid, q - {z}, ask, m, s, j + 1, limit);
      ReachesTrans(c, sys, mid, end);
      HeardMore(sys, mid, end, q, z, ask);
    }
  }

  /** The answer that makes the proposer send something. */
  lemma HearLast(c: Config, sys: System, mid: System, q: set<nat>, w: Packet, o: Outcome) returns (end: System)
    requires Reaches(c, sys, mid) && w in mid.net && w.Answer? && w.ask.Ask? && Speaks(mid, w.ask.owner)
    requires (w.ask.bid, w.acceptor) !in mid.spent && w.acceptor in q && HeardFrom(sys, mid, q, w.ask.bid)
    requires o == Handle(|c.acceptors|, mid.proposers[w.ask.owner].inst, Deliver(w.ask.term, w.msg)) && o.out.send.Some?
    ensures Reaches(c, sys, end) && HeardFrom(sys, end, q, w.ask.bid)
    ensures end.acceptors == mid.acceptors && end.nextBid == mid.nextBid + 1
    ensures end.proposers == mid.proposers[w.ask.owner := Peer(o.inst, mid.nextBid, {})]
    ensures var x := o.out.send.value;
            end.net == mid.net + {Ask(x.kind, w.ask.owner, x.body.term, mid.nextBid, x.body)}
  {
    Hears(c, mid, w);
    ReachesNext(c, sys, mid, Receive(w));
    end := Next(c, mid, Receive(w));
  }

  lemma HearAllBut(c: Config, sys: System, q: set<nat>, z: nat, ask: Packet, m: PaxosMsg, s: Inst) returns (end: System)
    requires ask.Ask? && ask.owner in sys.proposers && sys.proposers[ask.owner].inst == WithCounts(s, 0)
    requires z in q && Gathers(|c.acceptors|, s, ask.term, m, |q| - 1) && Pending(sys, q, ask, m)
    ensures Reaches(c, sys, end) && OnlyHeard(sys, end, q, ask) && (ask.bid, z) !in end.spent
    ensures end.proposers[ask.owner].inst == WithCounts(s, |q| - 1)
  {
    end := HearSome(c, sys, q - {z}, ask, m, s, 0, |q| - 1);
  }

  lemma UpdateTwice(peers: map<nat, Peer>, i: nat, a: Peer, b: Peer)
    ensures peers[i := a][i := b] == peers[i := b]
  {
  }

  /** A majority less one is heard, and then the one that makes it complete. */
  lemma HearQuorum(c: Config, sys: System, q: set<nat>, ask: Packet, m: PaxosMsg, s: Inst) returns (end: System)
    requires ask.Ask? && ask.owner in sys.proposers && sys.proposers[ask.owner].inst == WithCounts(s, 0)
    requires |q| == Majority(|c.acceptors|) && Gathers(|c.acceptors|, s, ask.term, m, |q| - 1)
    requires WithCounts(s, |q| - 1).Sane() && Pending(sys, q, ask, m)
    requires Handle(|c.acceptors|, WithCounts(s, |q| - 1), Deliver(ask.term, m)).out.send.Some?
    ensures Reaches(c, sys, end) && HeardFrom(sys, end, q, ask.bid)
    ensures var o := Handle(|c.acceptors|, WithCounts(s, |q| - 1), Deliver(ask.term, m));
            var x := o.out.send.value;
            && end.acceptors == sys.acceptors && end.nextBid == sys.nextBid + 1
            && end.proposers == sys.proposers[ask.owner := Peer(o.inst, sys.nextBid, {})]
            && end.net == sys.net + {Ask(x.kind, ask.owner, x.body.term, sys.nextBid, x.body)}
  {
    var z :| z in q;
    var mid := HearAllBut(c, sys, q, z, ask, m, s);
    var o := Handle(|c.acceptors|, WithCounts(s, |q| - 1), Deliver(ask.term, m));
    end := HearLast(c, sys, mid, q, Answer(z, ask, m), o);
    UpdateTwice(sys.proposers, ask.owner, mid.proposers[ask.owner], Peer(o.inst, sys.nextBid, {}));
  }

  // ---------------------------------------------------------------- one round of a proposer with a majority

  const VALUE: seq<Byte> := [7]

  /** Groups whose majority the one-byte counters can reach. */
  predicate Countable(c: Config) {
    0 < |c.acceptors| <= 509
  }

  /** Callbacks have so far only been used for broadcasts already made. */
  ghost predicate BidsOld(sys: System, bid: nat) {
    forall z :: z in sys.spent ==> z.0 < bid
  }

  /** Proposer `i` is free and has to prepare, and the acceptors of `q` know nothing of its entry. */
  ghost predicate Idle(c: Config, sys: System, i: nat, q: set<nat>) {
    && Countable(c) && |q| == Majority(|c.acceptors|)
    && i in sys.proposers && q <= sys.acceptors.Keys && BidsOld(sys, sys.nextBid)
    && var s := sys.proposers[i].inst;
       s.Sane() && s.req.None? && s.lastChosenFrom != s.proposerId && s.nextPid > 0 && s.lastChosen < NONE
       && forall z :: z in q ==> Quiet(sys.acceptors[z]) && sys.acceptors[z].log.At(s.lastChosen + 1) == EMPTY
  }

  function Write(s: Inst): Proposal {
    Draft(s, 0, VALUE)
  }

  function PrepareAsk(i: nat, s: Inst, bid: nat): Packet {
    Ask(PrepareReq, i, s.term, bid, Write(s).(data := []))
  }

  function AcceptAsk(i: nat, s: Inst, bid: nat): Packet {
    Ask(AcceptReq, i, s.term, bid, Opened(s, Write(s)))
  }

  /** How acceptors that know nothing chosen answer. */
  function Promise(p: Proposal): PaxosMsg {
    PaxosMsg(PrepareRsp, OK, p.(data := [], status := PROMISED, lastChosen := NONE, lastChosenFrom := NO_MEMBER))
  }

  function Acceptance(p: Proposal): PaxosMsg {
    PaxosMsg(AcceptRsp, OK, p.(data := [], status := ACCEPTED, lastChosen := NONE, lastChosenFrom := NO_MEMBER))
  }

  /** The proposer once its accept request is out. */
  function Open(s: Inst): Inst {
    OnPropose(s, 0, VALUE).inst.(phase := Accepting, lastv := None, req := Some(Opened(s, Write(s))))
  }

  predicate Attempt(s: Inst, p: Proposal, phase: Phase) {
    s.Sane() && s.req == Some(p) && s.phase == phase && !s.notified && s.term == p.term + 1
  }

  /** Promises for the proposal itself gather, and the one that completes a majority opens the accept phase. */
  lemma PromisesGather(total: nat, s: Inst, p: Proposal)
    requires 0 < total <= 509 && Attempt(s, p, Preparing) && p.pid > 0
    ensures Gathers(total, s, p.term, Promise(p), Majority(total) - 1)
    ensures WithCounts(s, Majority(total) - 1).Sane()
    ensures Handle(total, WithCounts(s, Majority(total) - 1), Deliver(p.term, Promise(p))) ==
            Outcome(s.(phase := Accepting, lastv := None, rspCount := 0, validCount := 0, req := Some(Opened(s, p))),
                    Out(Some(PaxosMsg(AcceptReq, OK, Opened(s, p))), []))
  {
    forall j | 0 <= j < Majority(total) - 1
      ensures WithCounts(s, j).Sane()
              && Handle(total, WithCounts(s, j), Deliver(p.term, Promise(p))) == Outcome(WithCounts(s, j + 1), SILENT)
    {
      PromiseGathers(total, s, p, j);
    }
  }

  lemma PromiseGathers(total: nat, s: Inst, p: Proposal, j: nat)
    requires 0 < total <= 509 && Attempt(s, p, Preparing) && j + 1 < Majority(total)
    ensures Handle(total, WithCounts(s, j), Deliver(p.term, Promise(p))) == Outcome(WithCounts(s, j + 1), SILENT)
  {
  }

  lemma AcceptanceGathers(total: nat, s: Inst, p: Proposal, j: nat)
    requires 0 < total <= 509 && Attempt(s, p, Accepting) && j + 1 < Majority(total)
    ensures Handle(total, WithCounts(s, j), Deliver(p.term, Acceptance(p))) == Outcome(WithCounts(s, j + 1), SILENT)
  {
  }

  /** Acceptances gather too, and the last one makes the proposer think of its entry as chosen by itself. */
  lemma AcceptancesGather(total: nat, s: Inst, p: Proposal)
    requires 0 < total <= 509 && Attempt(s, p, Accepting) && s.lastChosen <= p.entry && p.entry !in {0, NONE}
    ensures Gathers(total, s, p.term, Acceptance(p), Majority(total) - 1)
    ensures WithCounts(s, Majority(total) - 1).Sane()
    ensures var o := Handle(total, WithCounts(s, Majority(total) - 1), Deliver(p.term, Acceptance(p)));
            && o.out.send.Some? && o.out.send.value.kind == ChosenReq && VoteOf(o.out.send.value.body) == VoteOf(p)
            && o.inst == WithCounts(s, Majority(total)).(req := None, nextPid := s.proposerId + 1,
                                                         lastChosen := p.entry, lastChosenFrom := p.proposer)
  {
    forall j | 0 <= j < Majority(total) - 1
      ensures WithCounts(s, j).Sane()
              && Handle(total, WithCounts(s, j), Deliver(p.term, Acceptance(p))) == Outcome(WithCounts(s, j + 1), SILENT)
    {
      AcceptanceGathers(total, s, p, j);
    }
  }

  /** The proposer's call, with its prepare request out. */
  lemma Calls(c: Config, sys: System, i: nat, q: set<nat>)
    requires Idle(c, sys, i, q)
    ensures Enabled(c, sys, Call(i, 0, VALUE))
    ensures var s, b, end := sys.proposers[i].inst, sys.nextBid, Next(c, sys, Call(i, 0, VALUE));
            && end == sys.(proposers := sys.proposers[i := Peer(OnPropose(s, 0, VALUE).inst, b, {})],
                           net := sys.net + {PrepareAsk(i, s, b)}, nextBid := b + 1)
            && Attempt(OnPropose(s, 0, VALUE).inst, Write(s), Preparing)
            && WithCounts(OnPropose(s, 0, VALUE).inst, 0) == OnPropose(s, 0, VALUE).inst
  {
  }

  /** After its own promise an acceptor takes the proposal. */
  lemma PromiseWelcomes(n: Node, s: Inst)
    requires Quiet(n) && n.log.At(s.lastChosen + 1) == EMPTY && s.nextPid > 0 && s.lastChosen < NONE
    ensures var n', r := NodeStep(n, Prepare(Write(s).(data := []), true)), Prepare(Write(s).(data := []), true);
            && Reply(n.log, r, None) == Promise(Write(s))
            && Welcomes(n', Opened(s, Write(s))) && n'.votes == n.votes && SameElsewhere(n, n', s.lastChosen + 1)
  {
    FreshPrepare(n, Write(s).(data := []));
  }

  ghost predicate Welcomes(n: Node, p: Proposal) {
    Quiet(n) && Installs(n.log.At(p.entry), p) && p.lastChosen < NONE
  }

  /** The acceptor has added its vote for `p` and nothing else. */
  ghost predicate Voted(n: Node, n': Node, p: Proposal) {
    && Quiet(n') && n'.votes == n.votes + {VoteOf(p)} && SameElsewhere(n, n', p.entry)
    && n'.log.At(p.entry) == Entry(None, Some(p.(status := ACCEPTED)))
  }

  /** Acceptors that welcome a proposal all vote for it and say so. */
  lemma AllVote(c: Config, sys: System, q: set<nat>, ask: Packet) returns (end: System)
    requires q <= sys.acceptors.Keys && ask in sys.net && ask.Ask? && ask.kind == AcceptReq
    requires forall z :: z in q ==> Welcomes(sys.acceptors[z], ask.body)
    ensures Reaches(c, sys, end) && end.acceptors.Keys == sys.acceptors.Keys
    ensures end == sys.(acceptors := end.acceptors, net := end.net)
    ensures forall z :: z in sys.acceptors && z !in q ==> end.acceptors[z] == sys.acceptors[z]
    ensures forall z :: z in q ==> Voted(sys.acceptors[z], end.acceptors[z], ask.body)
    ensures forall z :: z in q ==> Answer(z, ask, Acceptance(ask.body)) in end.net
  {
    end := ServeAll(c, sys, q, ask);
    forall z | z in q
      ensures Voted(sys.acceptors[z], end.acceptors[z], ask.body) && Answer(z, ask, Acceptance(ask.body)) in end.net
    {
      assert ServedBy(sys, end, z, ask);
      InstallingAccept(sys.acceptors[z], ask.body);
    }
  }

  /** The acceptors of `q` are as before but for a promise that lets the proposal of `s` in. */
  ghost predicate Promised(sys: System, end: System, q: set<nat>, s: Inst) {
    && end.acceptors.Keys == sys.acceptors.Keys
    && (forall z :: z in sys.acceptors && z !in q ==> end.acceptors[z] == sys.acceptors[z])
    && forall z :: z in q ==>
         && z in sys.acceptors && z in end.acceptors
         && Welcomes(end.acceptors[z], Opened(s, Write(s))) && end.acceptors[z].votes == sys.acceptors[z].votes
         && SameElsewhere(sys.acceptors[z], end.acceptors[z], s.lastChosen + 1)
  }

  /** Every acceptor of `q` promises. */
  lemma AllPromise(c: Config, sys: System, q: set<nat>, s: Inst, ask: Packet) returns (end: System)
    requires q <= sys.acceptors.Keys && ask in sys.net && ask.Ask? && ask.kind == PrepareReq && ask.body == Write(s).(data := [])
    requires s.nextPid > 0 && s.lastChosen < NONE
    requires forall z :: z in q ==> Quiet(sys.acceptors[z]) && sys.acceptors[z].log.At(s.lastChosen + 1) == EMPTY
    ensures Reaches(c, sys, end) && Promised(sys, end, q, s)
    ensures end == sys.(acceptors := end.acceptors, net := end.net)
    ensures forall z :: z in q ==> Answer(z, ask, Promise(Write(s))) in end.net
  {
    end := ServeAll(c, sys, q, ask);
    forall z | z in q
      ensures Answer(z, ask, Promise(Write(s))) in end.net
      ensures Welcomes(end.acceptors[z], Opened(s, Write(s))) && end.acceptors[z].votes == sys.acceptors[z].votes
      ensures SameElsewhere(sys.acceptors[z], end.acceptors[z], s.lastChosen + 1)
    {
      assert ServedBy(sys, end, z, ask);
      PromiseWelcomes(sys.acceptors[z], s);
    }
  }

  /** Call, and the promises of a majority on their way. */
  lemma Asking(c: Config, sys: System, i: nat, q: set<nat>) returns (end: System)
    requires Idle(c, sys, i, q)
    ensures Reaches(c, sys, end) && Promised(sys, end, q, sys.proposers[i].inst)
    ensures var s, b := sys.proposers[i].inst, sys.nextBid;
            && end.proposers == sys.proposers[i := Peer(OnPropose(s, 0, VALUE).inst, b, {})]
            && Pending(end, q, PrepareAsk(i, s, b), Promise(Write(s))) && BidsOld(end, b) && end.nextBid == b + 1
  {
    var s, b := sys.proposers[i].inst, sys.nextBid;
    Calls(c, sys, i, q);
    ReachesSelf(c, sys);
    ReachesNext(c, sys, sys, Call(i, 0, VALUE));
    var called := Next(c, sys, Call(i, 0, VALUE));
    end := AllPromise(c, called, q, s, PrepareAsk(i, s, b));
    ReachesTrans(c, sys, called, end);
  }

  /** Call, promises of a majority, and the accept request goes out. */
  lemma Opening(c: Config, sys: System, i: nat, q: set<nat>) returns (end: System)
    requires Idle(c, sys, i, q)
    ensures Reaches(c, sys, end) && Promised(sys, end, q, sys.proposers[i].inst)
    ensures var s, b := sys.proposers[i].inst, sys.nextBid;
            && end.proposers == sys.proposers[i := Peer(Open(s), b + 1, {})]
            && AcceptAsk(i, s, b + 1) in end.net && BidsOld(end, b + 1) && end.nextBid == b + 2
  {
    var s, b := sys.proposers[i].inst, sys.nextBid;
    Calls(c, sys, i, q);
    var mid := Asking(c, sys, i, q);
    end := Opens(c, mid, i, q, s, b);
    ReachesTrans(c, sys, mid, end);
  }

  /** The promises arrive, and the accept request goes out. */
  lemma Opens(c: Config, sys: System, i: nat, q: set<nat>, s: Inst, bid: nat) returns (end: System)
    requires Countable(c) && |q| == Majority(|c.acceptors|) && i in sys.proposers
    requires sys.proposers[i].inst == OnPropose(s, 0, VALUE).inst && s.nextPid > 0
    requires Attempt(OnPropose(s, 0, VALUE).inst, Write(s), Preparing)
    requires WithCounts(OnPropose(s, 0, VALUE).inst, 0) == OnPropose(s, 0, VALUE).inst
    requires Pending(sys, q, PrepareAsk(i, s, bid), Promise(Write(s))) && BidsOld(sys, bid) && sys.nextBid == bid + 1
    ensures Reaches(c, sys, end) && end.acceptors == sys.acceptors
    ensures end.proposers == sys.proposers[i := Peer(Open(s), bid + 1, {})]
    ensures AcceptAsk(i, s, bid + 1) in end.net && BidsOld(end, bid + 1) && end.nextBid == bid + 2
  {
    PromisesGather(|c.acceptors|, OnPropose(s, 0, VALUE).inst, Write(s));
    end := HearQuorum(c, sys, q, PrepareAsk(i, s, bid), Promise(Write(s)), OnPropose(s, 0, VALUE).inst);
  }

  /** A majority has voted for the proposal of `s`, and nobody else has moved. */
  ghost predicate AllVoted(sys: System, end: System, q: set<nat>, s: Inst) {
    && end.acceptors.Keys == sys.acceptors.Keys && q <= sys.acceptors.Keys
    && (forall z :: z in q ==> Voted(sys.acceptors[z], end.acceptors[z], Opened(s, Write(s))))
    && (forall z :: z in sys.acceptors && z !in q ==> end.acceptors[z] == sys.acceptors[z])
  }

  /** The accept phase of `s` is out under broadcast `bid`, and all of `q` has answered. */
  ghost predicate Answered(sys: System, i: nat, q: set<nat>, s: Inst, bid: nat) {
    && i in sys.proposers && sys.proposers[i] == Peer(Open(s), bid, {}) && BidsOld(sys, bid) && bid < sys.nextBid
    && Pending(sys, q, AcceptAsk(i, s, bid), Acceptance(Opened(s, Write(s))))
  }

  /** The whole round. */
  lemma Round(c: Config, sys: System, i: nat, q: set<nat>) returns (end: System)
    requires Idle(c, sys, i, q)
    ensures Reaches(c, sys, end) && AllVoted(sys, end, q, sys.proposers[i].inst)
    ensures i in end.proposers && end.proposers == sys.proposers[i := end.proposers[i]]
    ensures Answered(end, i, q, sys.proposers[i].inst, sys.nextBid + 1)
  {
    var s, b := sys.proposers[i].inst, sys.nextBid;
    var mid := Opening(c, sys, i, q);
    end := AllVote(c, mid, q, AcceptAsk(i, s, b + 1));
    ReachesTrans(c, sys, mid, end);
    forall z | z in q
      ensures Voted(sys.acceptors[z], end.acceptors[z], Opened(s, Write(s)))
    {
      assert Voted(mid.acceptors[z], end.acceptors[z], Opened(s, Write(s)));
    }
  }

  /** A chosen request for this vote is on its way. */
  ghost predicate Announces(sys: System, v: Vote) {
    exists x :: x in sys.net && AnnouncesBy(x, v)
  }

  predicate AnnouncesBy(x: Packet, v: Vote) {
    x.Ask? && x.kind == ChosenReq && VoteOf(x.body) == v
  }

  /** The acceptances arrive: the proposer learns that its entry is chosen, by itself, and announces it. */
  lemma Concludes(c: Config, sys: System, i: nat, q: set<nat>, s: Inst, p: Proposal, bid: nat) returns (end: System)
    requires Countable(c) && |q| == Majority(|c.acceptors|)
    requires i in sys.proposers && sys.proposers[i] == Peer(s, bid, {}) && Attempt(s, p, Accepting) && WithCounts(s, 0) == s
    requires s.proposerId == i == p.proposer && s.lastChosen < p.entry < NONE
    requires Pending(sys, q, Ask(AcceptReq, i, p.term, bid, p), Acceptance(p)) && BidsOld(sys, bid) && bid < sys.nextBid
    ensures Reaches(c, sys, end) && BidsOld(end, end.nextBid) && i in end.proposers
    ensures end.acceptors == sys.acceptors && end.proposers == sys.proposers[i := end.proposers[i]]
    ensures Ahead(end.proposers[i].inst, i, p.entry) && end.proposers[i].inst.step == s.step
    ensures Announces(end, VoteOf(p))
  {
    var ask, m := Ask(AcceptReq, i, p.term, bid, p), Acceptance(p);
    AcceptancesGather(|c.acceptors|, s, p);
    end := HearQuorum(c, sys, q, ask, m, s);
    var o := Handle(|c.acceptors|, WithCounts(s, |q| - 1), Deliver(p.term, m));
    var x := o.out.send.value;
    assert AnnouncesBy(Ask(x.kind, i, x.body.term, sys.nextBid, x.body), VoteOf(p));
  }

  lemma Finish(c: Config, sys: System, i: nat, q: set<nat>, s: Inst, bid: nat) returns (end: System)
    requires Countable(c) && |q| == Majority(|c.acceptors|) && Answered(sys, i, q, s, bid)
    requires s.Sane() && s.req.None? && s.proposerId == i < 0x1_0000 && s.lastChosen + 1 < NONE
    ensures Reaches(c, sys, end) && BidsOld(end, end.nextBid) && i in end.proposers
    ensures end.acceptors == sys.acceptors && end.proposers == sys.proposers[i := end.proposers[i]]
    ensures Ahead(end.proposers[i].inst, i, s.lastChosen + 1) && Announces(end, VoteOf(Write(s)))
  {
    end := Concludes(c, sys, i, q, Open(s), Opened(s, Write(s)), bid);
  }

  /** The proposer is free and holds itself for the proposer of the last chosen entry `e`. */
  predicate Ahead(t: Inst, i: nat, e: nat) {
    t.Sane() && t.req.None? && t.proposerId == i && t.nextPid == i + 1 && t.lastChosen == e && t.lastChosenFrom == i
  }

  // ---------------------------------------------------------------- the run

  function Begin(c: Config, k: nat): System {
    System(map a | a in c.acceptors :: START,
           map[0 := Peer(Initial(0, c.proposers, 0), 0, {}), k := Peer(Initial(k, c.proposers, 0), 0, {})],
           {}, {}, 0)
  }

  lemma BeginIsInit(c: Config, k: nat)
    requires c.Valid() && 0 < k < c.proposers
    ensures Init(c, Begin(c, k))
  {
    assert Begin(c, k).acceptors.Keys == c.acceptors;
  }

  ghost predicate Setting(c: Config, k: nat, q: set<nat>) {
    c.Valid() && Countable(c) && q <= c.acceptors && |q| == Majority(|c.acceptors|) && 0 < k < c.proposers
  }

  /** Member 0 is new, and no acceptor knows anything of entry 2. */
  ghost predicate Open2(c: Config, sys: System, k: nat) {
    && sys.acceptors.Keys == c.acceptors && sys.proposers.Keys == {0, k} && BidsOld(sys, sys.nextBid)
    && sys.proposers[0] == Peer(Initial(0, c.proposers, 0), 0, {})
    && forall z :: z in sys.acceptors ==> Untouched(sys.acceptors[z])
  }

  /** The acceptor knows nothing of entry 2 and has marked nothing chosen. */
  predicate Untouched(n: Node) {
    Quiet(n) && n.log.At(2) == EMPTY
  }

  /** A round on entry 1 leaves entry 2 untouched everywhere. */
  lemma RoundLeaves(begin: System, end: System, q: set<nat>, s: Inst)
    requires AllVoted(begin, end, q, s) && s.lastChosen == 0
    requires forall z :: z in begin.acceptors ==> begin.acceptors[z] == START
    ensures forall z :: z in end.acceptors ==> Untouched(end.acceptors[z])
  {
    forall z | z in end.acceptors
      ensures Untouched(end.acceptors[z])
    {
      if z in q {
        assert Voted(begin.acceptors[z], end.acceptors[z], Opened(s, Write(s)));
      }
    }
  }

  lemma BeginIdle(c: Config, k: nat, q: set<nat>)
    requires Setting(c, k, q)
    ensures Idle(c, Begin(c, k), k, q) && Begin(c, k).acceptors.Keys == c.acceptors
  {
    assert Begin(c, k).acceptors.Keys == c.acceptors;
  }

  /** Member `k` gets entry 1 accepted in two phases and learns so. */
  lemma FirstEntry(c: Config, k: nat, q: set<nat>) returns (end: System)
    requires Setting(c, k, q)
    ensures Reaches(c, Begin(c, k), end) && Open2(c, end, k) && Ahead(end.proposers[k].inst, k, 1)
  {
    var begin, s := Begin(c, k), Initial(k, c.proposers, 0);
    BeginIdle(c, k, q);
    var mid := Round(c, begin, k, q);
    RoundLeaves(begin, mid, q, s);
    end := Finish(c, mid, k, q, s, 1);
    ReachesTrans(c, begin, mid, end);
  }

  /** The acceptors of `q` have accepted `v`, and none of them knows it chosen. */
  ghost predicate Taken(sys: System, q: set<nat>, v: Vote) {
    forall z :: z in q ==> && z in sys.acceptors && Quiet(sys.acceptors[z]) && v in sys.acceptors[z].votes
                           && var ent := sys.acceptors[z].log.At(v.entry);
                              && ent.accepted.Some? && ent.accepted.value.status == ACCEPTED
                              && VoteOf(ent.accepted.value) == v
  }

  /** Member 0 once it has been told of entry 1. */
  function Told(c: Config, k: nat): Inst {
    Initial(0, c.proposers, 0).(lastChosen := 1, lastChosenFrom := k)
  }

  lemma Tells(c: Config, sys: System, k: nat, q: set<nat>) returns (end: System)
    requires Setting(c, k, q) && Open2(c, sys, k)
    ensures Reaches(c, sys, end) && Idle(c, end, 0, q)
    ensures end == sys.(proposers := sys.proposers[0 := Peer(Told(c, k), 0, {})])
  {
    ReachesSelf(c, sys);
    ReachesNext(c, sys, sys, Tell(0, 1, k, false));
    end := Next(c, sys, Tell(0, 1, k, false));
  }

  /** What a vote for the first proposal of entry 2 looks like. */
  lemma VotedIsTaken(n: Node, n': Node, s: Inst)
    requires s.lastChosen == 1 && s.nextPid == 1 && s.nextVid == 0 && Voted(n, n', Opened(s, Write(s)))
    ensures var ent := n'.log.At(2);
            && Quiet(n') && Vote(2, 1, 0) in n'.votes && ent.accepted.Some? && ent.accepted.value.status == ACCEPTED
            && VoteOf(ent.accepted.value) == Vote(2, 1, 0) && ent.accepted.value.data == VALUE
  {
  }

  /** Everybody in `q` has accepted the first proposal of entry 2, and nobody else anything. */
  ghost predicate FirstTaken(sys: System, q: set<nat>) {
    && Taken(sys, q, Vote(2, 1, 0))
    && (forall z :: z in q ==> sys.acceptors[z].log.At(2).accepted.value.data == VALUE)
    && (forall z :: z in sys.acceptors && z !in q ==> Untouched(sys.acceptors[z]))
  }

  lemma RoundTakes(sys: System, end: System, q: set<nat>, s: Inst)
    requires s.lastChosen == 1 && s.nextPid == 1 && s.nextVid == 0 && AllVoted(sys, end, q, s)
    requires forall z :: z in sys.acceptors ==> Untouched(sys.acceptors[z])
    ensures FirstTaken(end, q)
  {
    forall z | z in q
      ensures var ent := end.acceptors[z].log.At(2);
              && Quiet(end.acceptors[z]) && Vote(2, 1, 0) in end.acceptors[z].votes
              && ent.accepted.Some? && ent.accepted.value.status == ACCEPTED
              && VoteOf(ent.accepted.value) == Vote(2, 1, 0) && ent.accepted.value.data == VALUE
    {
      VotedIsTaken(sys.acceptors[z], end.acceptors[z], s);
    }
  }

  /** Told of entry 1, member 0 gets entry 2 accepted. */
  lemma FirstMajority(c: Config, sys: System, k: nat, q: set<nat>) returns (end: System)
    requires Setting(c, k, q) && Open2(c, sys, k)
    ensures Reaches(c, sys, end) && end.acceptors.Keys == c.acceptors
    ensures k in end.proposers && end.proposers[k] == sys.proposers[k]
    ensures FirstTaken(end, q) && Answered(end, 0, q, Told(c, k), sys.nextBid + 1)
  {
    var mid := Tells(c, sys, k, q);
    end := Round(c, mid, 0, q);
    ReachesTrans(c, sys, mid, end);
    RoundTakes(mid, end, q, Told(c, k));
  }

  /** Member `k` skips the prepare phase, and the same acceptors take its proposal instead. */
  lemma SecondMajority(c: Config, sys: System, k: nat, q: set<nat>) returns (end: System)
    requires Setting(c, k, q) && k in c.skippers && sys.acceptors.Keys == c.acceptors
    requires k in sys.proposers && Ahead(sys.proposers[k].inst, k, 1) && Taken(sys, q, Vote(2, 1, 0))
    ensures Reaches(c, sys, end) && VotedBy(end, q, Vote(2, 1, 0))
    ensures VotedBy(end, q, Vote(2, k + 1, sys.proposers[k].inst.nextVid))
  {
    var t := sys.proposers[k].inst;
    var ask := AcceptAsk(k, t, sys.nextBid);
    ReachesSelf(c, sys);
    ReachesNext(c, sys, sys, Call(k, 0, VALUE));
    var mid := Next(c, sys, Call(k, 0, VALUE));
    end := AllVote(c, mid, q, ask);
    ReachesTrans(c, sys, mid, end);
    forall z | z in q
      ensures VoteOf(ask.body) in end.acceptors[z].votes && Vote(2, 1, 0) in end.acceptors[z].votes
    {
      assert Voted(mid.acceptors[z], end.acceptors[z], ask.body);
    }
  }

  lemma {:induction false} SubsetOf(s: set<nat>, n: nat) returns (q: set<nat>)
    requires n <= |s|
    ensures q <= s && |q| == n
  {
    if n == 0 {
      q := {};
    } else {
      var a :| a in s;
      q := SubsetOf(s - {a}, n - 1);
      q := q + {a};
    }
  }

  /** With a skipper other than member 0 some run breaks agreement. */
  lemma SkipperBreaks(c: Config, k: nat)
    requires c.Valid() && Countable(c) && 0 < k < c.proposers && k in c.skippers
    ensures exists sys, end :: Init(c, sys) && Reaches(c, sys, end) && !Agrees(end)
  {
    BeginIsInit(c, k);
    var q := SubsetOf(c.acceptors, Majority(|c.acceptors|));
    var begin := Begin(c, k);
    var one := FirstEntry(c, k, q);
    var two := FirstMajority(c, one, k, q);
    var end := SecondMajority(c, two, k, q);
    ReachesTrans(c, begin, one, two);
    ReachesTrans(c, begin, two, end);
    var v, w := Vote(2, 1, 0), Vote(2, k + 1, two.proposers[k].inst.nextVid);
    assert Elected(end, v) && Elected(end, w) && v != w;
  }

  /**
   * Exactly when the protocol agrees: a group keeps agreement in all its runs if and only if no member
   * but 0 is allowed to skip the prepare phase.
   */
  lemma AgreementIff(c: Config)
    requires c.Valid() && Countable(c) && forall i :: i in c.skippers ==> i < c.proposers
    ensures (forall sys, end :: Init(c, sys) && Reaches(c, sys, end) ==> Agrees(end)) <==> c.skippers <= {0}
  {
    if c.skippers <= {0} {
      forall sys, end | Init(c, sys) && Reaches(c, sys, end)
        ensures Agrees(end)
      {
        var acts :| Legal(c, sys, acts) && After(c, sys, acts) == end;
        AgreementHolds(c, sys, acts);
      }
    } else {
      var k :| k in c.skippers && k !in {0};
      SkipperBreaks(c, k);
    }
  }
}
