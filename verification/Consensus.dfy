/**
 * Any number of acceptors and proposers, built from the handlers of both sides, over a network that may
 * lose, delay, reorder and repeat requests, with storage that may refuse any write.
 */
module Consensus {
  import opened Ptype
  import opened IdGeneration
  import opened AcceptorSpec
  import opened AcceptorRuns
  import opened ProposerSpec

  /**
   * Requests and answers in flight. A request carries the number of the broadcast it belongs to and the
   * term its callback was registered under; an answer keeps the request it answers.
   */
  datatype Packet =
    | Ask(kind: MsgType, owner: nat, term: nat, bid: nat, body: Proposal)
    | Answer(acceptor: nat, ask: Packet, msg: PaxosMsg)

  /** A proposer with its latest broadcast and the acceptors counted since. */
  datatype Peer = Peer(inst: Inst, bid: nat, voters: set<nat>)

  datatype System = System(
    acceptors: map<nat, Node>,
    proposers: map<nat, Peer>,
    net: set<Packet>,
    spent: set<(nat, nat)>,
    nextBid: nat)

  /** `skippers` are the members that may leave out the prepare phase when their state allows it. */
  datatype Config = Config(acceptors: set<nat>, proposers: nat, skippers: set<nat>) {
    predicate Valid() {
      0 < proposers <= 0x1_0000
    }
  }

  datatype Action =
    | Call(i: nat, opaqueId: nat, value: seq<Byte>)
    | Serve(a: nat, ask: Packet, saved: bool)
    | Receive(answer: Packet)
    | Timer(i: nat, term: nat)
    | Tell(i: nat, chosen: nat, from: nat, fromPlog: bool)

  ghost predicate Init(c: Config, sys: System) {
    && c.Valid()
    && sys.acceptors.Keys == c.acceptors && (forall a :: a in sys.acceptors ==> sys.acceptors[a] == START)
    && (forall i :: i in sys.proposers ==> i < c.proposers)
    && (forall i :: i in sys.proposers ==> exists vid :: sys.proposers[i] == Peer(Initial(i, c.proposers, vid), 0, {}))
    && sys.net == {} && sys.spent == {} && sys.nextBid == 0
  }

  predicate Speaks(sys: System, i: nat) {
    i in sys.proposers && sys.proposers[i].inst.Sane()
  }

  /** Every answer reaches the callback of its broadcast at most once per acceptor. */
  predicate Enabled(c: Config, sys: System, act: Action) {
    match act
    case Call(i, _, value) => Speaks(sys, i) && (OnePhase(sys.proposers[i].inst, value) ==> i in c.skippers)
    case Serve(a, ask, _) =>
      a in sys.acceptors && ask in sys.net && ask.Ask? && ask.kind in {PrepareReq, AcceptReq, ChosenReq}
    case Receive(answer) =>
      && answer in sys.net && answer.Answer? && answer.ask.Ask? && Speaks(sys, answer.ask.owner)
      && (answer.ask.bid, answer.acceptor) !in sys.spent
    case Timer(i, _) => Speaks(sys, i)
    case Tell(i, _, _, _) => Speaks(sys, i)
  }

  function RequestOf(ask: Packet, saved: bool): Request
    requires ask.Ask?
  {
    if ask.kind == PrepareReq then Prepare(ask.body, saved)
    else if ask.kind == AcceptReq then Accept(ask.body, saved)
    else Choose(ask.body, saved)
  }

  function Served(sys: System, a: nat, ask: Packet, saved: bool): System
    requires a in sys.acceptors && ask.Ask?
  {
    var n, r := sys.acceptors[a], RequestOf(ask, saved);
    sys.(acceptors := sys.acceptors[a := NodeStep(n, r)], net := sys.net + {Answer(a, ask, Reply(n.log, r, None))})
  }

  predicate Counts(s: Inst, ev: Event) {
    ev.Deliver? && Current(s, ev.term) && (CountsPromise(s, ev.msg) || CountsAccept(s, ev.msg))
  }

  /** Proposer `i` handles `ev`; `who` is the acceptor it comes from, if any. */
  function Turn(c: Config, sys: System, i: nat, ev: Event, who: nat): System
    requires Speaks(sys, i)
  {
    var peer := sys.proposers[i];
    var o := Handle(|c.acceptors|, peer.inst, ev);
    match o.out.send
    case Some(m) =>
      sys.(proposers := sys.proposers[i := Peer(o.inst, sys.nextBid, {})],
           net := sys.net + {Ask(m.kind, i, m.body.term, sys.nextBid, m.body)},
           nextBid := sys.nextBid + 1)
    case None =>
      var voters := if Counts(peer.inst, ev) then peer.voters + {who} else peer.voters;
      sys.(proposers := sys.proposers[i := Peer(o.inst, peer.bid, voters)])
  }

  function Next(c: Config, sys: System, act: Action): System
    requires Enabled(c, sys, act)
  {
    match act
    case Call(i, opaqueId, value) => Turn(c, sys, i, Propose(opaqueId, value), 0)
    case Serve(a, ask, saved) => Served(sys, a, ask, saved)
    case Receive(answer) =>
      Turn(c, sys, answer.ask.owner, Deliver(answer.ask.term, answer.msg), answer.acceptor)
      .(spent := sys.spent + {(answer.ask.bid, answer.acceptor)})
    case Timer(i, term) => Turn(c, sys, i, Expire(term), 0)
    case Tell(i, chosen, from, fromPlog) => Turn(c, sys, i, Notice(chosen, from, fromPlog), 0)
  }

  ghost predicate Legal(c: Config, sys: System, acts: seq<Action>)
    decreases |acts|
  {
    acts == [] || (Enabled(c, sys, acts[0]) && Legal(c, Next(c, sys, acts[0]), acts[1..]))
  }

  function After(c: Config, sys: System, acts: seq<Action>): System
    requires Legal(c, sys, acts)
    decreases |acts|
  {
    if acts == [] then sys else After(c, Next(c, sys, acts[0]), acts[1..])
  }

  // ---------------------------------------------------------------- the inductive invariant

  /** The acceptor has cast and will cast no vote below `p` for entry `e`. */
  ghost predicate Barred(n: Node, e: nat, p: nat) {
    p <= Floor(n.log.At(e)) && forall v :: v in n.votes && v.entry == e ==> p <= v.pid
  }

  ghost predicate IsQuorum(sys: System, q: set<nat>) {
    q <= sys.acceptors.Keys && Majority(|sys.acceptors.Keys|) <= |q|
  }

  ghost predicate Bars(sys: System, q: set<nat>, e: nat, p: nat) {
    IsQuorum(sys, q) && forall a :: a in q ==> Barred(sys.acceptors[a], e, p)
  }

  /** An accept may be asked for: it has the least pid, or a majority is barred below it. */
  ghost predicate Backed(sys: System, e: nat, p: nat) {
    p == 1 || exists q :: Bars(sys, q, e, p)
  }

  ghost predicate VotedBy(sys: System, q: set<nat>, v: Vote) {
    IsQuorum(sys, q) && forall a :: a in q ==> v in sys.acceptors[a].votes
  }

  /** A majority has at some time held this vote. */
  ghost predicate Elected(sys: System, v: Vote) {
    exists q :: VotedBy(sys, q, v)
  }

  /** The proposal was made by the member it names, out of that member's own id ranges. */
  ghost predicate Owned(sys: System, p: Proposal) {
    && p.proposer in sys.proposers
    && OnTrack(p.proposer + 1, sys.proposers[p.proposer].inst.step, p.pid)
    && p.valueId < sys.proposers[p.proposer].inst.nextVid
  }

  ghost predicate NodeSound(sys: System, n: Node) {
    && NodeOk(n)
    && (forall e :: e in n.log.entries && n.log.entries[e].promised.Some? ==> Owned(sys, n.log.entries[e].promised.value))
    && (forall v :: v in n.votes ==> v.pid > 0)
    && (forall e :: e in n.log.entries && n.log.entries[e].Chosen() ==> Elected(sys, VoteOf(n.log.entries[e].accepted.value)))
  }

  /** What stays true of a request once it has been sent. */
  ghost predicate AskSound(sys: System, ask: Packet)
    requires ask.Ask?
  {
    var p := ask.body;
    && ask.owner in sys.proposers && ask.bid < sys.nextBid
    && (ask.kind == PrepareReq ==>
          && ask.term < sys.proposers[ask.owner].inst.term
          && (p.pid > 0 ==> Owned(sys, p)))
    && (ask.kind == AcceptReq ==> p.pid > 0 && p.proposer == ask.owner && Owned(sys, p))
    && (ask.kind == ChosenReq ==> Elected(sys, VoteOf(p)))
  }

  /** How a request relates to the attempt its sender is working on. */
  predicate Linked(peer: Peer, ask: Packet)
    requires ask.Ask?
  {
    var s, p := peer.inst, ask.body;
    s.req.Some? ==>
      var r := s.req.value;
      && (ask.kind == PrepareReq && s.phase == Preparing && ask.term + 1 == s.term ==>
            ask.bid == peer.bid && VoteOf(p) == VoteOf(r))
      && (ask.kind == AcceptReq && p.valueId == r.valueId ==>
            s.phase == Accepting && ask.bid == peer.bid && VoteOf(p) == VoteOf(r))
  }

  /** A promise: nothing below the asked pid gets in, and the body is the request or an earlier promise. */
  ghost predicate PromiseSound(sys: System, a: nat, ask: Packet, body: Proposal)
    requires a in sys.acceptors && ask.Ask?
  {
    && ask.kind == PrepareReq
    && (ask.body.pid > 0 ==> Barred(sys.acceptors[a], ask.body.entry, ask.body.pid))
    && (VoteOf(body) == VoteOf(ask.body) ||
        (ask.body.pid <= body.pid && 0 < body.pid && body.entry == ask.body.entry && Owned(sys, body)))
  }

  /** An acceptance: the vote was cast. */
  ghost predicate AcceptanceSound(sys: System, a: nat, ask: Packet, body: Proposal)
    requires a in sys.acceptors && ask.Ask?
  {
    ask.kind == AcceptReq && VoteOf(body) == VoteOf(ask.body) && VoteOf(ask.body) in sys.acceptors[a].votes
  }

  /** What a counted answer testifies about the acceptor it comes from. */
  ghost predicate AnswerSound(sys: System, w: Packet)
    requires w.Answer?
  {
    && w.acceptor in sys.acceptors && w.ask in sys.net && w.ask.Ask?
    && (w.msg.kind == PrepareRsp && w.msg.err == OK && w.msg.body.status == PROMISED ==>
          PromiseSound(sys, w.acceptor, w.ask, w.msg.body))
    && (w.msg.kind == AcceptRsp && w.msg.err == OK && w.msg.body.status == ACCEPTED ==>
          AcceptanceSound(sys, w.acceptor, w.ask, w.msg.body))
  }

  /** The proposer's own record of its attempt. */
  ghost predicate InstSound(i: nat, s: Inst) {
    && s.Sane() && s.proposerId == i
    && OnTrack(i + 1, s.step, s.nextPid)
    && (s.req.Some? ==>
          var r := s.req.value;
          && s.phase != Dormant && r.proposer == i && r.valueId < s.nextVid
          && (r.pid > 0 ==> OnTrack(i + 1, s.step, r.pid)) && (s.phase == Accepting ==> r.pid > 0)
          && (s.phase == Preparing && s.notified ==> PickSound(s)))
  }

  ghost predicate PeerSound(sys: System, i: nat) {
    i in sys.proposers && InstSound(i, sys.proposers[i].inst)
  }

  predicate PickSound(s: Inst)
    requires s.req.Some?
  {
    var r := s.req.value;
    s.lastv.Some? &&
    var p := s.lastv.value;
    p.proposer == r.proposer && p.entry == r.entry && p.pid == r.pid && p.valueId < s.nextVid && p.valueId != r.valueId
  }

  /** What an acceptor counted in the current phase has committed itself to. */
  ghost predicate VoterSound(sys: System, bid: nat, s: Inst, a: nat)
    requires s.req.Some?
  {
    var r := s.req.value;
    && a in sys.acceptors && (bid, a) in sys.spent
    && (s.phase == Preparing && r.pid > 0 ==> Barred(sys.acceptors[a], r.entry, r.pid))
    && (s.phase == Accepting ==> VoteOf(r) in sys.acceptors[a].votes)
  }

  ghost predicate VotersSound(sys: System, i: nat) {
    i in sys.proposers &&
    var peer := sys.proposers[i];
    peer.inst.req.Some? ==>
      && peer.inst.validCount <= |peer.voters|
      && forall a :: a in peer.voters ==> VoterSound(sys, peer.bid, peer.inst, a)
  }

  ghost predicate PacketSound(sys: System, w: Packet) {
    match w
    case Ask(_, owner, _, _, _) => AskSound(sys, w) && Linked(sys.proposers[owner], w)
    case Answer(_, _, _) => AnswerSound(sys, w)
  }

  ghost predicate Shape(c: Config, sys: System) {
    && c.Valid() && sys.acceptors.Keys == c.acceptors
    && (forall i :: i in sys.proposers ==> i < c.proposers && sys.proposers[i].inst.step == c.proposers)
  }

  ghost predicate Inv(c: Config, sys: System) {
    && Shape(c, sys)
    && (forall a :: a in sys.acceptors ==> NodeSound(sys, sys.acceptors[a]))
    && (forall i :: i in sys.proposers ==> PeerSound(sys, i) && VotersSound(sys, i))
    && (forall w :: w in sys.net ==> PacketSound(sys, w))
  }

  /** Every vote cast, and every accept asked for, has the least pid or a majority barred below it. */
  ghost predicate Guarded(sys: System) {
    && (forall a, v :: a in sys.acceptors && v in sys.acceptors[a].votes ==> Backed(sys, v.entry, v.pid))
    && (forall w :: w in sys.net && w.Ask? && w.kind == AcceptReq ==> Backed(sys, w.body.entry, w.body.pid))
  }

  // ---------------------------------------------------------------- what only grows

  ghost predicate NodeGrows(n: Node, n': Node) {
    && n.votes <= n'.votes
    && (forall e :: Floor(n.log.At(e)) <= Floor(n'.log.At(e)))
    && (forall v :: v in n'.votes && v !in n.votes ==> Floor(n.log.At(v.entry)) <= v.pid)
  }

  ghost predicate Grows(sys: System, sys': System) {
    && sys.acceptors.Keys == sys'.acceptors.Keys && sys.proposers.Keys == sys'.proposers.Keys
    && (forall a :: a in sys.acceptors ==> NodeGrows(sys.acceptors[a], sys'.acceptors[a]))
    && (forall i :: i in sys.proposers ==>
          && sys.proposers[i].inst.nextVid <= sys'.proposers[i].inst.nextVid
          && sys.proposers[i].inst.term <= sys'.proposers[i].inst.term
          && sys.proposers[i].inst.step == sys'.proposers[i].inst.step)
    && sys.net <= sys'.net && sys.spent <= sys'.spent && sys.nextBid <= sys'.nextBid
  }

  lemma BarredGrows(n: Node, n': Node, e: nat, p: nat)
    requires NodeGrows(n, n') && Barred(n, e, p)
    ensures Barred(n', e, p)
  {
  }

  lemma BackedGrows(sys: System, sys': System, e: nat, p: nat)
    requires Grows(sys, sys') && Backed(sys, e, p)
    ensures Backed(sys', e, p)
  {
    if p != 1 {
      var q :| Bars(sys, q, e, p);
      forall a | a in q
        ensures Barred(sys'.acceptors[a], e, p)
      {
        BarredGrows(sys.acceptors[a], sys'.acceptors[a], e, p);
      }
      assert Bars(sys', q, e, p);
    }
  }

  lemma ElectedGrows(sys: System, sys': System, v: Vote)
    requires Grows(sys, sys') && Elected(sys, v)
    ensures Elected(sys', v)
  {
    var q :| VotedBy(sys, q, v);
    assert VotedBy(sys', q, v);
  }

  lemma AskGrows(sys: System, sys': System, ask: Packet)
    requires Grows(sys, sys') && ask.Ask? && AskSound(sys, ask)
    ensures AskSound(sys', ask)
  {
    if ask.kind == ChosenReq {
      ElectedGrows(sys, sys', VoteOf(ask.body));
    }
  }

  lemma AnswerGrows(sys: System, sys': System, w: Packet)
    requires Grows(sys, sys') && w.Answer? && AnswerSound(sys, w)
    ensures AnswerSound(sys', w)
  {
    var n, n' := sys.acceptors[w.acceptor], sys'.acceptors[w.acceptor];
    if Barred(n, w.ask.body.entry, w.ask.body.pid) {
      BarredGrows(n, n', w.ask.body.entry, w.ask.body.pid);
    }
  }

  lemma NodeStays(sys: System, sys': System, n: Node)
    requires Grows(sys, sys') && NodeSound(sys, n)
    ensures NodeSound(sys', n)
  {
    forall e | e in n.log.entries && n.log.entries[e].Chosen()
      ensures Elected(sys', VoteOf(n.log.entries[e].accepted.value))
    {
      ElectedGrows(sys, sys', VoteOf(n.log.entries[e].accepted.value));
    }
  }

  lemma PeerStays(sys: System, sys': System, i: nat)
    requires Grows(sys, sys') && PeerSound(sys, i) && VotersSound(sys, i) && sys'.proposers[i] == sys.proposers[i]
    ensures PeerSound(sys', i) && VotersSound(sys', i)
  {
    var peer := sys.proposers[i];
    if peer.inst.req.Some? {
      forall a | a in peer.voters
        ensures VoterSound(sys', peer.bid, peer.inst, a)
      {
        VoterGrows(sys, sys', peer.bid, peer.inst, a);
      }
    }
  }

  lemma VoterGrows(sys: System, sys': System, bid: nat, s: Inst, a: nat)
    requires s.req.Some? && Grows(sys, sys') && VoterSound(sys, bid, s, a)
    ensures VoterSound(sys', bid, s, a)
  {
    var r := s.req.value;
    if Barred(sys.acceptors[a], r.entry, r.pid) {
      BarredGrows(sys.acceptors[a], sys'.acceptors[a], r.entry, r.pid);
    }
  }
}
