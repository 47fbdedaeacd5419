/** Chosen marks agree on the value itself, which is the value of the client call that drafted the proposal. */
module ValueAgreement {
  import opened Ptype
  import opened Plog
  import opened IdGeneration
  import opened AcceptorSpec
  import opened AcceptorRuns
  import opened ProposerSpec
  import opened Consensus
  import opened ConsensusProof
  import opened Agreement

  // ---------------------------------------------------------------- what calls have drafted

  function Drafted(c: Config, sys: System, act: Action): set<Proposal>
    requires Enabled(c, sys, act)
  {
    if act.Call? && sys.proposers[act.i].inst.req.None? then {Draft(sys.proposers[act.i].inst, act.opaqueId, act.value)} else {}
  }

  /** Every proposal drafted by the calls of a run. */
  function Drafts(c: Config, sys: System, acts: seq<Action>): set<Proposal>
    requires Legal(c, sys, acts)
    decreases |acts|
  {
    if acts == [] then {} else Drafted(c, sys, acts[0]) + Drafts(c, Next(c, sys, acts[0]), acts[1..])
  }

  /** Some call of the run proposes this value. */
  ghost predicate IsCalled(acts: seq<Action>, value: seq<Byte>) {
    exists k :: 0 <= k < |acts| && acts[k].Call? && acts[k].value == value
  }

  lemma {:induction false} DraftsAreCalls(c: Config, sys: System, acts: seq<Action>, d: Proposal)
    requires Legal(c, sys, acts) && d in Drafts(c, sys, acts)
    ensures IsCalled(acts, d.data)
    decreases |acts|
  {
    if d !in Drafted(c, sys, acts[0]) {
      DraftsAreCalls(c, Next(c, sys, acts[0]), acts[1..], d);
      var k :| 0 <= k < |acts[1..]| && acts[1..][k].Call? && acts[1..][k].value == d.data;
      assert acts[k + 1] == acts[1..][k];
    } else {
      assert acts[0].value == d.data;
    }
  }

  ghost predicate Known(drafts: set<Proposal>, i: nat, v: Vote) {
    exists d :: d in drafts && d.proposer == i && VoteOf(d) == v
  }

  ghost predicate KnownValue(drafts: set<Proposal>, i: nat, v: Vote, data: seq<Byte>) {
    exists d :: d in drafts && d.proposer == i && VoteOf(d) == v && d.data == data
  }

  // ---------------------------------------------------------------- the invariant

  predicate ChosenAsk(w: Packet, i: nat, v: Vote) {
    w.Ask? && w.kind == ChosenReq && w.owner == i && VoteOf(w.body) == v
  }

  ghost predicate NoChosen(sys: System, i: nat, v: Vote) {
    forall w :: w in sys.net ==> !ChosenAsk(w, i, v)
  }

  /** The attempt behind this vote is over and nobody was told that it won; so it stays. */
  ghost predicate Lost(sys: System, i: nat, v: Vote) {
    && i in sys.proposers && NoChosen(sys, i, v)
    && var s := sys.proposers[i].inst;
       v.valueId < s.nextVid && (s.req.Some? ==> s.req.value.valueId != v.valueId)
  }

  /** The proposer is done with this entry. */
  predicate Past(s: Inst, e: nat) {
    e != NONE ==> e <= s.lastChosen && (s.req.Some? ==> e < s.req.value.entry)
  }

  /** Every draft has its own value id, and its pid is on its member's track. */
  ghost predicate DraftsOk(c: Config, sys: System, drafts: set<Proposal>) {
    && (forall d :: d in drafts ==>
          && d.proposer in sys.proposers && d.proposer < c.proposers && d.valueId < sys.proposers[d.proposer].inst.nextVid
          && (d.pid > 0 ==> OnTrack(d.proposer + 1, c.proposers, d.pid)))
    && (forall d, f :: d in drafts && f in drafts && d.proposer == f.proposer && d.valueId == f.valueId ==> d == f)
  }

  /** The open attempt is a draft of this member, and a picked peer value has the vote of another one. */
  ghost predicate ReqKnown(s: Inst, i: nat, drafts: set<Proposal>) {
    s.req.Some? ==>
      && KnownValue(drafts, i, VoteOf(s.req.value), s.req.value.data)
      && (s.phase == Preparing && s.notified ==> s.lastv.Some? && Known(drafts, i, VoteOf(s.lastv.value)))
  }

  ghost predicate AskKnown(sys: System, drafts: set<Proposal>, w: Packet)
    requires w.Ask?
  {
    var v := VoteOf(w.body);
    && (w.kind == PrepareReq && w.body.pid > 0 ==> Known(drafts, w.body.proposer, v))
    && (w.kind == AcceptReq ==>
          && Known(drafts, w.owner, v)
          && (v.entry == NONE || KnownValue(drafts, w.owner, v, w.body.data) || Lost(sys, w.owner, v)))
    && (w.kind == ChosenReq ==>
          Known(drafts, w.owner, v) && w.owner in sys.proposers && Past(sys.proposers[w.owner].inst, v.entry))
  }

  ghost predicate AnswerKnown(drafts: set<Proposal>, w: Packet)
    requires w.Answer?
  {
    w.ask.Ask? && w.msg.kind == PrepareRsp && w.msg.err == OK && w.msg.body.status == PROMISED
    && VoteOf(w.msg.body) != VoteOf(w.ask.body) ==>
      Known(drafts, w.msg.body.proposer, VoteOf(w.msg.body))
  }

  predicate AcceptAskFor(w: Packet, x: Proposal) {
    w.Ask? && w.kind == AcceptReq && VoteOf(w.body) == VoteOf(x) && w.body.data == x.data
  }

  /** What an entry holds was asked for by some request still to be seen in the network. */
  ghost predicate EntryKnown(net: set<Packet>, drafts: set<Proposal>, ent: Entry) {
    && (ent.promised.Some? ==> Known(drafts, ent.promised.value.proposer, VoteOf(ent.promised.value)))
    && (ent.accepted.Some? ==> exists w :: w in net && AcceptAskFor(w, ent.accepted.value))
    && (ent.Chosen() ==> exists w :: w in net && w.Ask? && ChosenAsk(w, w.owner, VoteOf(ent.accepted.value)))
  }

  ghost predicate NodeKnown(net: set<Packet>, drafts: set<Proposal>, n: Node) {
    forall e :: EntryKnown(net, drafts, n.log.At(e))
  }

  ghost predicate Known2(sys: System, drafts: set<Proposal>, w: Packet) {
    match w
    case Ask(_, _, _, _, _) => AskKnown(sys, drafts, w)
    case Answer(_, _, _) => AnswerKnown(drafts, w)
  }

  ghost predicate Hist(c: Config, sys: System, drafts: set<Proposal>) {
    && DraftsOk(c, sys, drafts)
    && (forall i :: i in sys.proposers ==> ReqKnown(sys.proposers[i].inst, i, drafts))
    && (forall w :: w in sys.net ==> Known2(sys, drafts, w))
    && (forall a :: a in sys.acceptors ==> NodeKnown(sys.net, drafts, sys.acceptors[a]))
  }

  // ---------------------------------------------------------------- growth

  lemma KnownGrows(drafts: set<Proposal>, more: set<Proposal>, i: nat, v: Vote)
    requires drafts <= more && Known(drafts, i, v)
    ensures Known(more, i, v)
  {
    var d :| d in drafts && d.proposer == i && VoteOf(d) == v;
    assert d in more;
  }

  lemma ValueGrows(drafts: set<Proposal>, more: set<Proposal>, i: nat, v: Vote, data: seq<Byte>)
    requires drafts <= more && KnownValue(drafts, i, v, data)
    ensures KnownValue(more, i, v, data)
  {
    var d :| d in drafts && d.proposer == i && VoteOf(d) == v && d.data == data;
    assert d in more;
  }

  lemma EntryGrows(net: set<Packet>, net': set<Packet>, drafts: set<Proposal>, more: set<Proposal>, ent: Entry)
    requires net <= net' && drafts <= more && EntryKnown(net, drafts, ent)
    ensures EntryKnown(net', more, ent)
  {
    if ent.promised.Some? {
      KnownGrows(drafts, more, ent.promised.value.proposer, VoteOf(ent.promised.value));
    }
  }

  lemma NodeKnownGrows(net: set<Packet>, net': set<Packet>, drafts: set<Proposal>, more: set<Proposal>, n: Node)
    requires net <= net' && drafts <= more && NodeKnown(net, drafts, n)
    ensures NodeKnown(net', more, n)
  {
    forall e
      ensures EntryKnown(net', more, n.log.At(e))
    {
      EntryGrows(net, net', drafts, more, n.log.At(e));
    }
  }

  lemma AnswerKnownGrows(drafts: set<Proposal>, more: set<Proposal>, w: Packet)
    requires drafts <= more && w.Answer? && AnswerKnown(drafts, w)
    ensures AnswerKnown(more, w)
  {
    if Known(drafts, w.msg.body.proposer, VoteOf(w.msg.body)) {
      KnownGrows(drafts, more, w.msg.body.proposer, VoteOf(w.msg.body));
    }
  }

  // ---------------------------------------------------------------- an acceptor handles a request

  /** An accepted proposal stays with its value, or is the one just asked for. */
  lemma StepAccepted(n: Node, r: Request, e: nat)
    ensures var was, now := n.log.At(e).accepted, NodeStep(n, r).log.At(e).accepted;
            now.Some? ==>
              || (was.Some? && VoteOf(was.value) == VoteOf(now.value) && was.value.data == now.value.data)
              || (r.Accept? && VoteOf(now.value) == VoteOf(r.body) && now.value.data == r.body.data)
  {
    StepAt(n, r, e);
  }

  lemma ServedEntry(sys: System, drafts: set<Proposal>, n: Node, ask: Packet, saved: bool, e: nat)
    requires NodeOk(n) && NodeKnown(sys.net, drafts, n)
    requires ask in sys.net && ask.Ask? && ask.kind in {PrepareReq, AcceptReq, ChosenReq} && AskKnown(sys, drafts, ask)
    ensures EntryKnown(sys.net, drafts, NodeStep(n, RequestOf(ask, saved)).log.At(e))
  {
    var r := RequestOf(ask, saved);
    var was, now := n.log.At(e), NodeStep(n, r).log.At(e);
    assert EntryKnown(sys.net, drafts, was);
    StepPromise(n, r, e);
    StepAccepted(n, r, e);
    if now.accepted.Some? {
      if r.Accept? && VoteOf(now.accepted.value) == VoteOf(r.body) && now.accepted.value.data == r.body.data {
        assert AcceptAskFor(ask, now.accepted.value);
      } else {
        var w :| w in sys.net && AcceptAskFor(w, was.accepted.value);
        assert AcceptAskFor(w, now.accepted.value);
      }
    }
    if now.Chosen() {
      StepChosen(n, r, e);
      if r.Choose? && VoteOf(now.accepted.value) == VoteOf(r.body) {
        assert ChosenAsk(ask, ask.owner, VoteOf(now.accepted.value));
      }
    }
  }

  lemma ServedAnswer(sys: System, drafts: set<Proposal>, a: nat, n: Node, ask: Packet, saved: bool)
    requires NodeOk(n) && NodeKnown(sys.net, drafts, n) && ask.Ask? && ask.kind in {PrepareReq, AcceptReq, ChosenReq}
    ensures AnswerKnown(drafts, Answer(a, ask, Reply(n.log, RequestOf(ask, saved), None)))
  {
    var m := Reply(n.log, RequestOf(ask, saved), None);
    ReplyKind(n, ask, saved);
    if m.kind == PrepareRsp && m.err == OK && m.body.status == PROMISED {
      PromiseBody(n, ask.body, saved);
      assert EntryKnown(sys.net, drafts, n.log.At(ask.body.entry));
    }
  }

  /** A new answer leaves everything about requests as it was. */
  lemma AnsweredAsk(sys: System, sys': System, drafts: set<Proposal>, w: Packet)
    requires w.Ask? && AskKnown(sys, drafts, w) && sys'.proposers == sys.proposers
    requires forall x :: x in sys'.net && x !in sys.net ==> !x.Ask?
    ensures AskKnown(sys', drafts, w)
  {
    if Lost(sys, w.owner, VoteOf(w.body)) {
      assert Lost(sys', w.owner, VoteOf(w.body));
    }
  }

  lemma ServedNodes(c: Config, sys: System, drafts: set<Proposal>, a: nat, ask: Packet, saved: bool)
    requires Inv(c, sys) && Hist(c, sys, drafts) && Enabled(c, sys, Serve(a, ask, saved))
    ensures var sys' := Served(sys, a, ask, saved);
            forall b :: b in sys'.acceptors ==> NodeKnown(sys'.net, drafts, sys'.acceptors[b])
  {
    var sys' := Served(sys, a, ask, saved);
    assert NodeSound(sys, sys.acceptors[a]) && Known2(sys, drafts, ask);
    forall b | b in sys'.acceptors
      ensures NodeKnown(sys'.net, drafts, sys'.acceptors[b])
    {
      if b == a {
        forall e
          ensures EntryKnown(sys.net, drafts, sys'.acceptors[b].log.At(e))
        {
          ServedEntry(sys, drafts, sys.acceptors[a], ask, saved, e);
        }
      } else {
        assert NodeKnown(sys.net, drafts, sys.acceptors[b]);
      }
      NodeKnownGrows(sys.net, sys'.net, drafts, drafts, sys'.acceptors[b]);
    }
  }

  lemma ServeHist(c: Config, sys: System, drafts: set<Proposal>, a: nat, ask: Packet, saved: bool)
    requires Inv(c, sys) && Hist(c, sys, drafts) && Enabled(c, sys, Serve(a, ask, saved))
    ensures Hist(c, Served(sys, a, ask, saved), drafts)
  {
    var sys' := Served(sys, a, ask, saved);
    assert NodeSound(sys, sys.acceptors[a]);
    ServedNodes(c, sys, drafts, a, ask, saved);
    ServedAnswer(sys, drafts, a, sys.acceptors[a], ask, saved);
    forall w | w in sys'.net
      ensures Known2(sys', drafts, w)
    {
      assert w in sys.net ==> Known2(sys, drafts, w);
      if w in sys.net && w.Ask? {
        AnsweredAsk(sys, sys', drafts, w);
      }
    }
  }

  // ---------------------------------------------------------------- what a proposer's event does to its attempt

  /** The attempt goes on with its proposal and value, ends, or a new one begins on the next entry. */
  predicate Carries(s: Inst, s': Inst) {
    && s.lastChosen <= s'.lastChosen && s.nextVid <= s'.nextVid
    && (s'.req.Some? ==>
          || (s.req.Some? && VoteOf(s'.req.value) == VoteOf(s.req.value) && s'.req.value.data == s.req.value.data)
          || (s.req.None? && s'.req.value.valueId == s.nextVid && s'.req.value.entry == s.lastChosen + 1))
  }

  lemma PrepareRspCarries(total: nat, s: Inst, m: PaxosMsg)
    requires s.Sane() && s.req.Some? && s.phase == Preparing
    ensures Carries(s, OnPrepareRsp(total, s, m).inst)
  {
  }

  lemma AcceptRspCarries(total: nat, s: Inst, m: PaxosMsg)
    requires s.Sane() && s.req.Some? && s.phase == Accepting
    ensures Carries(s, OnAcceptRsp(total, s, m).inst) && OnAcceptRsp(total, s, m).inst.phase == Accepting
    ensures OnAcceptRsp(total, s, m).out.send.Some? ==>
              OnAcceptRsp(total, s, m).inst.req.None? && OnAcceptRsp(total, s, m).out.send.value.kind == ChosenReq
              && (m.body.entry != NONE ==> m.body.entry <= OnAcceptRsp(total, s, m).inst.lastChosen)
  {
  }

  lemma HandleCarries(total: nat, s: Inst, ev: Event)
    requires s.Sane()
    ensures Carries(s, Handle(total, s, ev).inst)
  {
    if ev.Deliver? && Current(s, ev.term) {
      if s.phase == Preparing {
        PrepareRspCarries(total, s, ev.msg);
      } else if s.phase == Accepting {
        AcceptRspCarries(total, s, ev.msg);
      }
    }
  }

  /** A foreign promise that is counted. */
  predicate BringsForeign(s: Inst, ev: Event) {
    ev.Deliver? && Current(s, ev.term) && CountsPromise(s, ev.msg) && Foreign(s, ev.msg.body)
  }

  /** Where the picked value comes from. */
  lemma PrepareRspPick(total: nat, s: Inst, m: PaxosMsg)
    requires s.Sane() && s.req.Some? && s.phase == Preparing
    ensures var s' := OnPrepareRsp(total, s, m).inst;
            s'.req.Some? && s'.phase == Preparing && s'.notified ==>
              || (s.notified && s'.lastv == s.lastv)
              || (CountsPromise(s, m) && Foreign(s, m.body) && s'.lastv == Some(m.body))
  {
  }

  lemma HandlePick(total: nat, s: Inst, ev: Event)
    requires s.Sane()
    ensures var s' := Handle(total, s, ev).inst;
            s'.req.Some? && s'.phase == Preparing && s'.notified ==>
              || (s.req.Some? && s.phase == Preparing && s.notified && s'.lastv == s.lastv)
              || (BringsForeign(s, ev) && s'.lastv == Some(ev.msg.body))
  {
    if ev.Deliver? && Current(s, ev.term) {
      if s.phase == Preparing {
        PrepareRspPick(total, s, ev.msg);
      } else if s.phase == Accepting {
        AcceptRspCarries(total, s, ev.msg);
      }
    }
  }

  /** The accept request carries the attempt's own proposal, or a picked one. */
  lemma PrepareRspSends(total: nat, s: Inst, m: PaxosMsg)
    requires s.Sane() && s.req.Some? && s.phase == Preparing && OnPrepareRsp(total, s, m).out.send.Some?
    ensures var x := OnPrepareRsp(total, s, m).out.send.value;
            && x.kind == AcceptReq
            && (|| (VoteOf(x.body) == VoteOf(s.req.value) && x.body.data == s.req.value.data)
                || (s.notified && s.lastv.Some? && VoteOf(x.body) == VoteOf(s.lastv.value))
                || (CountsPromise(s, m) && Foreign(s, m.body) && VoteOf(x.body) == VoteOf(m.body)))
  {
  }

  // ---------------------------------------------------------------- a proposer handles an event

  /** A foreign promise names the vote of another draft of this member. */
  lemma ForeignIsKnown(c: Config, sys: System, drafts: set<Proposal>, i: nat, ev: Event, w: Packet)
    requires Inv(c, sys) && Hist(c, sys, drafts) && i in sys.proposers && Comes(sys, i, ev, w)
    requires BringsForeign(sys.proposers[i].inst, ev)
    ensures Known(drafts, i, VoteOf(ev.msg.body)) && ev.msg.body.entry == sys.proposers[i].inst.req.value.entry
  {
    var s := sys.proposers[i].inst;
    CountedPromise(c, sys, i, ev, w);
    assert PeerSound(sys, i) && PacketSound(sys, w) && PacketSound(sys, w.ask) && Known2(sys, drafts, w);
    assert VoteOf(w.ask.body) == VoteOf(s.req.value);
  }

  lemma TurnReq(c: Config, sys: System, drafts: set<Proposal>, i: nat, ev: Event, w: Packet)
    requires Inv(c, sys) && Hist(c, sys, drafts) && Speaks(sys, i) && Comes(sys, i, ev, w) && !Fresh(sys, i, ev)
    ensures ReqKnown(Handle(|c.acceptors|, sys.proposers[i].inst, ev).inst, i, drafts)
  {
    var s := sys.proposers[i].inst;
    assert ReqKnown(s, i, drafts);
    HandleCarries(|c.acceptors|, s, ev);
    HandlePick(|c.acceptors|, s, ev);
    if s.req.None? {
      OnlyCallsStart(|c.acceptors|, s, ev);
    }
    if BringsForeign(s, ev) {
      ForeignIsKnown(c, sys, drafts, i, ev, w);
    }
  }

  lemma OnlyCallsStart(total: nat, s: Inst, ev: Event)
    requires s.Sane() && s.req.None? && !ev.Propose?
    ensures Handle(total, s, ev).inst.req.None? && Handle(total, s, ev).out.send.None?
  {
  }

  /** The event starts an attempt. */
  predicate Fresh(sys: System, i: nat, ev: Event) {
    i in sys.proposers && ev.Propose? && sys.proposers[i].inst.req.None?
  }

  /** What is new in the network after a turn: at most one request, of the proposer that moved. */
  ghost predicate NewAsks(sys: System, sys': System, i: nat, x: Packet) {
    forall w :: w in sys'.net && w !in sys.net ==> w == x && x.Ask? && x.owner == i
  }

  /** A chosen request is only ever sent for the attempt at hand. */
  predicate WinsOwn(s: Inst, x: Packet) {
    x.Ask? && x.kind == ChosenReq ==> s.req.Some? && x.body.valueId == s.req.value.valueId
  }

  lemma LostStays(sys: System, sys': System, i: nat, x: Packet, j: nat, v: Vote)
    requires Lost(sys, j, v) && sys'.proposers.Keys == sys.proposers.Keys && NewAsks(sys, sys', i, x)
    requires i in sys.proposers && Carries(sys.proposers[i].inst, sys'.proposers[i].inst) && WinsOwn(sys.proposers[i].inst, x)
    requires j != i ==> sys'.proposers[j] == sys.proposers[j]
    ensures Lost(sys', j, v)
  {
    forall w | w in sys'.net
      ensures !ChosenAsk(w, j, v)
    {
      if w in sys.net {
        assert !ChosenAsk(w, j, v);
      }
    }
  }

  lemma PastStays(s: Inst, s': Inst, e: nat)
    requires Past(s, e) && Carries(s, s')
    ensures Past(s', e)
  {
  }

  lemma OldAsk(sys: System, sys': System, drafts: set<Proposal>, more: set<Proposal>, i: nat, x: Packet, w: Packet)
    requires w.Ask? && AskKnown(sys, drafts, w) && drafts <= more
    requires sys'.proposers.Keys == sys.proposers.Keys && NewAsks(sys, sys', i, x)
    requires i in sys.proposers && Carries(sys.proposers[i].inst, sys'.proposers[i].inst) && WinsOwn(sys.proposers[i].inst, x)
    requires forall j :: j in sys.proposers && j != i ==> sys'.proposers[j] == sys.proposers[j]
    ensures AskKnown(sys', more, w)
  {
    var v := VoteOf(w.body);
    if w.kind == PrepareReq {
      if w.body.pid > 0 {
        KnownGrows(drafts, more, w.body.proposer, v);
      }
    } else if w.kind == AcceptReq {
      KnownGrows(drafts, more, w.owner, v);
      if KnownValue(drafts, w.owner, v, w.body.data) {
        ValueGrows(drafts, more, w.owner, v, w.body.data);
      } else if v.entry != NONE {
        LostStays(sys, sys', i, x, w.owner, v);
      }
    } else if w.kind == ChosenReq {
      KnownGrows(drafts, more, w.owner, v);
      PastStays(sys.proposers[w.owner].inst, sys'.proposers[w.owner].inst, v.entry);
    }
  }

  lemma OldPacketsKnown(sys: System, sys': System, drafts: set<Proposal>, more: set<Proposal>, i: nat, x: Packet)
    requires drafts <= more && (forall w :: w in sys.net ==> Known2(sys, drafts, w))
    requires sys'.proposers.Keys == sys.proposers.Keys && NewAsks(sys, sys', i, x)
    requires i in sys.proposers && Carries(sys.proposers[i].inst, sys'.proposers[i].inst) && WinsOwn(sys.proposers[i].inst, x)
    requires forall j :: j in sys.proposers && j != i ==> sys'.proposers[j] == sys.proposers[j]
    ensures forall w :: w in sys.net ==> Known2(sys', more, w)
  {
    forall w | w in sys.net
      ensures Known2(sys', more, w)
    {
      assert Known2(sys, drafts, w);
      if w.Ask? {
        OldAsk(sys, sys', drafts, more, i, x, w);
      } else {
        AnswerKnownGrows(drafts, more, w);
      }
    }
  }

  lemma ReqGrows(s: Inst, i: nat, drafts: set<Proposal>, more: set<Proposal>)
    requires drafts <= more && ReqKnown(s, i, drafts)
    ensures ReqKnown(s, i, more)
  {
    if s.req.Some? {
      ValueGrows(drafts, more, i, VoteOf(s.req.value), s.req.value.data);
      if s.phase == Preparing && s.notified {
        KnownGrows(drafts, more, i, VoteOf(s.lastv.value));
      }
    }
  }

  /** One proposer moved, maybe with a new draft and a new request: the parts make up the history. */
  lemma Pieced(c: Config, sys: System, sys': System, drafts: set<Proposal>, more: set<Proposal>, i: nat, x: Packet)
    requires Hist(c, sys, drafts) && drafts <= more && DraftsOk(c, sys', more)
    requires sys'.acceptors == sys.acceptors && sys'.proposers.Keys == sys.proposers.Keys && sys.net <= sys'.net
    requires NewAsks(sys, sys', i, x) && (x in sys'.net && x !in sys.net ==> Known2(sys', more, x))
    requires i in sys.proposers && Carries(sys.proposers[i].inst, sys'.proposers[i].inst) && WinsOwn(sys.proposers[i].inst, x)
    requires forall j :: j in sys.proposers && j != i ==> sys'.proposers[j] == sys.proposers[j]
    requires ReqKnown(sys'.proposers[i].inst, i, more)
    ensures Hist(c, sys', more)
  {
    OldPacketsKnown(sys, sys', drafts, more, i, x);
    forall j | j in sys'.proposers
      ensures ReqKnown(sys'.proposers[j].inst, j, more)
    {
      if j != i {
        ReqGrows(sys.proposers[j].inst, j, drafts, more);
      }
    }
    forall a | a in sys'.acceptors
      ensures NodeKnown(sys'.net, more, sys'.acceptors[a])
    {
      assert NodeKnown(sys.net, drafts, sys.acceptors[a]);
      NodeKnownGrows(sys.net, sys'.net, drafts, more, sys.acceptors[a]);
    }
  }

  /** The request a turn sends, or a stand-in when it sends none. */
  function Sent(c: Config, sys: System, i: nat, ev: Event): Packet
    requires Speaks(sys, i)
  {
    match Handle(|c.acceptors|, sys.proposers[i].inst, ev).out.send
    case Some(m) => Ask(m.kind, i, m.body.term, sys.nextBid, m.body)
    case None => Ask(ChosenRsp, i, 0, 0, ZERO)
  }

  // ---------------------------------------------------------------- the three ways to send

  /** What a call drafts and sends. */
  lemma StartFacts(s: Inst, opaqueId: nat, value: seq<Byte>)
    requires s.Sane() && s.req.None? && s.proposerId < 0x1_0000
    ensures var o, d := OnPropose(s, opaqueId, value), Draft(s, opaqueId, value);
            && o.inst.req.Some? && VoteOf(o.inst.req.value) == VoteOf(d) && o.inst.req.value.data == d.data
            && d.proposer == s.proposerId && d.valueId == s.nextVid && o.inst.nextVid == s.nextVid + 1
            && (d.pid > 0 ==> d.pid == s.nextPid) && !o.inst.notified
            && o.out.send.Some?
            && var m := o.out.send.value;
               && m.kind in {PrepareReq, AcceptReq} && VoteOf(m.body) == VoteOf(d) && m.body.proposer == d.proposer
               && (m.kind == AcceptReq ==> m.body.data == d.data)
  {
  }

  lemma DraftJoins(c: Config, sys: System, sys': System, drafts: set<Proposal>, i: nat, d: Proposal)
    requires DraftsOk(c, sys, drafts) && Inv(c, sys) && i in sys.proposers && sys'.proposers.Keys == sys.proposers.Keys
    requires forall j :: j in sys.proposers ==> sys.proposers[j].inst.nextVid <= sys'.proposers[j].inst.nextVid
    requires d.proposer == i && d.valueId == sys.proposers[i].inst.nextVid < sys'.proposers[i].inst.nextVid
    requires d.pid > 0 ==> d.pid == sys.proposers[i].inst.nextPid
    ensures DraftsOk(c, sys', drafts + {d})
  {
    assert PeerSound(sys, i);
  }

  /** A call's own request and attempt are those of its draft. */
  lemma StartKnown(c: Config, sys: System, sys': System, more: set<Proposal>, i: nat, ev: Event, d: Proposal)
    requires Speaks(sys, i) && Fresh(sys, i, ev) && sys.proposers[i].inst.proposerId == i < 0x1_0000
    requires d == Draft(sys.proposers[i].inst, ev.opaqueId, ev.value) && d in more
    ensures AskKnown(sys', more, Sent(c, sys, i, ev)) && WinsOwn(sys.proposers[i].inst, Sent(c, sys, i, ev))
    ensures ReqKnown(Handle(|c.acceptors|, sys.proposers[i].inst, ev).inst, i, more)
  {
    StartFacts(sys.proposers[i].inst, ev.opaqueId, ev.value);
    assert KnownValue(more, i, VoteOf(d), d.data) && Known(more, i, VoteOf(d));
  }

  lemma StartHist(c: Config, sys: System, drafts: set<Proposal>, i: nat, ev: Event, w: Packet)
    requires Inv(c, sys) && Hist(c, sys, drafts) && Speaks(sys, i) && Comes(sys, i, ev, w) && Fresh(sys, i, ev)
    ensures Hist(c, Turned(c, sys, i, ev, w), drafts + {Draft(sys.proposers[i].inst, ev.opaqueId, ev.value)})
  {
    var s, sys' := sys.proposers[i].inst, Turned(c, sys, i, ev, w);
    var d := Draft(s, ev.opaqueId, ev.value);
    assert PeerSound(sys, i);
    StartFacts(s, ev.opaqueId, ev.value);
    TurnAdds(c, sys, drafts, i, ev, w);
    DraftJoins(c, sys, sys', drafts, i, d);
    StartKnown(c, sys, sys', drafts + {d}, i, ev, d);
    Pieced(c, sys, sys', drafts, drafts + {d}, i, Sent(c, sys, i, ev));
  }

  /** A picked value is sent for a vote that can no longer win. */
  lemma PickKnown(c: Config, sys: System, sys': System, drafts: set<Proposal>, i: nat, x: Packet)
    requires Hist(c, sys, drafts) && i in sys.proposers && x.Ask? && x.kind == AcceptReq && x.owner == i
    requires Known(drafts, i, VoteOf(x.body))
    requires var s := sys.proposers[i].inst;
             s.req.Some? && x.body.entry == s.req.value.entry && x.body.valueId != s.req.value.valueId
    requires sys'.proposers.Keys == sys.proposers.Keys && NewAsks(sys, sys', i, x)
    requires Carries(sys.proposers[i].inst, sys'.proposers[i].inst)
    ensures AskKnown(sys', drafts, x)
  {
    var v := VoteOf(x.body);
    PickIsLost(c, sys, drafts, i, v);
    if v.entry != NONE {
      LostStays(sys, sys', i, x, i, v);
    }
  }

  /** Which draft the accept request stands for. */
  lemma OpenVote(c: Config, sys: System, drafts: set<Proposal>, i: nat, ev: Event, w: Packet)
    requires Inv(c, sys) && Hist(c, sys, drafts) && i in sys.proposers && sys.proposers[i].inst.Sane() && Comes(sys, i, ev, w)
    requires ev.Deliver? && Current(sys.proposers[i].inst, ev.term) && sys.proposers[i].inst.phase == Preparing
    requires OnPrepareRsp(|c.acceptors|, sys.proposers[i].inst, ev.msg).out.send.Some?
    ensures var s, p := sys.proposers[i].inst, OnPrepareRsp(|c.acceptors|, sys.proposers[i].inst, ev.msg).out.send.value.body;
            || KnownValue(drafts, i, VoteOf(p), p.data)
            || (Known(drafts, i, VoteOf(p)) && p.entry == s.req.value.entry && p.valueId != s.req.value.valueId)
  {
    var s := sys.proposers[i].inst;
    PrepareRspSends(|c.acceptors|, s, ev.msg);
    assert ReqKnown(s, i, drafts) && PeerSound(sys, i);
    if BringsForeign(s, ev) {
      ForeignIsKnown(c, sys, drafts, i, ev, w);
    }
  }

  lemma OpenKnown(c: Config, sys: System, drafts: set<Proposal>, i: nat, ev: Event, w: Packet)
    requires Inv(c, sys) && Hist(c, sys, drafts) && Speaks(sys, i) && Comes(sys, i, ev, w)
    requires ev.Deliver? && Current(sys.proposers[i].inst, ev.term) && sys.proposers[i].inst.phase == Preparing
    requires OnPrepareRsp(|c.acceptors|, sys.proposers[i].inst, ev.msg).out.send.Some?
    ensures AskKnown(Turned(c, sys, i, ev, w), drafts, Sent(c, sys, i, ev)) && Sent(c, sys, i, ev).kind == AcceptReq
  {
    var sys', x := Turned(c, sys, i, ev, w), Sent(c, sys, i, ev);
    PrepareRspSends(|c.acceptors|, sys.proposers[i].inst, ev.msg);
    OpenVote(c, sys, drafts, i, ev, w);
    TurnAdds(c, sys, drafts, i, ev, w);
    if KnownValue(drafts, i, VoteOf(x.body), x.body.data) {
      OwnKnown(sys', drafts, x);
    } else {
      PickKnown(c, sys, sys', drafts, i, x);
    }
  }

  lemma OwnKnown(sys: System, drafts: set<Proposal>, x: Packet)
    requires x.Ask? && x.kind == AcceptReq && KnownValue(drafts, x.owner, VoteOf(x.body), x.body.data)
    ensures AskKnown(sys, drafts, x)
  {
    var d :| d in drafts && d.proposer == x.owner && VoteOf(d) == VoteOf(x.body) && d.data == x.body.data;
  }

  /** A draft of this member for the open entry other than the open attempt can no longer win. */
  lemma PickIsLost(c: Config, sys: System, drafts: set<Proposal>, i: nat, v: Vote)
    requires Hist(c, sys, drafts) && i in sys.proposers && Known(drafts, i, v)
    requires var s := sys.proposers[i].inst;
             s.req.Some? && v.entry == s.req.value.entry && v.valueId != s.req.value.valueId
    ensures v.entry != NONE ==> Lost(sys, i, v)
  {
    if v.entry != NONE {
      forall w | w in sys.net
        ensures !ChosenAsk(w, i, v)
      {
        assert Known2(sys, drafts, w);
      }
    }
  }

  lemma WinKnown(c: Config, sys: System, drafts: set<Proposal>, i: nat, ev: Event, w: Packet)
    requires Inv(c, sys) && Hist(c, sys, drafts) && Speaks(sys, i) && Comes(sys, i, ev, w)
    requires ev.Deliver? && Current(sys.proposers[i].inst, ev.term) && sys.proposers[i].inst.phase == Accepting
    requires OnAcceptRsp(|c.acceptors|, sys.proposers[i].inst, ev.msg).out.send.Some?
    ensures AskKnown(Turned(c, sys, i, ev, w), drafts, Sent(c, sys, i, ev))
    ensures WinsOwn(sys.proposers[i].inst, Sent(c, sys, i, ev))
  {
    var s := sys.proposers[i].inst;
    AcceptRspCarries(|c.acceptors|, s, ev.msg);
    assert ReqKnown(s, i, drafts);
    var how := LoudTurn(|c.acceptors|, s, ev);
    CountedAccept(c, sys, i, ev, w);
    var d :| d in drafts && d.proposer == i && VoteOf(d) == VoteOf(s.req.value);
  }

  /** Whatever a turn sends without starting an attempt is accounted for. */
  lemma SentKnown(c: Config, sys: System, drafts: set<Proposal>, i: nat, ev: Event, w: Packet)
    requires Inv(c, sys) && Hist(c, sys, drafts) && Speaks(sys, i) && Comes(sys, i, ev, w) && !Fresh(sys, i, ev)
    ensures WinsOwn(sys.proposers[i].inst, Sent(c, sys, i, ev))
    ensures Handle(|c.acceptors|, sys.proposers[i].inst, ev).out.send.Some? ==>
              AskKnown(Turned(c, sys, i, ev, w), drafts, Sent(c, sys, i, ev))
  {
    var s := sys.proposers[i].inst;
    if Handle(|c.acceptors|, s, ev).out.send.Some? {
      if s.phase == Preparing {
        OpenKnown(c, sys, drafts, i, ev, w);
      } else {
        WinKnown(c, sys, drafts, i, ev, w);
      }
    }
  }

  /** What a turn adds to the network, and that drafts stay sound while ids only grow. */
  lemma TurnAdds(c: Config, sys: System, drafts: set<Proposal>, i: nat, ev: Event, w: Packet)
    requires Speaks(sys, i) && Comes(sys, i, ev, w)
    ensures var sys' := Turned(c, sys, i, ev, w);
            && NewAsks(sys, sys', i, Sent(c, sys, i, ev)) && sys.net <= sys'.net
            && sys'.acceptors == sys.acceptors && sys'.proposers.Keys == sys.proposers.Keys
            && (forall j :: j in sys.proposers && j != i ==> sys'.proposers[j] == sys.proposers[j])
            && sys'.proposers[i].inst == Handle(|c.acceptors|, sys.proposers[i].inst, ev).inst
            && Carries(sys.proposers[i].inst, sys'.proposers[i].inst)
            && (DraftsOk(c, sys, drafts) ==> DraftsOk(c, sys', drafts))
            && (Sent(c, sys, i, ev) in sys'.net && Sent(c, sys, i, ev) !in sys.net ==>
                  Handle(|c.acceptors|, sys.proposers[i].inst, ev).out.send.Some?)
  {
    TurnShape(c, sys, i, ev, w);
    HandleCarries(|c.acceptors|, sys.proposers[i].inst, ev);
  }

  lemma MoveHist(c: Config, sys: System, drafts: set<Proposal>, i: nat, ev: Event, w: Packet)
    requires Inv(c, sys) && Hist(c, sys, drafts) && Speaks(sys, i) && Comes(sys, i, ev, w) && !Fresh(sys, i, ev)
    ensures Hist(c, Turned(c, sys, i, ev, w), drafts)
  {
    TurnAdds(c, sys, drafts, i, ev, w);
    TurnReq(c, sys, drafts, i, ev, w);
    SentKnown(c, sys, drafts, i, ev, w);
    Pieced(c, sys, Turned(c, sys, i, ev, w), drafts, drafts, i, Sent(c, sys, i, ev));
  }

  // ---------------------------------------------------------------- whole runs

  lemma TurnHist(c: Config, sys: System, drafts: set<Proposal>, i: nat, ev: Event, w: Packet)
    requires Inv(c, sys) && Hist(c, sys, drafts) && Speaks(sys, i) && Comes(sys, i, ev, w)
    ensures Hist(c, Turned(c, sys, i, ev, w),
                 drafts + if Fresh(sys, i, ev) then {Draft(sys.proposers[i].inst, ev.opaqueId, ev.value)} else {})
  {
    if Fresh(sys, i, ev) {
      StartHist(c, sys, drafts, i, ev, w);
    } else {
      MoveHist(c, sys, drafts, i, ev, w);
      Regroup(drafts, {}, {});
    }
  }

  lemma StepHist(c: Config, sys: System, drafts: set<Proposal>, act: Action)
    requires Inv(c, sys) && Hist(c, sys, drafts) && Enabled(c, sys, act)
    ensures Hist(c, Next(c, sys, act), drafts + Drafted(c, sys, act))
  {
    if act.Serve? {
      ServeHist(c, sys, drafts, act.a, act.ask, act.saved);
      Regroup(drafts, {}, {});
    } else {
      NextIsTurn(c, sys, act);
      TurnHist(c, sys, drafts, MoverOf(act), EventOf(act), SourceOf(act));
      DraftedFresh(c, sys, act);
    }
  }

  lemma DraftedFresh(c: Config, sys: System, act: Action)
    requires Enabled(c, sys, act) && !act.Serve?
    ensures var i, ev := MoverOf(act), EventOf(act);
            i in sys.proposers &&
            Drafted(c, sys, act) == if Fresh(sys, i, ev) then {Draft(sys.proposers[i].inst, ev.opaqueId, ev.value)} else {}
  {
  }

  lemma Regroup(a: set<Proposal>, b: set<Proposal>, d: set<Proposal>)
    ensures a + b + d == a + (b + d) && a + {} == a && {} + a == a
  {
  }

  lemma {:induction false} RunHist(c: Config, sys: System, drafts: set<Proposal>, acts: seq<Action>)
    requires Inv(c, sys) && Hist(c, sys, drafts) && Legal(c, sys, acts)
    ensures Hist(c, After(c, sys, acts), drafts + Drafts(c, sys, acts))
    decreases |acts|
  {
    if acts == [] {
      Regroup(drafts, {}, {});
    } else {
      var next, more := Next(c, sys, acts[0]), drafts + Drafted(c, sys, acts[0]);
      StepSound(c, sys, acts[0]);
      StepHist(c, sys, drafts, acts[0]);
      RunHist(c, next, more, acts[1..]);
      Regroup(drafts, Drafted(c, sys, acts[0]), Drafts(c, next, acts[1..]));
    }
  }

  lemma InitHist(c: Config, sys: System)
    requires Init(c, sys)
    ensures Hist(c, sys, {})
  {
    forall a | a in sys.acceptors
      ensures NodeKnown(sys.net, {}, sys.acceptors[a])
    {
      assert forall e :: START.log.At(e) == EMPTY;
    }
  }

  /** The value of an entry marked chosen is that of the one draft behind its vote. */
  lemma MarkHasDraft(c: Config, sys: System, drafts: set<Proposal>, a: nat, e: nat) returns (d: Proposal)
    requires Inv(c, sys) && Hist(c, sys, drafts) && a in sys.acceptors && e != NONE && sys.acceptors[a].log.At(e).Chosen()
    ensures var x := sys.acceptors[a].log.At(e).accepted.value;
            d in drafts && VoteOf(d) == VoteOf(x) && d.data == x.data && d.pid > 0
  {
    var n := sys.acceptors[a];
    var x := n.log.At(e).accepted.value;
    MarkIsElected(c, sys, a, e);
    assert NodeKnown(sys.net, drafts, n) && EntryKnown(sys.net, drafts, n.log.At(e));
    var w :| w in sys.net && w.Ask? && ChosenAsk(w, w.owner, VoteOf(x));
    var ask :| ask in sys.net && AcceptAskFor(ask, x);
    assert Known2(sys, drafts, w) && Known2(sys, drafts, ask) && PacketSound(sys, ask);
    d := OneOwner(c, sys, drafts, w.owner, ask.owner, VoteOf(x));
    assert !Lost(sys, ask.owner, VoteOf(x));
    d :| d in drafts && d.proposer == ask.owner && VoteOf(d) == VoteOf(x) && d.data == x.data;
  }

  /** A vote belongs to one member. */
  lemma OneOwner(c: Config, sys: System, drafts: set<Proposal>, i: nat, j: nat, v: Vote) returns (d: Proposal)
    requires DraftsOk(c, sys, drafts) && Known(drafts, i, v) && Known(drafts, j, v) && v.pid > 0
    ensures i == j && d in drafts && VoteOf(d) == v
  {
    d :| d in drafts && d.proposer == i && VoteOf(d) == v;
    var f :| f in drafts && f.proposer == j && VoteOf(f) == v;
    TracksDisjoint(i, j, c.proposers, v.pid);
  }

  /** All marks of an entry carry the same value. */
  ghost predicate SameValues(sys: System) {
    forall a, b, e :: a in sys.acceptors && b in sys.acceptors && e != NONE
                      && sys.acceptors[a].log.At(e).Chosen() && sys.acceptors[b].log.At(e).Chosen() ==>
      sys.acceptors[a].log.At(e).accepted.value.data == sys.acceptors[b].log.At(e).accepted.value.data
  }

  /** The value under every mark is one that a client asked for in some call of the run. */
  ghost predicate ValuesCalled(sys: System, acts: seq<Action>) {
    forall a, e :: a in sys.acceptors && e != NONE && sys.acceptors[a].log.At(e).Chosen() ==>
      IsCalled(acts, sys.acceptors[a].log.At(e).accepted.value.data)
  }

  /** Marks with the same vote carry the same value. */
  lemma SameValue(c: Config, sys: System, drafts: set<Proposal>, a: nat, b: nat, e: nat)
    requires Inv(c, sys) && Hist(c, sys, drafts) && a in sys.acceptors && b in sys.acceptors && e != NONE
    requires sys.acceptors[a].log.At(e).Chosen() && sys.acceptors[b].log.At(e).Chosen()
    requires SameVote(sys.acceptors[a].log.At(e).accepted.value, sys.acceptors[b].log.At(e).accepted.value)
    ensures sys.acceptors[a].log.At(e).accepted.value.data == sys.acceptors[b].log.At(e).accepted.value.data
  {
    var d := MarkHasDraft(c, sys, drafts, a, e);
    var f := MarkHasDraft(c, sys, drafts, b, e);
    TracksDisjoint(d.proposer, f.proposer, c.proposers, d.pid);
  }

  lemma HistoryAfter(c: Config, sys: System, acts: seq<Action>)
    requires Init(c, sys) && Legal(c, sys, acts)
    ensures Inv(c, After(c, sys, acts)) && Hist(c, After(c, sys, acts), Drafts(c, sys, acts))
  {
    InitSound(c, sys);
    RunSound(c, sys, acts);
    InitHist(c, sys);
    RunHist(c, sys, {}, acts);
    Regroup(Drafts(c, sys, acts), {}, {});
  }

  /** Whoever skips the prepare phase: where chosen marks agree on the vote, they agree on the value. */
  lemma MarkedValuesAgree(c: Config, sys: System, acts: seq<Action>)
    requires Init(c, sys) && Legal(c, sys, acts) && ChosenAgree(After(c, sys, acts))
    ensures SameValues(After(c, sys, acts))
  {
    var end := After(c, sys, acts);
    HistoryAfter(c, sys, acts);
    forall a, b, e | a in end.acceptors && b in end.acceptors && e != NONE
                     && end.acceptors[a].log.At(e).Chosen() && end.acceptors[b].log.At(e).Chosen()
      ensures end.acceptors[a].log.At(e).accepted.value.data == end.acceptors[b].log.At(e).accepted.value.data
    {
      SameValue(c, end, Drafts(c, sys, acts), a, b, e);
    }
  }

  /** Whoever skips the prepare phase: what is marked chosen is what some client asked for. */
  lemma MarkedValuesAreCalled(c: Config, sys: System, acts: seq<Action>)
    requires Init(c, sys) && Legal(c, sys, acts)
    ensures ValuesCalled(After(c, sys, acts), acts)
  {
    var end := After(c, sys, acts);
    HistoryAfter(c, sys, acts);
    forall a, e | a in end.acceptors && e != NONE && end.acceptors[a].log.At(e).Chosen()
      ensures IsCalled(acts, end.acceptors[a].log.At(e).accepted.value.data)
    {
      var d := MarkHasDraft(c, end, Drafts(c, sys, acts), a, e);
      DraftsAreCalls(c, sys, acts, d);
    }
  }

  /**
   * Agreement on values, in every run in which only member 0 skips the prepare phase: for every entry but
   * the sentinel all acceptors' chosen marks carry the same value, and it is that of a client's call.
   */
  lemma ValueAgreementHolds(c: Config, sys: System, acts: seq<Action>)
    requires Init(c, sys) && Legal(c, sys, acts) && c.skippers <= {0}
    ensures SameValues(After(c, sys, acts)) && ValuesCalled(After(c, sys, acts), acts)
  {
    AgreementHolds(c, sys, acts);
    MarkedValuesAgree(c, sys, acts);
    MarkedValuesAreCalled(c, sys, acts);
  }
}
