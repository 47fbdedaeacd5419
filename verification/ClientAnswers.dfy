/** What a client may conclude from the code OK. */
module ClientAnswers {
  import opened Ptype
  import opened Sequences
  import opened ProposerSpec
  import opened ProposerRuns

  /** A write whose client still waits for its answer. */
  predicate Awaited(s: Inst) {
    s.req.Some? && s.req.value.pid > 0 && !s.notified
  }

  predicate SaysOk(total: nat, s: Inst, ev: Event)
    requires s.Sane()
  {
    OK in Handle(total, s, ev).out.resolved
  }

  predicate SendsSomething(total: nat, s: Inst, ev: Event)
    requires s.Sane()
  {
    Handle(total, s, ev).out.send.Some?
  }

  /** A response that is counted for the client's own proposal. */
  predicate CountsOwn(s: Inst, ev: Event) {
    && ev.Deliver? && Current(s, ev.term)
    && ((s.phase == Preparing && CountsPromise(s, ev.msg) && !Foreign(s, ev.msg.body))
        || (s.phase == Accepting && CountsAccept(s, ev.msg)))
  }

  /** In the phase the attempt was in: how many responses have come, and how many of them were counted. */
  function Heard(s: Inst, t: Tally): nat {
    if s.phase == Preparing then t.seen else t.heard
  }

  function Agreeing(s: Inst, t: Tally): nat {
    if s.phase == Preparing then |t.promises| else |t.accepts|
  }

  /**
   * The event gives OK away: the last response of the phase is counted for the client's proposal, and so its
   * zero code is passed on, although too few were counted; or enough were and the response has no pid.
   */
  predicate GivesAway(total: nat, s: Inst, t: Tally, ev: Event) {
    CountsOwn(s, ev) &&
    if Agreeing(s, t) % 256 < Majority(total) then Heard(s, t) % 256 == total
    else s.phase == Preparing && ev.msg.body.pid == 0
  }

  lemma PrepareRspSaysOk(total: nat, s: Inst, m: PaxosMsg)
    requires s.Sane() && Awaited(s) && s.phase == Preparing
    ensures var out := OnPrepareRsp(total, s, m).out;
            OK in out.resolved <==>
            && CountsPromise(s, m) && !Foreign(s, m.body)
            && if Bump(s.validCount) < Majority(total) then Bump(s.rspCount) == total else m.body.pid == 0
    ensures var out := OnPrepareRsp(total, s, m).out;
            OK in out.resolved ==> out.send.None?
  {
  }

  lemma AcceptRspSaysOk(total: nat, s: Inst, m: PaxosMsg)
    requires s.Sane() && Awaited(s) && s.phase == Accepting
    ensures var out := OnAcceptRsp(total, s, m).out;
            OK in out.resolved <==>
            CountsAccept(s, m) && (Majority(total) <= Bump(s.validCount) || Bump(s.rspCount) == total)
    ensures var out := OnAcceptRsp(total, s, m).out;
            OK in out.resolved ==> (out.send.Some? <==> Majority(total) <= Bump(s.validCount))
  {
  }

  /** The one-byte counters after a counted response. */
  lemma CountersFollow(s: Inst, t: Tally, ev: Event)
    requires TallyOk(s, t) && CountsOwn(s, ev)
    ensures var t' := Track(s, t, ev);
            Bump(s.rspCount) == Heard(s, t') % 256 && Bump(s.validCount) == Agreeing(s, t') % 256
  {
    var t' := Track(s, t, ev);
    assert Heard(s, t') == Heard(s, t) + 1 && Agreeing(s, t') == Agreeing(s, t) + 1;
    BumpFollows(Heard(s, t));
    BumpFollows(Agreeing(s, t));
    assert s.rspCount == Heard(s, t) % 256 && s.validCount == Agreeing(s, t) % 256;
  }

  lemma OkInPrepare(total: nat, s: Inst, t: Tally, ev: Event)
    requires s.Sane() && TallyOk(s, t) && Awaited(s) && ev.Deliver? && Current(s, ev.term) && s.phase == Preparing
    ensures var t' := Track(s, t, ev);
            && (SaysOk(total, s, ev) && !SendsSomething(total, s, ev) <==> GivesAway(total, s, t', ev))
            && !(SaysOk(total, s, ev) && SendsSomething(total, s, ev))
  {
    PrepareRspSaysOk(total, s, ev.msg);
    if CountsOwn(s, ev) {
      CountersFollow(s, t, ev);
    }
  }

  lemma OkInAccept(total: nat, s: Inst, t: Tally, ev: Event)
    requires s.Sane() && TallyOk(s, t) && Awaited(s) && ev.Deliver? && Current(s, ev.term) && s.phase == Accepting
    ensures var t' := Track(s, t, ev);
            && (SaysOk(total, s, ev) && !SendsSomething(total, s, ev) <==> GivesAway(total, s, t', ev))
            && (SaysOk(total, s, ev) && SendsSomething(total, s, ev) <==>
                  CountsOwn(s, ev) && Majority(total) <= Agreeing(s, t') % 256)
  {
    AcceptRspSaysOk(total, s, ev.msg);
    if CountsOwn(s, ev) {
      CountersFollow(s, t, ev);
    }
  }

  lemma OkNowhereElse(total: nat, s: Inst, ev: Event)
    requires s.Sane() && Awaited(s) && !(ev.Deliver? && Current(s, ev.term) && s.phase in {Preparing, Accepting})
    ensures !SaysOk(total, s, ev)
  {
  }

  /**
   * Exactly when a waiting client of a write is told OK, over every run: together with a chosen broadcast,
   * after a majority of accept responses for its proposal; or without any, when the event gives it away.
   */
  lemma OkIff(total: nat, s0: Inst, evs: seq<Event>, ev: Event)
    requires s0.Sane() && s0.req.None? && Awaited(Run(total, s0, evs))
    ensures var s := Run(total, s0, evs);
            var t' := Track(s, TrackRun(total, s0, evs), ev);
            && (SaysOk(total, s, ev) && !SendsSomething(total, s, ev) <==> GivesAway(total, s, t', ev))
            && (SaysOk(total, s, ev) && SendsSomething(total, s, ev) <==>
                  s.phase == Accepting && CountsOwn(s, ev) && Majority(total) <= |t'.accepts| % 256)
  {
    var s, t := Run(total, s0, evs), TrackRun(total, s0, evs);
    TallyHolds(total, s0, evs);
    if ev.Deliver? && Current(s, ev.term) && s.phase == Preparing {
      OkInPrepare(total, s, t, ev);
    } else if ev.Deliver? && Current(s, ev.term) && s.phase == Accepting {
      OkInAccept(total, s, t, ev);
    } else {
      OkNowhereElse(total, s, ev);
    }
  }

  // ---------------------------------------------------------------- for which group sizes OK can be trusted

  /** In every run, whenever a waiting client of a write is told OK on a response with a pid, something is sent with it. */
  ghost predicate Trustworthy(total: nat) {
    forall id, n, vid, evs, ev ::
      n > 0 && Answers(total, id, n, vid, evs, ev) ==> SendsSomething(total, Run(total, Initial(id, n, vid), evs), ev)
  }

  predicate Answers(total: nat, id: nat, n: nat, vid: nat, evs: seq<Event>, ev: Event)
    requires n > 0
  {
    var s := Run(total, Initial(id, n, vid), evs);
    Awaited(s) && (ev.Deliver? ==> ev.msg.body.pid > 0) && SaysOk(total, s, ev)
  }

  /** While an attempt for the client's own proposal goes on, too few responses have been counted. */
  predicate Short(total: nat, s: Inst) {
    s.req.Some? && ((s.phase == Preparing && !s.notified) || s.phase == Accepting) ==> s.validCount < Majority(total)
  }

  lemma ShortPrepareRsp(total: nat, s: Inst, m: PaxosMsg)
    requires s.Sane() && s.req.Some? && s.phase == Preparing && Short(total, s)
    ensures Short(total, OnPrepareRsp(total, s, m).inst)
  {
  }

  lemma ShortAcceptRsp(total: nat, s: Inst, m: PaxosMsg)
    requires s.Sane() && s.req.Some? && s.phase == Accepting && Short(total, s)
    ensures Short(total, OnAcceptRsp(total, s, m).inst)
  {
  }

  lemma ShortStep(total: nat, s: Inst, ev: Event)
    requires s.Sane() && Short(total, s)
    ensures Short(total, Handle(total, s, ev).inst)
  {
    if ev.Deliver? && Current(s, ev.term) {
      if s.phase == Preparing {
        ShortPrepareRsp(total, s, ev.msg);
      } else if s.phase == Accepting {
        ShortAcceptRsp(total, s, ev.msg);
      }
    }
  }

  lemma {:induction false} StaysShort(total: nat, s0: Inst, evs: seq<Event>)
    requires s0.Sane() && s0.req.None?
    ensures Short(total, Run(total, s0, evs))
  {
    if evs != [] {
      StaysShort(total, s0, Front(evs));
      ShortStep(total, Run(total, s0, Front(evs)), Last(evs));
    }
  }

  /** A group of one has its majority with the first counted response, and counters of one byte never reach 256. */
  lemma NothingGivenAway(total: nat, s: Inst, t: Tally, ev: Event)
    requires s.Sane() && TallyOk(s, t) && Short(total, s) && Awaited(s) && (total <= 1 || total > 255)
    requires ev.Deliver? ==> ev.msg.body.pid > 0
    ensures !GivesAway(total, s, Track(s, t, ev), ev)
  {
    if CountsOwn(s, ev) && total <= 1 {
      assert s.validCount == 0;
      assert Agreeing(s, Track(s, t, ev)) == Agreeing(s, t) + 1;
      assert Agreeing(s, t) % 256 == 0;
    }
  }

  const VALUE: seq<Byte> := [7]

  /** An acceptor that refuses because it has already chosen the entry. */
  const BEHIND: PaxosMsg := PaxosMsg(PrepareRsp, REMOTE_NEED_CATCHUP, ZERO)

  /** A write, and `k` refusals. */
  function Refusals(k: nat): seq<Event> {
    if k == 0 then [Propose(0, VALUE)] else Refusals(k - 1) + [Deliver(0, BEHIND)]
  }

  /** The promise of an acceptor that knows nothing of the entry. */
  function OwnPromise(s: Inst): Event {
    Deliver(0, PaxosMsg(PrepareRsp, OK, Draft(s, 0, VALUE).(data := [], status := PROMISED)))
  }

  /** Everything a run sends. */
  function Sends(total: nat, s0: Inst, evs: seq<Event>): seq<PaxosMsg>
    requires s0.Sane()
  {
    if evs == [] then []
    else
      var send := Handle(total, Run(total, s0, Front(evs)), Last(evs)).out.send;
      Sends(total, s0, Front(evs)) + if send.Some? then [send.value] else []
  }

  lemma WriteStarts(total: nat, s0: Inst, id: nat, n: nat, vid: nat)
    requires n > 0 && s0 == Initial(id, n, vid) && id < NOBODY
    ensures var o := OnPropose(s0, 0, VALUE);
            && o.out.send.Some? && o.out.send.value.kind == PrepareReq
            && o.inst.req == Some(Draft(s0, 0, VALUE)) && o.inst.phase == Preparing && !o.inst.notified
            && o.inst.term == 1 && o.inst.rspCount == 0 && o.inst.validCount == 0
  {
  }

  lemma OneMoreRefusal(total: nat, s: Inst, k: nat)
    requires s.Sane() && s.req.Some? && s.phase == Preparing && s.term == 1 && s.rspCount == k && k + 1 < total <= 255
    ensures Handle(total, s, Deliver(0, BEHIND)) == Outcome(s.(rspCount := k + 1), SILENT)
  {
  }

  lemma {:induction false} RefusalsCount(total: nat, s0: Inst, id: nat, n: nat, vid: nat, k: nat)
    requires n > 0 && s0 == Initial(id, n, vid) && id < NOBODY && k < total <= 255
    ensures Run(total, s0, Refusals(k)) == OnPropose(s0, 0, VALUE).inst.(rspCount := k)
    decreases k
  {
    WriteStarts(total, s0, id, n, vid);
    if k == 0 {
      assert Front(Refusals(0)) == [];
    } else {
      RefusalsCount(total, s0, id, n, vid, k - 1);
      OneMoreRefusal(total, Run(total, s0, Refusals(k - 1)), k - 1);
      assert Front(Refusals(k)) == Refusals(k - 1) && Last(Refusals(k)) == Deliver(0, BEHIND);
    }
  }

  lemma NothingSent(total: nat, s0: Inst, evs: seq<Event>, ev: Event)
    requires s0.Sane() && Handle(total, Run(total, s0, evs), ev).out.send.None?
    ensures Sends(total, s0, evs + [ev]) == Sends(total, s0, evs)
  {
    assert Front(evs + [ev]) == evs && Last(evs + [ev]) == ev;
  }

  lemma FirstSent(total: nat, s0: Inst, ev: Event)
    requires s0.Sane() && Handle(total, s0, ev).out.send.Some?
    ensures Sends(total, s0, [ev]) == [Handle(total, s0, ev).out.send.value]
  {
    assert Front([ev]) == [];
  }

  lemma RefusalSendsNothing(total: nat, s0: Inst, evs: seq<Event>, s: Inst, k: nat)
    requires s0.Sane() && s.Sane() && Run(total, s0, evs) == s
    requires s.req.Some? && s.phase == Preparing && s.term == 1 && s.rspCount == k && k + 1 < total <= 255
    ensures Sends(total, s0, evs + [Deliver(0, BEHIND)]) == Sends(total, s0, evs)
  {
    OneMoreRefusal(total, s, k);
    NothingSent(total, s0, evs, Deliver(0, BEHIND));
  }

  /** All that is ever sent is what the call sends. */
  lemma {:induction false} RefusalsSend(total: nat, s0: Inst, id: nat, n: nat, vid: nat, k: nat)
    requires n > 0 && s0 == Initial(id, n, vid) && id < NOBODY && k < total <= 255
    ensures Sends(total, s0, Refusals(k)) == Sends(total, s0, [Propose(0, VALUE)])
    decreases k
  {
    if k > 0 {
      RefusalsSend(total, s0, id, n, vid, k - 1);
      RefusalsCount(total, s0, id, n, vid, k - 1);
      WriteStarts(total, s0, id, n, vid);
      RefusalSendsNothing(total, s0, Refusals(k - 1), OnPropose(s0, 0, VALUE).inst.(rspCount := k - 1), k - 1);
    }
  }

  /** All but one refuse and the last one promises: the client of the write is told OK, and no accept was ever asked for. */
  lemma OkForNothing(total: nat, s0: Inst, id: nat, n: nat, vid: nat)
    requires n > 0 && s0 == Initial(id, n, vid) && id < NOBODY && 2 <= total <= 255
    ensures Awaited(Run(total, s0, Refusals(total - 1)))
    ensures Handle(total, Run(total, s0, Refusals(total - 1)), OwnPromise(s0)).out == Out(None, [OK])
    ensures forall m :: m in Sends(total, s0, Refusals(total - 1)) ==> m.kind == PrepareReq
  {
    WriteStarts(total, s0, id, n, vid);
    RefusalsCount(total, s0, id, n, vid, total - 1);
    RefusalsSend(total, s0, id, n, vid, total - 1);
    FirstSent(total, s0, Propose(0, VALUE));
    LastPromise(total, Run(total, s0, Refusals(total - 1)), Draft(s0, 0, VALUE));
  }

  lemma LastPromise(total: nat, s: Inst, p: Proposal)
    requires s.Sane() && s.req == Some(p) && s.phase == Preparing && !s.notified && s.term == 1
    requires s.rspCount + 1 == total && s.validCount == 0 && 2 <= total <= 255
    ensures Handle(total, s, Deliver(0, PaxosMsg(PrepareRsp, OK, p.(data := [], status := PROMISED)))).out == Out(None, [OK])
  {
  }

  /** OK can be trusted in all runs if and only if the group has one acceptor, or more than the counters can count. */
  lemma TrustworthyIff(total: nat)
    ensures Trustworthy(total) <==> total <= 1 || total > 255
  {
    if total <= 1 || total > 255 {
      forall id, n, vid, evs, ev | n > 0 && Answers(total, id, n, vid, evs, ev)
        ensures SendsSomething(total, Run(total, Initial(id, n, vid), evs), ev)
      {
        var s0 := Initial(id, n, vid);
        OkIff(total, s0, evs, ev);
        TallyHolds(total, s0, evs);
        StaysShort(total, s0, evs);
        NothingGivenAway(total, Run(total, s0, evs), TrackRun(total, s0, evs), ev);
      }
    } else {
      OkForNothing(total, Initial(0, 3, 9), 0, 3, 9);
      assert Answers(total, 0, 3, 9, Refusals(total - 1), OwnPromise(Initial(0, 3, 9)));
    }
  }
}

/** An OK that comes with a chosen broadcast is the truth, in every run of the whole system. */
module ClientTruth {
  import opened Ptype
  import opened AcceptorRuns
  import opened ProposerSpec
  import opened Consensus
  import opened ConsensusProof
  import opened Agreement
  import opened ClientAnswers

  lemma WonIsElected(c: Config, sys: System, i: nat, ev: Event, w: Packet)
    requires Inv(c, sys) && Speaks(sys, i) && Comes(sys, i, ev, w) && Awaited(sys.proposers[i].inst)
    requires SaysOk(|c.acceptors|, sys.proposers[i].inst, ev) && SendsSomething(|c.acceptors|, sys.proposers[i].inst, ev)
    ensures Elected(Turned(c, sys, i, ev, w), VoteOf(sys.proposers[i].inst.req.value))
  {
    var s := sys.proposers[i].inst;
    if ev.Deliver? && Current(s, ev.term) && s.phase == Preparing {
      PrepareRspSaysOk(|c.acceptors|, s, ev.msg);
    } else if ev.Deliver? && Current(s, ev.term) && s.phase == Accepting {
      AcceptRspSaysOk(|c.acceptors|, s, ev.msg);
      CountedAccept(c, sys, i, ev, w);
      assert VotersSound(sys, i);
      WinningIsElected(sys, i, w.acceptor);
      TurnGrows(c, sys, i, ev, w);
      ElectedGrows(sys, Turned(c, sys, i, ev, w), VoteOf(s.req.value));
    } else {
      OkNowhereElse(|c.acceptors|, s, ev);
    }
  }

  /**
   * Whoever skips the prepare phase: a waiting client of a write is told OK together with a chosen broadcast
   * only when a majority of acceptors has accepted its own proposal.
   */
  lemma OkIsElected(c: Config, sys: System, acts: seq<Action>, act: Action)
    requires Init(c, sys) && Legal(c, sys, acts) && Enabled(c, After(c, sys, acts), act) && !act.Serve?
    requires var s := After(c, sys, acts).proposers[MoverOf(act)].inst;
             Awaited(s) && SaysOk(|c.acceptors|, s, EventOf(act)) && SendsSomething(|c.acceptors|, s, EventOf(act))
    ensures Elected(Next(c, After(c, sys, acts), act), VoteOf(After(c, sys, acts).proposers[MoverOf(act)].inst.req.value))
  {
    InitSound(c, sys);
    RunSound(c, sys, acts);
    NextIsTurn(c, After(c, sys, acts), act);
    WonIsElected(c, After(c, sys, acts), MoverOf(act), EventOf(act), SourceOf(act));
  }
}
