/** What holds of one proposer over every sequence of calls, responses, timeouts and notices. */
module ProposerRuns {
  import opened Ptype
  import opened Sequences
  import opened ProposerSpec

  function Run(total: nat, s0: Inst, evs: seq<Event>): (s: Inst)
    requires s0.Sane()
    ensures s.Sane()
  {
    if evs == [] then s0 else Handle(total, Run(total, s0, Front(evs)), Last(evs)).inst
  }

  // ---------------------------------------------------------------- one answer per attempt

  /** How often the promise of attempt `t` has been set; the promise in hand belongs to the latest attempt. */
  function Answers(total: nat, s0: Inst, evs: seq<Event>, t: nat): nat
    requires s0.Sane()
  {
    if evs == [] then 0
    else
      var o := Handle(total, Run(total, s0, Front(evs)), Last(evs));
      Answers(total, s0, Front(evs), t) + if o.inst.term == t + 1 then |o.out.resolved| else 0
  }

  /** Attempts before the latest are answered; the latest is, unless it is open and its client not notified. */
  function Answered(s: Inst, t: nat): nat {
    if t + 1 < s.term || (t + 1 == s.term && (s.req.None? || s.notified)) then 1 else 0
  }

  function Settled(s: Inst): nat {
    if s.req.None? || s.notified then 1 else 0
  }

  lemma PrepareRspSettles(total: nat, s: Inst, m: PaxosMsg)
    requires s.Sane() && s.req.Some? && s.phase == Preparing
    ensures var o := OnPrepareRsp(total, s, m);
            o.inst.term == s.term && Settled(o.inst) == Settled(s) + |o.out.resolved|
  {
  }

  lemma AcceptRspSettles(total: nat, s: Inst, m: PaxosMsg)
    requires s.Sane() && s.req.Some? && s.phase == Accepting
    ensures var o := OnAcceptRsp(total, s, m);
            o.inst.term == s.term && Settled(o.inst) == Settled(s) + |o.out.resolved|
  {
  }

  lemma AnswerStep(total: nat, s: Inst, ev: Event, t: nat)
    requires s.Sane()
    ensures var o := Handle(total, s, ev);
            Answered(o.inst, t) == Answered(s, t) + if o.inst.term == t + 1 then |o.out.resolved| else 0
  {
    if ev.Deliver? && Current(s, ev.term) {
      if s.phase == Preparing {
        PrepareRspSettles(total, s, ev.msg);
      } else if s.phase == Accepting {
        AcceptRspSettles(total, s, ev.msg);
      }
    }
  }

  lemma {:induction false} AnswersExact(total: nat, id: nat, n: nat, vid: nat, evs: seq<Event>, t: nat)
    requires n > 0
    ensures var s0 := Initial(id, n, vid);
            Answers(total, s0, evs, t) == Answered(Run(total, s0, evs), t)
  {
    if evs != [] {
      AnswersExact(total, id, n, vid, Front(evs), t);
      AnswerStep(total, Run(total, Initial(id, n, vid), Front(evs)), Last(evs), t);
    }
  }

  /**
   * A client is answered at most once per attempt whatever arrives, and exactly once as soon as the
   * timeout of a started attempt has been handled.
   */
  lemma ResolvesOnce(total: nat, id: nat, n: nat, vid: nat, evs: seq<Event>, t: nat)
    requires n > 0
    ensures var s0 := Initial(id, n, vid);
            && Answers(total, s0, evs, t) <= 1
            && (t < Run(total, s0, evs).term ==> Answers(total, s0, evs + [Expire(t)], t) == 1)
  {
    AnswersExact(total, id, n, vid, evs, t);
    AnswersExact(total, id, n, vid, evs + [Expire(t)], t);
    assert Front(evs + [Expire(t)]) == evs;
  }

  // ---------------------------------------------------------------- what was counted

  /**
   * What the current attempt proposed and which responses have been counted for it, among those seen in its
   * prepare phase and those heard in its accept phase.
   */
  datatype Tally = Tally(
    origin: Option<Proposal>, seen: nat, promises: seq<Proposal>, heard: nat, accepts: seq<Proposal>)

  const BLANK: Tally := Tally(None, 0, [], 0, [])

  function Track(s: Inst, t: Tally, ev: Event): Tally {
    match ev
    case Propose(opaqueId, value) =>
      if s.req.Some? then t else Tally(Some(Draft(s, opaqueId, value)), 0, [], 0, [])
    case Deliver(term, m) =>
      if !Current(s, term) then t
      else if s.phase == Preparing && m.kind == PrepareRsp then
        t.(seen := t.seen + 1, promises := if CountsPromise(s, m) then t.promises + [m.body] else t.promises)
      else if s.phase == Accepting && m.kind == AcceptRsp then
        t.(heard := t.heard + 1, accepts := if CountsAccept(s, m) then t.accepts + [m.body] else t.accepts)
      else t
    case _ => t
  }

  function TrackRun(total: nat, s0: Inst, evs: seq<Event>): Tally
    requires s0.Sane()
  {
    if evs == [] then BLANK
    else Track(Run(total, s0, Front(evs)), TrackRun(total, s0, Front(evs)), Last(evs))
  }

  predicate SameProposal(p: Proposal, q: Proposal) {
    p.pid == q.pid && p.valueId == q.valueId && p.entry == q.entry && p.data == q.data
  }

  predicate ForeignTo(origin: Proposal, p: Proposal) {
    p.valueId != origin.valueId
  }

  ghost predicate HasForeign(origin: Proposal, ps: seq<Proposal>) {
    exists i :: 0 <= i < |ps| && ForeignTo(origin, ps[i])
  }

  /** `p` is one of the foreign values among `ps` and none of them has a greater pid. */
  ghost predicate GreatestForeign(origin: Proposal, ps: seq<Proposal>, p: Proposal) {
    && (exists i :: 0 <= i < |ps| && ForeignTo(origin, ps[i]) && SameProposal(ps[i], p))
    && (forall i :: 0 <= i < |ps| && ForeignTo(origin, ps[i]) ==> ps[i].pid <= p.pid)
  }

  /** The kept value, if any, is the greatest among the counted foreign ones. */
  ghost predicate PickOk(s: Inst, origin: Proposal, promises: seq<Proposal>) {
    && (s.notified <==> HasForeign(origin, promises))
    && (s.notified ==> s.lastv.Some? && GreatestForeign(origin, promises, s.lastv.value))
  }

  ghost predicate PromisesOk(s: Inst, t: Tally)
    requires t.origin.Some?
  {
    s.rspCount == t.seen % 256 && s.validCount == |t.promises| % 256 && PickOk(s, t.origin.value, t.promises)
  }

  ghost predicate AcceptsOk(s: Inst, t: Tally)
    requires t.origin.Some?
  {
    && s.rspCount == t.heard % 256
    && s.validCount == |t.accepts| % 256
    && (forall i :: 0 <= i < |t.accepts| ==> Backs(t.origin.value, t.accepts[i]))
  }

  predicate Backs(origin: Proposal, p: Proposal) {
    p.pid == origin.pid && p.valueId == origin.valueId
  }

  ghost predicate TallyOk(s: Inst, t: Tally) {
    s.req.Some? ==>
      && t.origin.Some? && SameProposal(s.req.value, t.origin.value)
      && (s.phase == Preparing ==> PromisesOk(s, t) && t.heard == 0 && t.accepts == [])
      && (s.phase == Accepting ==> AcceptsOk(s, t))
  }

  lemma ForeignGrows(origin: Proposal, ps: seq<Proposal>, p: Proposal)
    ensures HasForeign(origin, ps + [p]) <==> HasForeign(origin, ps) || ForeignTo(origin, p)
  {
    if HasForeign(origin, ps) {
      var i :| 0 <= i < |ps| && ForeignTo(origin, ps[i]);
      assert (ps + [p])[i] == ps[i];
    }
    assert (ps + [p])[|ps|] == p;
  }

  lemma GreatestGrows(origin: Proposal, ps: seq<Proposal>, p: Proposal, best: Proposal)
    requires GreatestForeign(origin, ps, best)
    requires !ForeignTo(origin, p) || p.pid <= best.pid
    ensures GreatestForeign(origin, ps + [p], best)
  {
    var i :| 0 <= i < |ps| && ForeignTo(origin, ps[i]) && SameProposal(ps[i], best);
    assert (ps + [p])[i] == ps[i];
  }

  lemma GreatestReplaced(origin: Proposal, ps: seq<Proposal>, p: Proposal)
    requires ForeignTo(origin, p)
    requires !HasForeign(origin, ps) || exists best :: GreatestForeign(origin, ps, best) && best.pid < p.pid
    ensures GreatestForeign(origin, ps + [p], p)
  {
    assert (ps + [p])[|ps|] == p;
  }

  lemma BumpFollows(n: nat)
    ensures Bump(n % 256) == (n + 1) % 256
  {
  }

  lemma PickFollows(s: Inst, origin: Proposal, promises: seq<Proposal>, p: Proposal)
    requires s.req.Some? && SameProposal(s.req.value, origin) && PickOk(s, origin, promises)
    ensures PickOk(Counted(s, p), origin, promises + [p])
  {
    ForeignGrows(origin, promises, p);
    if s.notified && !(Foreign(s, p) && s.lastv.value.pid < p.pid) {
      GreatestGrows(origin, promises, p, s.lastv.value);
    } else if Foreign(s, p) {
      GreatestReplaced(origin, promises, p);
    }
  }

  /** Counting one promise keeps the tally and the state in step. */
  lemma CountPromise(s: Inst, t: Tally, p: Proposal)
    requires s.req.Some? && t.origin.Some? && SameProposal(s.req.value, t.origin.value) && PromisesOk(s, t)
    ensures PromisesOk(Counted(s, p), t.(seen := t.seen + 1, promises := t.promises + [p]))
  {
    BumpFollows(t.seen);
    BumpFollows(|t.promises|);
    PickFollows(s, t.origin.value, t.promises, p);
  }

  /** The attempt goes on with its proposal. */
  predicate SameAttempt(s: Inst, s': Inst) {
    s.req.Some? && s'.req.Some? && SameProposal(s'.req.value, s.req.value)
  }

  /** A counted promise, if the attempt goes on, is kept in the counts or opens the accept phase with fresh ones. */
  lemma CountedRsp(total: nat, s: Inst, m: PaxosMsg)
    requires s.Sane() && s.phase == Preparing && CountsPromise(s, m)
    ensures var s' := OnPrepareRsp(total, s, m).inst;
            s'.req.Some? ==>
              && SameAttempt(s, s')
              && (s' == Counted(s, m.body) || (s'.phase == Accepting && s'.rspCount == 0 && s'.validCount == 0))
  {
  }

  /** Any other prepare response only adds to the responses seen. */
  lemma OtherRsp(total: nat, s: Inst, m: PaxosMsg)
    requires s.Sane() && s.req.Some? && s.phase == Preparing && m.kind == PrepareRsp && !CountsPromise(s, m)
    ensures var s' := OnPrepareRsp(total, s, m).inst;
            s'.req.Some? ==> SameAttempt(s, s') && s'.phase == Preparing && s'.rspCount == Bump(s.rspCount)
                             && s'.validCount == s.validCount && s'.notified == s.notified && s'.lastv == s.lastv
  {
  }

  lemma TallyPrepareRsp(total: nat, s: Inst, t: Tally, m: PaxosMsg)
    requires s.Sane() && TallyOk(s, t) && s.req.Some? && s.phase == Preparing && s.term > 0
    ensures TallyOk(OnPrepareRsp(total, s, m).inst, Track(s, t, Deliver(s.term - 1, m)))
  {
    if CountsPromise(s, m) {
      CountPromise(s, t, m.body);
      CountedRsp(total, s, m);
    } else if m.kind == PrepareRsp {
      OtherRsp(total, s, m);
      BumpFollows(t.seen);
    }
  }

  /** What an accept response does to the counters of an attempt that goes on. */
  lemma AcceptRspCounts(total: nat, s: Inst, m: PaxosMsg)
    requires s.Sane() && s.req.Some? && s.phase == Accepting && m.kind == AcceptRsp
    ensures var s' := OnAcceptRsp(total, s, m).inst;
            s'.req.Some? ==> SameAttempt(s, s') && s'.phase == Accepting && s'.rspCount == Bump(s.rspCount)
                             && s'.validCount == if CountsAccept(s, m) then Bump(s.validCount) else s.validCount
  {
  }

  lemma TallyAcceptRsp(total: nat, s: Inst, t: Tally, m: PaxosMsg)
    requires s.Sane() && TallyOk(s, t) && s.req.Some? && s.phase == Accepting && s.term > 0
    ensures TallyOk(OnAcceptRsp(total, s, m).inst, Track(s, t, Deliver(s.term - 1, m)))
  {
    if m.kind == AcceptRsp {
      AcceptRspCounts(total, s, m);
      BumpFollows(t.heard);
      BumpFollows(|t.accepts|);
    }
  }

  lemma TallyStep(total: nat, s: Inst, t: Tally, ev: Event)
    requires s.Sane() && TallyOk(s, t)
    ensures TallyOk(Handle(total, s, ev).inst, Track(s, t, ev))
  {
    if ev.Deliver? && Current(s, ev.term) {
      if s.phase == Preparing {
        TallyPrepareRsp(total, s, t, ev.msg);
      } else if s.phase == Accepting {
        TallyAcceptRsp(total, s, t, ev.msg);
      }
    }
  }

  lemma {:induction false} TallyHolds(total: nat, s0: Inst, evs: seq<Event>)
    requires s0.Sane() && s0.req.None?
    ensures TallyOk(Run(total, s0, evs), TrackRun(total, s0, evs))
  {
    if evs != [] {
      TallyHolds(total, s0, Front(evs));
      TallyStep(total, Run(total, s0, Front(evs)), TrackRun(total, s0, Front(evs)), Last(evs));
    }
  }

  /** A prepare response opens the accept phase exactly when it is counted and makes the proposer ready. */
  lemma OpensWhen(total: nat, s: Inst, m: PaxosMsg)
    requires s.Sane() && s.req.Some? && s.phase == Preparing
    ensures var send := OnPrepareRsp(total, s, m).out.send;
            && (send.Some? <==> CountsPromise(s, m) && Ready(total, Counted(s, m.body)) && m.body.pid > 0)
            && (send.Some? ==>
                  && send.value.kind == AcceptReq
                  && var s1 := Counted(s, m.body);
                     SameProposal(send.value.body, if s1.notified then s1.lastv.value else s1.req.value))
  {
  }

  lemma AcceptRspSends(total: nat, s: Inst, m: PaxosMsg)
    requires s.Sane() && s.req.Some? && s.phase == Accepting
    ensures var send := OnAcceptRsp(total, s, m).out.send;
            && (send.Some? <==> CountsAccept(s, m) && Bump(s.validCount) >= Majority(total))
            && (send.Some? ==> send.value.kind == ChosenReq && Backs(s.req.value, send.value.body))
  {
  }

  /** The accept request sent on `ev` is what the tally entitles the proposer to. */
  ghost predicate Entitled(total: nat, t: Tally, p: Proposal) {
    && t.origin.Some?
    && Majority(total) <= |t.promises|
    && (if HasForeign(t.origin.value, t.promises)
        then total <= t.seen && GreatestForeign(t.origin.value, t.promises, p)
        else SameProposal(p, t.origin.value))
  }

  lemma GreatestSame(origin: Proposal, ps: seq<Proposal>, p: Proposal, q: Proposal)
    requires GreatestForeign(origin, ps, p) && SameProposal(p, q)
    ensures GreatestForeign(origin, ps, q)
  {
    var i :| 0 <= i < |ps| && ForeignTo(origin, ps[i]) && SameProposal(ps[i], p);
    assert SameProposal(ps[i], q);
  }

  lemma AcceptPhaseStep(total: nat, s: Inst, t: Tally, ev: Event)
    requires s.Sane() && TallyOk(s, t) && ev.Deliver?
    ensures var send := Handle(total, s, ev).out.send;
            send.Some? && send.value.kind == AcceptReq ==> Entitled(total, Track(s, t, ev), send.value.body)
  {
    if Current(s, ev.term) && s.phase == Preparing {
      OpensWhen(total, s, ev.msg);
      if CountsPromise(s, ev.msg) {
        CountPromise(s, t, ev.msg.body);
        var send, s1, t1 := OnPrepareRsp(total, s, ev.msg).out.send, Counted(s, ev.msg.body), Track(s, t, ev);
        if send.Some? && s1.notified {
          GreatestSame(t.origin.value, t1.promises, s1.lastv.value, send.value.body);
        }
      }
    } else if Current(s, ev.term) && s.phase == Accepting {
      AcceptRspSends(total, s, ev.msg);
    }
  }

  /**
   * How the accept phase is entered after a prepare, for any arrival order: with a peer's value only when
   * every response is in and no counted foreign value has a greater pid; otherwise with the client's own
   * proposal. Either way a majority of promises has been counted.
   */
  lemma AcceptPhaseValue(total: nat, s0: Inst, evs: seq<Event>, ev: Event)
    requires s0.Sane() && s0.req.None? && ev.Deliver?
    ensures var s := Run(total, s0, evs);
            var send := Handle(total, s, ev).out.send;
            send.Some? && send.value.kind == AcceptReq ==>
              Entitled(total, Track(s, TrackRun(total, s0, evs), ev), send.value.body)
  {
    TallyHolds(total, s0, evs);
    AcceptPhaseStep(total, Run(total, s0, evs), TrackRun(total, s0, evs), ev);
  }

  /** The chosen broadcast is backed by a majority of counted accepts for the attempt's own proposal. */
  ghost predicate Won(total: nat, t: Tally, p: Proposal) {
    && t.origin.Some?
    && Majority(total) <= |t.accepts|
    && (forall i :: 0 <= i < |t.accepts| ==> Backs(t.origin.value, t.accepts[i]))
    && Backs(t.origin.value, p)
  }

  lemma ChosenStep(total: nat, s: Inst, t: Tally, ev: Event)
    requires s.Sane() && TallyOk(s, t)
    ensures var send := Handle(total, s, ev).out.send;
            send.Some? && send.value.kind == ChosenReq ==> Won(total, Track(s, t, ev), send.value.body)
  {
    if ev.Deliver? && Current(s, ev.term) {
      if s.phase == Preparing {
        OpensWhen(total, s, ev.msg);
      } else if s.phase == Accepting {
        AcceptRspSends(total, s, ev.msg);
      }
    }
  }

  /**
   * A chosen broadcast follows a majority of counted accept responses, each carrying the pid and value id
   * of the attempt's own proposal; the broadcast carries them too.
   */
  lemma ChosenNeedsMajority(total: nat, s0: Inst, evs: seq<Event>, ev: Event)
    requires s0.Sane() && s0.req.None?
    ensures var s := Run(total, s0, evs);
            var send := Handle(total, s, ev).out.send;
            send.Some? && send.value.kind == ChosenReq ==>
              Won(total, Track(s, TrackRun(total, s0, evs), ev), send.value.body)
  {
    TallyHolds(total, s0, evs);
    ChosenStep(total, Run(total, s0, evs), TrackRun(total, s0, evs), ev);
  }

  // ---------------------------------------------------------------- what has no effect, and what never falls

  /** How many calls of a run started an attempt. */
  function Attempts(total: nat, s0: Inst, evs: seq<Event>): nat
    requires s0.Sane()
  {
    if evs == [] then 0
    else Attempts(total, s0, Front(evs)) +
         if Last(evs).Propose? && Run(total, s0, Front(evs)).req.None? then 1 else 0
  }

  /** The term counts the attempts, so a response is current only if it answers the latest of them. */
  lemma {:induction false} TermCountsAttempts(total: nat, id: nat, n: nat, vid: nat, evs: seq<Event>)
    requires n > 0
    ensures Run(total, Initial(id, n, vid), evs).term == Attempts(total, Initial(id, n, vid), evs)
  {
    if evs != [] {
      TermCountsAttempts(total, id, n, vid, Front(evs));
      TermStep(total, Run(total, Initial(id, n, vid), Front(evs)), Last(evs));
    }
  }

  lemma TermStep(total: nat, s: Inst, ev: Event)
    requires s.Sane()
    ensures Handle(total, s, ev).inst.term == s.term + if ev.Propose? && s.req.None? then 1 else 0
  {
    if ev.Deliver? && Current(s, ev.term) {
      if s.phase == Preparing {
        PrepareRspSettles(total, s, ev.msg);
      } else if s.phase == Accepting {
        AcceptRspSettles(total, s, ev.msg);
      }
    }
  }

  /** An answer or timeout of an earlier attempt, or of one that is over, or a prepare response in the accept phase. */
  predicate Stale(s: Inst, attempts: nat, ev: Event) {
    || ((ev.Deliver? || ev.Expire?) && (ev.term + 1 != attempts || s.req.None?))
    || (ev.Deliver? && s.phase == Accepting && ev.msg.kind != AcceptRsp)
  }

  /** A run goes on from the state a first part of it has led to. */
  lemma {:induction false} RunSplits(total: nat, s0: Inst, evs: seq<Event>, more: seq<Event>)
    requires s0.Sane()
    ensures Run(total, s0, evs + more) == Run(total, Run(total, s0, evs), more)
    decreases |more|
  {
    if more == [] {
      assert evs + more == evs;
    } else {
      RunSplits(total, s0, evs, Front(more));
      assert Front(evs + more) == evs + Front(more) && Last(evs + more) == Last(more);
    }
  }

  lemma {:induction false} TalliesSplit(total: nat, s0: Inst, evs: seq<Event>, late: seq<Event>, more: seq<Event>)
    requires s0.Sane() && Run(total, s0, evs + late) == Run(total, s0, evs)
    requires TrackRun(total, s0, evs + late) == TrackRun(total, s0, evs)
    ensures Run(total, s0, evs + late + more) == Run(total, s0, evs + more)
    ensures TrackRun(total, s0, evs + late + more) == TrackRun(total, s0, evs + more)
    decreases |more|
  {
    if more == [] {
      assert evs + more == evs && evs + late + more == evs + late;
    } else {
      TalliesSplit(total, s0, evs, late, Front(more));
      assert Front(evs + more) == evs + Front(more) && Last(evs + more) == Last(more);
      assert Front(evs + late + more) == evs + late + Front(more) && Last(evs + late + more) == Last(more);
    }
  }

  /**
   * Only the current attempt counts, over whole runs: with a stale answer or timeout put in anywhere, the
   * proposer ends in the same state and with the same responses counted as without it.
   */
  lemma StaleHasNoEffect(total: nat, id: nat, n: nat, vid: nat, evs: seq<Event>, late: Event, more: seq<Event>)
    requires n > 0
    requires var s0 := Initial(id, n, vid);
             Stale(Run(total, s0, evs), Attempts(total, s0, evs), late)
    ensures var s0 := Initial(id, n, vid);
            && Run(total, s0, evs + [late] + more) == Run(total, s0, evs + more)
            && TrackRun(total, s0, evs + [late] + more) == TrackRun(total, s0, evs + more)
  {
    var s0 := Initial(id, n, vid);
    TermCountsAttempts(total, id, n, vid, evs);
    assert Front(evs + [late]) == evs && Last(evs + [late]) == late;
    TalliesSplit(total, s0, evs, [late], more);
  }

  lemma MarksRise(total: nat, s: Inst, ev: Event)
    requires s.Sane()
    ensures var s' := Handle(total, s, ev).inst;
            s.lastChosen <= s'.lastChosen && s.term <= s'.term && s.nextVid <= s'.nextVid
  {
    TermStep(total, s, ev);
  }

  /** Over whole runs the last chosen entry, the term and the value ids never fall. */
  lemma {:induction false} NeverFalls(total: nat, s0: Inst, evs: seq<Event>, more: seq<Event>)
    requires s0.Sane()
    ensures var s, s' := Run(total, s0, evs), Run(total, s0, evs + more);
            s.lastChosen <= s'.lastChosen && s.term <= s'.term && s.nextVid <= s'.nextVid
    decreases |more|
  {
    if more == [] {
      assert evs + more == evs;
    } else {
      NeverFalls(total, s0, evs, Front(more));
      assert Front(evs + more) == evs + Front(more) && Last(evs + more) == Last(more);
      MarksRise(total, Run(total, s0, evs + Front(more)), Last(more));
    }
  }
}
