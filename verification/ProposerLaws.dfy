/** How events move the pid generator and the last chosen entry, over whole runs. */
module GeneratorLaws {
  import opened Modular
  import opened Ptype
  import opened Sequences
  import opened IdGeneration
  import opened ProposerSpec
  import opened ProposerRuns
  import opened ProposalIds

  /** A valid answer to the attempt at hand that shows another pid: a promise above it, or any other accepted one. */
  predicate ShowsOther(s: Inst, ev: Event) {
    && ev.Deliver? && Current(s, ev.term) && ev.msg.err == OK
    && ((s.phase == Preparing && ev.msg.kind == PrepareRsp && ev.msg.body.status == PROMISED && ev.msg.body.pid > s.req.value.pid)
        || (s.phase == Accepting && ev.msg.kind == AcceptRsp && ev.msg.body.status == ACCEPTED && ev.msg.body.pid != s.req.value.pid))
  }

  /** What the event says about a chosen entry and its proposer: a notice, or the accept that completes a majority. */
  function Says(total: nat, s: Inst, ev: Event): Option<(nat, nat)> {
    if ev.Notice? then if ev.fromPlog && s.proposerId != 0 then None else Some((ev.chosen, ev.from))
    else if ev.Deliver? && Current(s, ev.term) && CountsAccept(s, ev.msg) && Majority(total) <= Bump(s.validCount) then
      Some((ev.msg.body.entry, ev.msg.body.proposer))
    else None
  }

  /** A report that is taken in: about a real entry, and not behind what is known. */
  predicate Informs(total: nat, s: Inst, ev: Event) {
    var told := Says(total, s, ev);
    told.Some? && told.value.0 !in {0, NONE} && s.lastChosen <= told.value.0
  }

  predicate StartsWrite(s: Inst, ev: Event) {
    ev.Propose? && s.req.None? && ev.value != []
  }

  /** The least id on the track of `id`, by whole steps, at or past both `id` and `p`. */
  ghost predicate LeastPast(id: nat, step: nat, p: nat, x: nat) {
    && id <= x && p <= x && OnTrack(id, step, x)
    && forall y :: OnTrack(id, step, y) && p <= y ==> x <= y
  }

  lemma JumpIsLeastPast(id: nat, step: nat, p: nat)
    requires step > 0
    ensures LeastPast(id, step, p, Jump(id, step, p))
  {
    JumpIsLeast(id, step, p);
    forall y | OnTrack(id, step, y) && p <= y
      ensures Jump(id, step, p) <= y
    {
      var k: nat :| y == id + k * step;
    }
  }

  /** What an event leaves of the generator and of what is known to be chosen. */
  predicate Untold(s: Inst, s': Inst) {
    s'.lastChosen == s.lastChosen && s'.lastChosenFrom == s.lastChosenFrom
  }

  predicate Fixed(s: Inst, s': Inst) {
    s'.proposerId == s.proposerId && s'.step == s.step
  }

  lemma PrepareRspGenerator(total: nat, s: Inst, ev: Event)
    requires s.Sane() && ev.Deliver? && Current(s, ev.term) && s.phase == Preparing
    ensures var s' := OnPrepareRsp(total, s, ev.msg).inst;
            && Fixed(s, s') && Untold(s, s')
            && s'.nextPid == if ShowsOther(s, ev) then Jump(s.nextPid, s.step, ev.msg.body.pid) else s.nextPid
  {
  }

  lemma AcceptRspGenerator(total: nat, s: Inst, ev: Event)
    requires s.Sane() && ev.Deliver? && Current(s, ev.term) && s.phase == Accepting
    ensures var s' := OnAcceptRsp(total, s, ev.msg).inst;
            && Fixed(s, s') && (!Informs(total, s, ev) ==> Untold(s, s'))
            && (Informs(total, s, ev) ==> (s'.lastChosen, s'.lastChosenFrom) == Says(total, s, ev).value)
            && s'.nextPid == if Informs(total, s, ev) then s.proposerId + 1
                             else if ShowsOther(s, ev) then Jump(s.nextPid, s.step, ev.msg.body.pid) else s.nextPid
  {
  }

  /** Exactly how one event moves the generator and what is known to be chosen. */
  lemma GeneratorStep(total: nat, s: Inst, ev: Event)
    requires s.Sane()
    ensures var s' := Handle(total, s, ev).inst;
            && Fixed(s, s')
            && (Informs(total, s, ev) ==>
                  s'.nextPid == s.proposerId + 1 && (s'.lastChosen, s'.lastChosenFrom) == Says(total, s, ev).value)
            && (!Informs(total, s, ev) ==> Untold(s, s'))
            && (StartsWrite(s, ev) ==> s'.nextPid == s.nextPid + s.step)
            && (ShowsOther(s, ev) ==> LeastPast(s.nextPid, s.step, ev.msg.body.pid, s'.nextPid))
            && (!Informs(total, s, ev) && !StartsWrite(s, ev) && !ShowsOther(s, ev) ==> s'.nextPid == s.nextPid)
  {
    if ev.Deliver? {
      JumpIsLeastPast(s.nextPid, s.step, ev.msg.body.pid);
      if Current(s, ev.term) && s.phase == Preparing {
        PrepareRspGenerator(total, s, ev);
      } else if Current(s, ev.term) && s.phase == Accepting {
        AcceptRspGenerator(total, s, ev);
      }
    }
  }

  // ---------------------------------------------------------------- a refused attempt moves on

  /** No report is taken in; and, if `still`, no write starts and no other pid is shown either. */
  ghost predicate Undisturbed(total: nat, s: Inst, more: seq<Event>, still: bool)
    requires s.Sane()
  {
    more == [] ||
    (Undisturbed(total, s, Front(more), still) &&
     var m := Run(total, s, Front(more));
     !Informs(total, m, Last(more)) && (still ==> !StartsWrite(m, Last(more)) && !ShowsOther(m, Last(more))))
  }

  lemma {:induction false} StaysPast(total: nat, s: Inst, more: seq<Event>, still: bool)
    requires s.Sane() && Undisturbed(total, s, more, still)
    ensures var s' := Run(total, s, more);
            s.nextPid <= s'.nextPid && (still ==> s'.nextPid == s.nextPid) && s'.lastChosen == s.lastChosen
    decreases |more|
  {
    if more != [] {
      StaysPast(total, s, Front(more), still);
      GeneratorStep(total, Run(total, s, Front(more)), Last(more));
    }
  }

  /** No id of the track is at or past both `p` and `q` and before `x`. */
  ghost predicate NoneLess(start: nat, step: nat, p: nat, q: nat, x: nat) {
    forall y :: OnTrack(start, step, y) && p <= y && q <= y ==> x <= y
  }

  /** On one track, an id at or past another is reached from it. */
  lemma TrackFrom(start: nat, step: nat, x: nat, y: nat)
    requires OnTrack(start, step, x) && OnTrack(start, step, y) && x <= y
    ensures OnTrack(x, step, y)
  {
    var k: nat :| x == start + k * step;
    var l: nat :| y == start + l * step;
    if k <= l {
      var d: nat := l - k;
      MulSplit(k, d, step);
      assert y == x + d * step;
    } else {
      MulSplit(l, k - l, step);
      assert x == y && y == x + 0 * step;
    }
  }

  /** The next write of a run that goes on, and the pid it gets. */
  function WriteAfter(total: nat, s0: Inst, evs: seq<Event>, write: Event): seq<(nat, nat)>
    requires s0.Sane()
  {
    Issued(total, s0, evs + [write])[|Issued(total, s0, evs)|..]
  }

  lemma WriteGets(total: nat, s0: Inst, evs: seq<Event>, write: Event)
    requires s0.Sane() && Run(total, s0, evs).req.None? && write.Propose? && write.value != []
    ensures |Issued(total, s0, evs)| <= |Issued(total, s0, evs + [write])|
    ensures WriteAfter(total, s0, evs, write) == [(Run(total, s0, evs).lastChosen + 1, Run(total, s0, evs).nextPid)]
  {
    IssueAppends(total, s0, evs, write, Run(total, s0, evs));
  }

  /**
   * Once a valid answer to an attempt, write or probe, in either phase, has shown another pid, the next pid
   * issued is on the member's track at or past that pid and the old id, unless a chosen report came in
   * between; and it is the least such, if nothing else moved the generator either.
   */
  lemma RefusedMovesOn(total: nat, id: nat, n: nat, vid: nat, evs: seq<Event>, ev: Event, more: seq<Event>, write: Event,
                       still: bool)
    requires n > 0 && write.Propose? && write.value != []
    requires var s0 := Initial(id, n, vid);
             && ShowsOther(Run(total, s0, evs), ev) && !Informs(total, Run(total, s0, evs), ev)
             && Undisturbed(total, Run(total, s0, evs + [ev]), more, still)
             && Run(total, s0, evs + [ev] + more).req.None?
    ensures var s0 := Initial(id, n, vid);
            var old' := Run(total, s0, evs).nextPid;
            var issued := WriteAfter(total, s0, evs + [ev] + more, write);
            && |issued| == 1 && ev.msg.body.pid <= issued[0].1 && old' <= issued[0].1 && OnTrack(id + 1, n, issued[0].1)
            && (still ==> NoneLess(id + 1, n, ev.msg.body.pid, old', issued[0].1))
  {
    var s0 := Initial(id, n, vid);
    var s, p := Run(total, s0, evs), ev.msg.body.pid;
    var s1, s2 := Run(total, s0, evs + [ev]), Run(total, s0, evs + [ev] + more);
    IssuedOnTrack(total, id, n, vid, evs);
    IssuedOnTrack(total, id, n, vid, evs + [ev] + more);
    Appended(total, s0, evs, ev);
    GeneratorStep(total, s, ev);
    RunSplits(total, s0, evs + [ev], more);
    StaysPast(total, s1, more, still);
    WriteGets(total, s0, evs + [ev] + more, write);
    var start := id + 1;
    forall x | still && OnTrack(start, n, x) && p <= x && s.nextPid <= x
      ensures s2.nextPid <= x
    {
      TrackFrom(start, n, s.nextPid, x);
    }
  }

  // ---------------------------------------------------------------- the last chosen entry

  /** The reports of a run about real entries, in order. */
  function Reports(total: nat, s0: Inst, evs: seq<Event>): seq<(nat, nat)>
    requires s0.Sane()
  {
    if evs == [] then []
    else
      var told := Says(total, Run(total, s0, Front(evs)), Last(evs));
      Reports(total, s0, Front(evs)) + if told.Some? && told.value.0 !in {0, NONE} then [told.value] else []
  }

  /** The greatest entry reported, with the proposer named by the last report of it; nothing if nothing was reported. */
  ghost predicate LatestOfGreatest(reports: seq<(nat, nat)>, e: nat, from: nat) {
    if reports == [] then e == 0 && from == NOBODY
    else exists i :: 0 <= i < |reports| && IsLatest(reports, i, e, from)
  }

  predicate IsLatest(reports: seq<(nat, nat)>, i: nat, e: nat, from: nat)
    requires i < |reports|
  {
    && reports[i] == (e, from)
    && (forall j :: 0 <= j < |reports| ==> reports[j].0 <= e)
    && (forall j :: i < j < |reports| ==> reports[j].0 < e)
  }

  lemma ReportTaken(reports: seq<(nat, nat)>, e: nat, from: nat, r: (nat, nat))
    requires LatestOfGreatest(reports, e, from) && r.0 > 0
    ensures if e <= r.0 then LatestOfGreatest(reports + [r], r.0, r.1) else LatestOfGreatest(reports + [r], e, from)
  {
    var more := reports + [r];
    if e <= r.0 {
      assert forall j :: 0 <= j < |reports| ==> reports[j].0 <= e;
      assert IsLatest(more, |reports|, r.0, r.1);
    } else {
      var i :| 0 <= i < |reports| && IsLatest(reports, i, e, from);
      assert IsLatest(more, i, e, from);
    }
  }

  /** Over every run the last chosen entry is the greatest one reported, and its proposer the one last named for it. */
  lemma {:induction false} LastChosenIsGreatest(total: nat, id: nat, n: nat, vid: nat, evs: seq<Event>)
    requires n > 0
    ensures var s := Run(total, Initial(id, n, vid), evs);
            LatestOfGreatest(Reports(total, Initial(id, n, vid), evs), s.lastChosen, s.lastChosenFrom)
  {
    var s0 := Initial(id, n, vid);
    if evs != [] {
      var s, reports := Run(total, s0, Front(evs)), Reports(total, s0, Front(evs));
      LastChosenIsGreatest(total, id, n, vid, Front(evs));
      GeneratorStep(total, s, Last(evs));
      var told := Says(total, s, Last(evs));
      if told.Some? && told.value.0 !in {0, NONE} {
        ReportTaken(reports, s.lastChosen, s.lastChosenFrom, told.value);
      } else {
        assert reports + [] == reports;
      }
    }
  }
}

/** What a proposer sends, and when. */
module BroadcastLaws {
  import opened Ptype
  import opened Sequences
  import opened ProposerSpec
  import opened ProposerRuns

  lemma IdStep(total: nat, s: Inst, ev: Event)
    requires s.Sane()
    ensures var s' := Handle(total, s, ev).inst;
            s'.nextVid == s.nextVid + (if ev.Propose? && s.req.None? then 1 else 0) && s'.proposerId == s.proposerId
  {
    if ev.Deliver? && Current(s, ev.term) {
      if s.phase == Preparing {
        PrepareRspIds(total, s, ev.msg);
      } else if s.phase == Accepting {
        AcceptRspIds(total, s, ev.msg);
      }
    }
  }

  lemma PrepareRspIds(total: nat, s: Inst, m: PaxosMsg)
    requires s.Sane() && s.req.Some? && s.phase == Preparing
    ensures OnPrepareRsp(total, s, m).inst.nextVid == s.nextVid && OnPrepareRsp(total, s, m).inst.proposerId == s.proposerId
  {
  }

  lemma AcceptRspIds(total: nat, s: Inst, m: PaxosMsg)
    requires s.Sane() && s.req.Some? && s.phase == Accepting
    ensures OnAcceptRsp(total, s, m).inst.nextVid == s.nextVid && OnAcceptRsp(total, s, m).inst.proposerId == s.proposerId
  {
  }

  /** Value ids count the attempts of a member, and its member id never changes. */
  lemma {:induction false} IdsCountAttempts(total: nat, id: nat, n: nat, vid: nat, evs: seq<Event>)
    requires n > 0
    ensures var s := Run(total, Initial(id, n, vid), evs);
            s.nextVid == vid + Attempts(total, Initial(id, n, vid), evs) && s.proposerId == id
  {
    if evs != [] {
      IdsCountAttempts(total, id, n, vid, Front(evs));
      IdStep(total, Run(total, Initial(id, n, vid), Front(evs)), Last(evs));
    }
  }

  /** The accept may be asked for at once: the member proposed the last chosen entry, and its first pid is unused. */
  predicate MaySkip(s: Inst) {
    s.lastChosenFrom == s.proposerId && s.nextPid == s.proposerId + 1
  }

  /**
   * What a call sends, over every run: one request for the entry after the last chosen one, with the client's
   * cookie, its own term and value id, and the next pid, or none for a read probe; as an accept with the value
   * exactly if there is a value and the prepare phase may be skipped, otherwise as a prepare without it. While
   * an attempt is open it sends nothing and changes nothing.
   */
  lemma CallSends(total: nat, id: nat, n: nat, vid: nat, evs: seq<Event>, opaqueId: nat, value: seq<Byte>)
    requires n > 0
    ensures var s0 := Initial(id, n, vid);
            var s := Run(total, s0, evs);
            var o := Handle(total, s, Propose(opaqueId, value));
            && o.out.resolved == []
            && (s.req.Some? ==> o.out.send.None? && o.inst == s)
            && (s.req.None? ==>
                  && o.out.send.Some? && o.out.send.value.err == OK
                  && var m, p := o.out.send.value, o.out.send.value.body;
                     && p.entry == s.lastChosen + 1 && p.lastChosen == s.lastChosen && p.lastChosenFrom == s.lastChosenFrom % 0x1_0000
                     && p.proposer == id % 0x1_0000 && p.opaqueId == opaqueId && p.pinst == 0
                     && p.term == Attempts(total, s0, evs) && p.valueId == vid + Attempts(total, s0, evs)
                     && p.pid == (if value == [] then 0 else s.nextPid)
                     && (m.kind, p.status, p.data) == (if value != [] && MaySkip(s) then (AcceptReq, ACCEPTED, value)
                                                       else (PrepareReq, PREPARED, [])))
  {
    TermCountsAttempts(total, id, n, vid, evs);
    IdsCountAttempts(total, id, n, vid, evs);
  }

  // ---------------------------------------------------------------- opening and announcing

  /** The tally entitles the proposer to open its accept phase with this promise. */
  ghost predicate MayOpen(total: nat, s: Inst, t: Tally, m: PaxosMsg) {
    && CountsPromise(s, m) && m.body.pid > 0 && t.origin.Some?
    && Majority(total) <= |t.promises| % 256
    && (HasForeign(t.origin.value, t.promises) ==> t.seen % 256 == total)
  }

  lemma PromiseCounted(total: nat, s: Inst, t: Tally, m: PaxosMsg)
    requires s.Sane() && TallyOk(s, t) && s.phase == Preparing && CountsPromise(s, m)
    ensures var t' := t.(seen := t.seen + 1, promises := t.promises + [m.body]);
            var s1 := Counted(s, m.body);
            && (Ready(total, s1) <==>
                  Majority(total) <= |t'.promises| % 256 && (HasForeign(t.origin.value, t'.promises) ==> t'.seen % 256 == total))
  {
    CountPromise(s, t, m.body);
  }

  lemma OpensOne(total: nat, s: Inst, t: Tally, t': Tally, ev: Event)
    requires s.Sane() && TallyOk(s, t) && ev.Deliver? && Current(s, ev.term) && s.phase == Preparing && t' == Track(s, t, ev)
    ensures OnPrepareRsp(total, s, ev.msg).out.send.Some? <==> MayOpen(total, s, t', ev.msg)
  {
    OpensWhen(total, s, ev.msg);
    if CountsPromise(s, ev.msg) {
      PromiseCounted(total, s, t, ev.msg);
    }
  }

  /** Which kind of message a response can bring about, by the phase. */
  lemma SendsByPhase(total: nat, s: Inst, ev: Event)
    requires s.Sane() && ev.Deliver?
    ensures var send := Handle(total, s, ev).out.send;
            && (send.Some? && send.value.kind == AcceptReq <==>
                  Current(s, ev.term) && s.phase == Preparing && OnPrepareRsp(total, s, ev.msg).out.send.Some?)
            && (send.Some? && send.value.kind == ChosenReq <==>
                  Current(s, ev.term) && s.phase == Accepting && OnAcceptRsp(total, s, ev.msg).out.send.Some?)
  {
    if Current(s, ev.term) && s.phase == Preparing {
      OpensWhen(total, s, ev.msg);
    } else if Current(s, ev.term) && s.phase == Accepting {
      AcceptRspSends(total, s, ev.msg);
    }
  }

  /**
   * Exactly when the accept phase opens, over every run: on a promise with a pid that completes a majority of
   * counted ones, and is the last response of all if any of them brought a peer's value.
   */
  lemma OpensIff(total: nat, s0: Inst, evs: seq<Event>, ev: Event)
    requires s0.Sane() && s0.req.None? && ev.Deliver?
    ensures var s := Run(total, s0, evs);
            var send := Handle(total, s, ev).out.send;
            send.Some? && send.value.kind == AcceptReq <==>
            Current(s, ev.term) && s.phase == Preparing && MayOpen(total, s, Track(s, TrackRun(total, s0, evs), ev), ev.msg)
  {
    var s, t := Run(total, s0, evs), TrackRun(total, s0, evs);
    TallyHolds(total, s0, evs);
    SendsByPhase(total, s, ev);
    if Current(s, ev.term) && s.phase == Preparing {
      OpensOne(total, s, t, Track(s, t, ev), ev);
    }
  }

  lemma AnnouncesOne(total: nat, s: Inst, t: Tally, t': Tally, ev: Event)
    requires s.Sane() && TallyOk(s, t) && ev.Deliver? && Current(s, ev.term) && s.phase == Accepting && t' == Track(s, t, ev)
    ensures OnAcceptRsp(total, s, ev.msg).out.send.Some? <==>
            CountsAccept(s, ev.msg) && Majority(total) <= |t'.accepts| % 256
  {
    AcceptRspSends(total, s, ev.msg);
    BumpFollows(|t.accepts|);
  }

  /** Exactly when a chosen request is broadcast, over every run: on the accept response that completes a majority. */
  lemma AnnouncesIff(total: nat, s0: Inst, evs: seq<Event>, ev: Event)
    requires s0.Sane() && s0.req.None? && ev.Deliver?
    ensures var s := Run(total, s0, evs);
            var send := Handle(total, s, ev).out.send;
            send.Some? && send.value.kind == ChosenReq <==>
            Current(s, ev.term) && s.phase == Accepting && CountsAccept(s, ev.msg)
            && Majority(total) <= |Track(s, TrackRun(total, s0, evs), ev).accepts| % 256
  {
    var s, t := Run(total, s0, evs), TrackRun(total, s0, evs);
    TallyHolds(total, s0, evs);
    SendsByPhase(total, s, ev);
    if Current(s, ev.term) && s.phase == Accepting {
      AnnouncesOne(total, s, t, Track(s, t, ev), ev);
    }
  }

  /** What the opening and the announcing messages carry beside the proposal. */
  lemma OpeningCarries(total: nat, s: Inst, m: PaxosMsg)
    requires s.Sane() && s.req.Some? && s.phase == Preparing && OnPrepareRsp(total, s, m).out.send.Some?
    ensures var x := OnPrepareRsp(total, s, m).out.send.value;
            && x.err == OK && x.body.status == ACCEPTED && x.body.lastChosen == s.lastChosen
            && x.body.lastChosenFrom == s.lastChosenFrom % 0x1_0000
            && (!s.notified && !Foreign(s, m.body) ==>
                  && x.body.opaqueId == m.body.opaqueId && x.body.proposer == s.req.value.proposer
                  && s.req.value.term <= x.body.term && m.body.term <= x.body.term
                  && x.body.term in {s.req.value.term, m.body.term})
            && (s.notified || Foreign(s, m.body) ==>
                  var keeps := s.notified && s.lastv.Some? && !(Foreign(s, m.body) && s.lastv.value.pid < m.body.pid);
                  Verbatim(x.body, if keeps then s.lastv.value else m.body))
  {
  }

  /** The picked proposal as it came, but for the three fields that opening sets. */
  predicate Verbatim(sent: Proposal, picked: Proposal) {
    sent == picked.(status := sent.status, lastChosen := sent.lastChosen, lastChosenFrom := sent.lastChosenFrom)
  }

  lemma AnnouncementCarries(total: nat, s: Inst, m: PaxosMsg)
    requires s.Sane() && s.req.Some? && s.phase == Accepting && OnAcceptRsp(total, s, m).out.send.Some?
    ensures var x := OnAcceptRsp(total, s, m).out.send.value;
            && x.err == OK && x.body.status == CHOSEN && x.body.data == [] && x.body.entry == m.body.entry
            && x.body.proposer == m.body.proposer && x.body.pid == m.body.pid && x.body.valueId == m.body.valueId
            && x.body.opaqueId == m.body.opaqueId && x.body.term == m.body.term
  {
  }

  /** Every valid answer refreshes the attempt's cookie, and its term if it is behind. */
  lemma AnswersRefresh(total: nat, s: Inst, m: PaxosMsg)
    requires s.Sane() && s.req.Some? && m.err == OK
    ensures s.phase == Preparing && m.kind == PrepareRsp && m.body.status == PROMISED ==>
              var r := OnPrepareRsp(total, s, m).inst.req;
              r.Some? ==> r.value.opaqueId == m.body.opaqueId
                          && s.req.value.term <= r.value.term && m.body.term <= r.value.term
                          && r.value.term in {s.req.value.term, m.body.term}
    ensures s.phase == Accepting && m.kind == AcceptRsp && m.body.status == ACCEPTED ==>
              var r := OnAcceptRsp(total, s, m).inst.req;
              r.Some? ==> r.value.opaqueId == m.body.opaqueId
                          && s.req.value.term <= r.value.term && m.body.term <= r.value.term
                          && r.value.term in {s.req.value.term, m.body.term}
  {
  }
}

/** Which code a client gets. */
module CodeLaws {
  import opened Ptype
  import opened Sequences
  import opened ProposerSpec
  import opened ProposerRuns
  import opened ClientAnswers

  /** An attempt, write or probe, whose client has not been answered. */
  predicate Waits(s: Inst) {
    s.req.Some? && !s.notified
  }

  /** The last response of the phase, by the count of those that came. */
  predicate IsLast(total: nat, s: Inst, ev: Event) {
    && ev.Deliver? && Current(s, ev.term) && Bump(s.rspCount) == total
    && ((s.phase == Preparing && ev.msg.kind == PrepareRsp) || (s.phase == Accepting && ev.msg.kind == AcceptRsp))
  }

  /** It is not counted for anything: an error, a refusal, or another pid or value. */
  predicate Fails(s: Inst, ev: Event) {
    ev.Deliver? && if s.phase == Preparing then !CountsPromise(s, ev.msg) else !CountsAccept(s, ev.msg)
  }

  /** What a failed prepare response says, if it is the last one. */
  function PrepareFailure(m: PaxosMsg): int {
    if m.err > 0 then m.err else PREPARE_NOT_QUORUM
  }

  /** What a failed accept response says. */
  function AcceptFailure(asked: Proposal, m: PaxosMsg): int {
    if m.err != OK then m.err
    else if m.body.status != ACCEPTED then PEER_ACCEPT_FAIL
    else if m.body.pid != asked.pid then PEER_ACCEPT_REJECTED
    else PEER_ACCEPT_OTHER_VALUE
  }

  lemma PrepareCode(total: nat, s: Inst, ev: Event)
    requires s.Sane() && Waits(s) && ev.Deliver? && Current(s, ev.term) && s.phase == Preparing
    ensures var r := OnPrepareRsp(total, s, ev.msg).out.resolved;
            && (CountsPromise(s, ev.msg) && Foreign(s, ev.msg.body) ==> r == [PREPARE_PEER_VALUE])
            && (Fails(s, ev) ==> r == if IsLast(total, s, ev) then [PrepareFailure(ev.msg)] else [])
  {
  }

  lemma AcceptCode(total: nat, s: Inst, ev: Event)
    requires s.Sane() && Waits(s) && ev.Deliver? && Current(s, ev.term) && s.phase == Accepting && Fails(s, ev)
    ensures OnAcceptRsp(total, s, ev.msg).out.resolved ==
            if IsLast(total, s, ev) then [AcceptFailure(s.req.value, ev.msg)] else []
  {
  }

  /**
   * What a waiting client is told besides OK: a timeout exactly when its attempt's timer fires; that a peer
   * has a value exactly when the first counted promise brings one; a failure with the last response of the
   * phase if that one fails, with a code that says how; and nothing for any other failed response, call or notice.
   */
  lemma CodesAre(total: nat, s: Inst, ev: Event)
    requires s.Sane() && Waits(s) && s.phase != Dormant
    ensures var r := Handle(total, s, ev).out.resolved;
            && (ev.Expire? ==> r == if Current(s, ev.term) then [TIMEOUT] else [])
            && (ev.Propose? || ev.Notice? ==> r == [])
            && (ev.Deliver? && !Current(s, ev.term) ==> r == [])
            && (ev.Deliver? && Current(s, ev.term) && s.phase == Preparing ==>
                  && (CountsPromise(s, ev.msg) && Foreign(s, ev.msg.body) ==> r == [PREPARE_PEER_VALUE])
                  && (Fails(s, ev) ==> r == if IsLast(total, s, ev) then [PrepareFailure(ev.msg)] else []))
            && (ev.Deliver? && Current(s, ev.term) && s.phase == Accepting && Fails(s, ev) ==>
                  r == if IsLast(total, s, ev) then [AcceptFailure(s.req.value, ev.msg)] else [])
  {
    if ev.Deliver? && Current(s, ev.term) {
      if s.phase == Preparing {
        PrepareCode(total, s, ev);
      } else if Fails(s, ev) {
        AcceptCode(total, s, ev);
      }
    }
  }

  /** An event that closes an attempt leaves no request open; an open attempt stays open otherwise. */
  lemma TimerCloses(total: nat, s: Inst, ev: Event)
    requires s.Sane() && s.req.Some? && ev.Expire?
    ensures var s' := Handle(total, s, ev).inst;
            if Current(s, ev.term) then s'.req.None? && s'.lastv.None? else s' == s
  {
  }

  lemma PrepareCloses(total: nat, s: Inst, ev: Event)
    requires s.Sane() && s.req.Some? && ev.Deliver? && Current(s, ev.term) && s.phase == Preparing
    ensures var o := OnPrepareRsp(total, s, ev.msg);
            o.inst.req.None? <==>
            o.out.send.None? &&
            (IsLast(total, s, ev) ||
             (CountsPromise(s, ev.msg) && Majority(total) <= Bump(s.validCount) && !s.notified && !Foreign(s, ev.msg.body)))
  {
  }

  lemma AcceptCloses(total: nat, s: Inst, ev: Event)
    requires s.Sane() && s.req.Some? && ev.Deliver? && Current(s, ev.term) && s.phase == Accepting
    ensures var o := OnAcceptRsp(total, s, ev.msg);
            o.inst.req.None? <==>
            IsLast(total, s, ev) || (CountsAccept(s, ev.msg) && Majority(total) <= Bump(s.validCount))
  {
  }

  /**
   * When an open attempt ends, whether or not its client has been told before: by its timer; by the last
   * response of the prepare phase, or the promise that completes a majority for the client's own proposal,
   * unless that opens the accept phase; by the last response of the accept phase or the one that completes a
   * majority there; and by nothing else.
   */
  lemma ClosesIff(total: nat, s: Inst, ev: Event)
    requires s.Sane() && s.req.Some? && s.phase != Dormant
    ensures var o := Handle(total, s, ev);
            o.inst.req.None? <==>
            || (ev.Expire? && Current(s, ev.term))
            || (ev.Deliver? && Current(s, ev.term) && s.phase == Preparing && o.out.send.None? &&
                (IsLast(total, s, ev) ||
                 (CountsPromise(s, ev.msg) && Majority(total) <= Bump(s.validCount) && !s.notified && !Foreign(s, ev.msg.body))))
            || (ev.Deliver? && Current(s, ev.term) && s.phase == Accepting &&
                (IsLast(total, s, ev) || (CountsAccept(s, ev.msg) && Majority(total) <= Bump(s.validCount))))
  {
    if ev.Deliver? && Current(s, ev.term) {
      if s.phase == Preparing {
        PrepareCloses(total, s, ev);
      } else {
        AcceptCloses(total, s, ev);
      }
    }
  }

  lemma ProbeRsp(total: nat, s: Inst, m: PaxosMsg)
    requires s.Sane() && Waits(s) && s.req.value.pid == 0 && s.phase == Preparing
    ensures var o := OnPrepareRsp(total, s, m).out;
            && o.send.None?
            && (OK in o.resolved <==>
                  CountsPromise(s, m) && !Foreign(s, m.body) &&
                  (Majority(total) <= Bump(s.validCount) || Bump(s.rspCount) == total))
  {
  }

  /**
   * A read probe, over every run: a response never makes it send anything, and its client is told OK exactly
   * when a majority of promises has been counted without any peer value, or the last response is one of them.
   */
  lemma ProbeOkIff(total: nat, s0: Inst, evs: seq<Event>, ev: Event)
    requires s0.Sane() && s0.req.None? && ev.Deliver?
    requires var s := Run(total, s0, evs); Waits(s) && s.req.value.pid == 0 && s.phase == Preparing && Current(s, ev.term)
    ensures var s := Run(total, s0, evs);
            var t' := Track(s, TrackRun(total, s0, evs), ev);
            && !SendsSomething(total, s, ev)
            && (SaysOk(total, s, ev) <==>
                  CountsOwn(s, ev) && (Majority(total) <= |t'.promises| % 256 || t'.seen % 256 == total))
  {
    var s, t := Run(total, s0, evs), TrackRun(total, s0, evs);
    TallyHolds(total, s0, evs);
    ProbeRsp(total, s, ev.msg);
    if CountsOwn(s, ev) {
      CountersFollow(s, t, ev);
    }
  }
}
