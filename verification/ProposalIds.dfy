/** The pids a member issues over every sequence of events: on its track, apart from other members, and not twice. */
module ProposalIds {
  import opened Ptype
  import opened Sequences
  import opened IdGeneration
  import opened ProposerSpec
  import opened ProposerRuns

  // ---------------------------------------------------------------- ids issued over a run

  /** A write attempt takes the next id for the entry after the last chosen one. */
  function Issue(s: Inst, ev: Event): seq<(nat, nat)> {
    if ev.Propose? && s.req.None? && ev.value != [] then [(s.lastChosen + 1, s.nextPid)] else []
  }

  function Issued(total: nat, s0: Inst, evs: seq<Event>): seq<(nat, nat)>
    requires s0.Sane()
  {
    if evs == [] then []
    else Issued(total, s0, Front(evs)) + Issue(Run(total, s0, Front(evs)), Last(evs))
  }

  /** The entry this event reports as chosen to the id generator, if any. */
  function Report(total: nat, s: Inst, ev: Event): Option<nat>
    requires s.Sane()
  {
    if ev.Notice? && !(ev.fromPlog && s.proposerId != 0) then Some(ev.chosen)
    else
      var send := if ev.Deliver? then Handle(total, s, ev).out.send else None;
      if send.Some? && send.value.kind == ChosenReq then Some(send.value.body.entry) else None
  }

  /** No event reports again the entry that is already the last chosen one. */
  ghost predicate NoRepeatedReport(total: nat, s0: Inst, evs: seq<Event>)
    requires s0.Sane()
  {
    evs != [] ==>
      && NoRepeatedReport(total, s0, Front(evs))
      && var s := Run(total, s0, Front(evs));
         (Report(total, s, Last(evs)) == Some(s.lastChosen) ==> s.lastChosen in {0, NONE})
  }

  ghost predicate IssuedOk(s: Inst, issued: seq<(nat, nat)>) {
    (forall i :: 0 <= i < |issued| ==> Behind(s, issued[i])) && Distinct(issued)
  }

  predicate Behind(s: Inst, used: (nat, nat)) {
    used.0 <= s.lastChosen || (used.0 == s.lastChosen + 1 && used.1 < s.nextPid)
  }

  lemma BehindPrepareRsp(total: nat, s: Inst, m: PaxosMsg, used: (nat, nat))
    requires s.Sane() && s.req.Some? && s.phase == Preparing && Behind(s, used)
    ensures Behind(OnPrepareRsp(total, s, m).inst, used) && OnPrepareRsp(total, s, m).inst.lastChosen == s.lastChosen
  {
    JumpIsLeast(s.nextPid, s.step, m.body.pid);
  }

  lemma BehindAcceptRsp(total: nat, s: Inst, m: PaxosMsg, used: (nat, nat))
    requires s.Sane() && s.req.Some? && s.phase == Accepting && Behind(s, used)
    requires OnAcceptRsp(total, s, m).out.send.Some? && m.body.entry == s.lastChosen ==> s.lastChosen in {0, NONE}
    ensures Behind(OnAcceptRsp(total, s, m).inst, used)
  {
    JumpIsLeast(s.nextPid, s.step, m.body.pid);
  }

  lemma BehindStep(total: nat, s: Inst, ev: Event, used: (nat, nat))
    requires s.Sane() && Behind(s, used)
    requires Report(total, s, ev) == Some(s.lastChosen) ==> s.lastChosen in {0, NONE}
    ensures Behind(Handle(total, s, ev).inst, used)
  {
    if ev.Deliver? && Current(s, ev.term) {
      if s.phase == Preparing {
        BehindPrepareRsp(total, s, ev.msg, used);
      } else if s.phase == Accepting {
        AcceptRspSends(total, s, ev.msg);
        if OnAcceptRsp(total, s, ev.msg).out.send.Some? {
          AcceptRspReports(total, s, ev.msg);
        }
        BehindAcceptRsp(total, s, ev.msg, used);
      }
    }
  }

  lemma AcceptRspReports(total: nat, s: Inst, m: PaxosMsg)
    requires s.Sane() && s.req.Some? && s.phase == Accepting && OnAcceptRsp(total, s, m).out.send.Some?
    ensures OnAcceptRsp(total, s, m).out.send.value.body.entry == m.body.entry
  {
  }

  lemma IssuedStep(total: nat, s: Inst, ev: Event, issued: seq<(nat, nat)>)
    requires s.Sane() && IssuedOk(s, issued)
    requires Report(total, s, ev) == Some(s.lastChosen) ==> s.lastChosen in {0, NONE}
    ensures IssuedOk(Handle(total, s, ev).inst, issued + Issue(s, ev))
  {
    forall i | 0 <= i < |issued|
      ensures Behind(Handle(total, s, ev).inst, issued[i])
    {
      BehindStep(total, s, ev, issued[i]);
    }
  }

  /** As long as no report repeats the last chosen entry, no (entry, pid) is ever issued twice. */
  lemma {:induction false} NeverReissued(total: nat, id: nat, n: nat, vid: nat, evs: seq<Event>)
    requires n > 0 && NoRepeatedReport(total, Initial(id, n, vid), evs)
    ensures var s0 := Initial(id, n, vid);
            IssuedOk(Run(total, s0, evs), Issued(total, s0, evs))
  {
    if evs != [] {
      NeverReissued(total, id, n, vid, Front(evs));
      var s0 := Initial(id, n, vid);
      IssuedStep(total, Run(total, s0, Front(evs)), Last(evs), Issued(total, s0, Front(evs)));
    }
  }

  // ---------------------------------------------------------------- exactly when a repeated report is harmful

  /** What a report of the last chosen entry does, be it a notice or an own win: the generator starts over. */
  lemma RepeatResets(total: nat, s: Inst, ev: Event)
    requires s.Sane() && s.lastChosen !in {0, NONE} && Report(total, s, ev) == Some(s.lastChosen)
    ensures var s' := Handle(total, s, ev).inst;
            && s'.nextPid == s.proposerId + 1 && s'.lastChosen == s.lastChosen && Issue(s, ev) == []
            && s'.proposerId == s.proposerId && s'.step == s.step && s'.term == s.term
  {
    if ev.Deliver? {
      if s.phase == Preparing {
        OpensWhen(total, s, ev.msg);
      } else {
        WinUpdates(total, s, ev.msg);
      }
    }
  }

  lemma WinUpdates(total: nat, s: Inst, m: PaxosMsg)
    requires s.Sane() && s.req.Some? && s.phase == Accepting && OnAcceptRsp(total, s, m).out.send.Some?
    ensures var o := OnAcceptRsp(total, s, m);
            && o.out.send.value.body.entry == m.body.entry && o.inst.term == s.term && o.inst.step == s.step
            && o.inst.proposerId == s.proposerId
            && (m.body.entry == s.lastChosen && s.lastChosen !in {0, NONE} ==>
                  o.inst.lastChosen == s.lastChosen && o.inst.nextPid == s.proposerId + 1)
  {
  }

  lemma {:induction false} IssuedSplits(total: nat, s0: Inst, evs: seq<Event>, more: seq<Event>)
    requires s0.Sane()
    ensures Issued(total, s0, evs + more) == Issued(total, s0, evs) + Issued(total, Run(total, s0, evs), more)
    decreases |more|
  {
    if more == [] {
      assert evs + more == evs;
    } else {
      IssuedSplits(total, s0, evs, Front(more));
      RunSplits(total, s0, evs, Front(more));
      assert Front(evs + more) == evs + Front(more) && Last(evs + more) == Last(more);
    }
  }

  /** Ids that are all used up stay so while no report is repeated. */
  lemma {:induction false} StaysDistinct(total: nat, s: Inst, issued: seq<(nat, nat)>, more: seq<Event>)
    requires s.Sane() && IssuedOk(s, issued) && NoRepeatedReport(total, s, more)
    ensures IssuedOk(Run(total, s, more), issued + Issued(total, s, more))
    decreases |more|
  {
    if more == [] {
      assert issued + [] == issued;
    } else {
      var mid := Run(total, s, Front(more));
      StaysDistinct(total, s, issued, Front(more));
      IssuedStep(total, mid, Last(more), issued + Issued(total, s, Front(more)));
      assert issued + Issued(total, s, Front(more)) + Issue(mid, Last(more)) == issued + Issued(total, s, more);
    }
  }

  /** What one more event adds to a run: to its state, to the ids issued, to the reports made. */
  lemma Appended(total: nat, s0: Inst, evs: seq<Event>, ev: Event)
    requires s0.Sane()
    ensures Run(total, s0, evs + [ev]) == Handle(total, Run(total, s0, evs), ev).inst
  {
    assert Front(evs + [ev]) == evs && Last(evs + [ev]) == ev;
  }

  lemma IssuedAppends(total: nat, s0: Inst, all: seq<Event>)
    requires s0.Sane() && all != []
    ensures Issued(total, s0, all) == Issued(total, s0, Front(all)) + Issue(Run(total, s0, Front(all)), Last(all))
  {
  }

  lemma NoWriteAppends(total: nat, s0: Inst, evs: seq<Event>, ev: Event)
    requires s0.Sane() && (!ev.Propose? || ev.value == [])
    ensures Issued(total, s0, evs + [ev]) == Issued(total, s0, evs)
  {
    assert Front(evs + [ev]) == evs && Last(evs + [ev]) == ev;
    IssuedAppends(total, s0, evs + [ev]);
  }

  lemma IssueAppends(total: nat, s0: Inst, evs: seq<Event>, ev: Event, s: Inst)
    requires s0.Sane() && Run(total, s0, evs) == s && s.req.None? && ev.Propose? && ev.value != []
    ensures Issued(total, s0, evs + [ev]) == Issued(total, s0, evs) + [(s.lastChosen + 1, s.nextPid)]
  {
    assert Front(evs + [ev]) == evs && Last(evs + [ev]) == ev;
    IssuedAppends(total, s0, evs + [ev]);
    assert Issue(s, ev) == [(s.lastChosen + 1, s.nextPid)];
  }

  lemma ReportAppends(total: nat, s0: Inst, evs: seq<Event>, ev: Event)
    requires s0.Sane() && NoRepeatedReport(total, s0, evs)
    requires var s := Run(total, s0, evs);
             Report(total, s, ev) == Some(s.lastChosen) ==> s.lastChosen in {0, NONE}
    ensures NoRepeatedReport(total, s0, evs + [ev])
  {
    assert Front(evs + [ev]) == evs && Last(evs + [ev]) == ev;
  }

  const ONE_BYTE: seq<Byte> := [7]

  /** A run without a repeated report has led to `s` and issued `issued`. */
  ghost predicate Led(total: nat, s0: Inst, evs: seq<Event>, s: Inst, issued: seq<(nat, nat)>)
    requires s0.Sane()
  {
    Run(total, s0, evs) == s && Issued(total, s0, evs) == issued && NoRepeatedReport(total, s0, evs)
  }

  lemma Leads(total: nat, s0: Inst, evs: seq<Event>, s: Inst, issued: seq<(nat, nat)>, ev: Event)
    requires s0.Sane() && s.Sane() && Led(total, s0, evs, s, issued) && Report(total, s, ev) != Some(s.lastChosen)
    requires !ev.Propose? || ev.value == []
    ensures Led(total, s0, evs + [ev], Handle(total, s, ev).inst, issued)
  {
    Appended(total, s0, evs, ev);
    NoWriteAppends(total, s0, evs, ev);
    ReportAppends(total, s0, evs, ev);
  }

  lemma LeadsToWrite(total: nat, s0: Inst, evs: seq<Event>, s: Inst, issued: seq<(nat, nat)>, ev: Event)
    requires s0.Sane() && s.Sane() && Led(total, s0, evs, s, issued)
    requires s.req.None? && ev.Propose? && ev.value != []
    ensures Led(total, s0, evs + [ev], Handle(total, s, ev).inst, issued + [(s.lastChosen + 1, s.nextPid)])
  {
    Appended(total, s0, evs, ev);
    IssueAppends(total, s0, evs, ev, s);
    ReportAppends(total, s0, evs, ev);
  }

  /** The promise of another member at pid `p`. */
  function Higher(p: nat): PaxosMsg {
    PaxosMsg(PrepareRsp, OK, ZERO.(pid := p, status := PROMISED))
  }

  /** After closing whatever is open, a read probe meets a promise at `p` and times out; then comes a write. */
  function Detour(term: nat, p: nat): seq<Event>
    requires term > 0
  {
    [Expire(term - 1)] + [Propose(0, [])] + [Deliver(term, Higher(p))] + [Expire(term)] + [Propose(0, ONE_BYTE)]
  }

  lemma ExpireCloses(total: nat, s: Inst)
    requires s.Sane() && s.term > 0
    ensures var s' := Handle(total, s, Expire(s.term - 1)).inst;
            && s'.req.None? && s'.term == s.term && s'.nextPid == s.nextPid && s'.step == s.step && s'.lastChosen == s.lastChosen
            && s'.proposerId == s.proposerId && Report(total, s, Expire(s.term - 1)) == None
  {
  }

  lemma ProbeOpens(total: nat, s: Inst)
    requires s.Sane() && s.req.None?
    ensures var s' := Handle(total, s, Propose(0, [])).inst;
            && s'.req.Some? && s'.req.value.pid == 0 && s'.phase == Preparing && s'.term == s.term + 1
            && s'.nextPid == s.nextPid && s'.step == s.step && s'.lastChosen == s.lastChosen
            && s'.proposerId == s.proposerId && Report(total, s, Propose(0, [])) == None
  {
  }

  lemma HigherJumps(total: nat, s: Inst, p: nat)
    requires s.Sane() && s.req.Some? && s.req.value.pid == 0 < p && s.phase == Preparing && s.term > 0
    ensures var ev := Deliver(s.term - 1, Higher(p));
            var s' := Handle(total, s, ev).inst;
            && s'.term == s.term && s'.nextPid == Jump(s.nextPid, s.step, p) && s'.step == s.step && s'.lastChosen == s.lastChosen
            && s'.proposerId == s.proposerId && Report(total, s, ev) == None
  {
  }

  /** The write gets pid `p` if the generator, at or before it, stops there. */
  lemma DetourIssues(total: nat, s: Inst, p: nat)
    requires s.Sane() && s.term > 0 && p > 0 && Jump(s.nextPid, s.step, p) == p
    ensures Issued(total, s, Detour(s.term, p)) == [(s.lastChosen + 1, p)] && NoRepeatedReport(total, s, Detour(s.term, p))
  {
    var t := s.term;
    assert Led(total, s, [], s, []);
    ExpireCloses(total, s);
    Leads(total, s, [], s, [], Expire(t - 1));
    assert [] + [Expire(t - 1)] == [Expire(t - 1)];
    var s1 := Handle(total, s, Expire(t - 1)).inst;
    var s4 := DetourJumps(total, s, [Expire(t - 1)], s1, p);
    LeadsToWrite(total, s, [Expire(t - 1)] + [Propose(0, [])] + [Deliver(t, Higher(p))] + [Expire(t)], s4, [], Propose(0, ONE_BYTE));
    assert [] + [(s.lastChosen + 1, p)] == [(s.lastChosen + 1, p)];
  }

  lemma DetourJumps(total: nat, s0: Inst, evs: seq<Event>, s: Inst, p: nat) returns (s': Inst)
    requires s0.Sane() && s.Sane() && Led(total, s0, evs, s, []) && s.req.None? && p > 0
    ensures s'.Sane() && s'.req.None? && s'.nextPid == Jump(s.nextPid, s.step, p) && s'.lastChosen == s.lastChosen
    ensures s'.proposerId == s.proposerId && s'.step == s.step && s'.term == s.term + 1
    ensures Led(total, s0, evs + [Propose(0, [])] + [Deliver(s.term, Higher(p))] + [Expire(s.term)], s', [])
  {
    var probe, answer, end := Propose(0, []), Deliver(s.term, Higher(p)), Expire(s.term);
    ProbeOpens(total, s);
    Leads(total, s0, evs, s, [], probe);
    var s1 := Handle(total, s, probe).inst;
    HigherJumps(total, s1, p);
    Leads(total, s0, evs + [probe], s1, [], answer);
    var s2 := Handle(total, s1, answer).inst;
    ExpireCloses(total, s2);
    Leads(total, s0, evs + [probe] + [answer], s2, [], end);
    s' := Handle(total, s2, end).inst;
  }

  /** This member has already written to the entry that is open. */
  ghost predicate WroteOpenEntry(total: nat, s0: Inst, evs: seq<Event>)
    requires s0.Sane()
  {
    exists i :: 0 <= i < |Issued(total, s0, evs)| && Issued(total, s0, evs)[i].0 == Run(total, s0, evs).lastChosen + 1
  }

  /** After `again` some continuation without a further repeat makes the run issue an (entry, pid) twice. */
  ghost predicate CanReissue(total: nat, s0: Inst, evs: seq<Event>, again: Event)
    requires s0.Sane()
  {
    exists more :: NoRepeatedReport(total, Run(total, s0, evs + [again]), more)
                   && !Distinct(Issued(total, s0, evs + [again] + more))
  }

  lemma UnusedStaysSafe(total: nat, id: nat, n: nat, vid: nat, evs: seq<Event>, again: Event, more: seq<Event>)
    requires n > 0 && NoRepeatedReport(total, Initial(id, n, vid), evs)
    requires var s := Run(total, Initial(id, n, vid), evs);
             s.lastChosen !in {0, NONE} && Report(total, s, again) == Some(s.lastChosen)
    requires !WroteOpenEntry(total, Initial(id, n, vid), evs)
    requires NoRepeatedReport(total, Run(total, Initial(id, n, vid), evs + [again]), more)
    ensures Distinct(Issued(total, Initial(id, n, vid), evs + [again] + more))
  {
    var s0 := Initial(id, n, vid);
    var s, issued := Run(total, s0, evs), Issued(total, s0, evs);
    NeverReissued(total, id, n, vid, evs);
    Appended(total, s0, evs, again);
    NoWriteAppends(total, s0, evs, again);
    RepeatResets(total, s, again);
    var s' := Run(total, s0, evs + [again]);
    forall i | 0 <= i < |issued|
      ensures Behind(s', issued[i])
    {
      assert Behind(s, issued[i]);
    }
    StaysDistinct(total, s', issued, more);
    IssuedSplits(total, s0, evs + [again], more);
  }

  lemma SharedIsNotDistinct(a: seq<(nat, nat)>, b: seq<(nat, nat)>, i: nat, j: nat)
    requires i < |a| && j < |b| && a[i] == b[j]
    ensures !Distinct(a + b)
  {
    assert (a + b)[i] == (a + b)[|a| + j];
  }

  /** From a reset generator a detour leads to any used id of the open entry. */
  lemma DetourReissues(total: nat, s0: Inst, evs: seq<Event>, s: Inst, i: nat)
    requires s0.Sane() && s.Sane() && i < |Issued(total, s0, evs)| && Run(total, s0, evs) == s && s.term > 0
    requires var (e, p) := Issued(total, s0, evs)[i];
             e == s.lastChosen + 1 && p > 0 && Jump(s.nextPid, s.step, p) == p
    ensures var more := Detour(s.term, Issued(total, s0, evs)[i].1);
            NoRepeatedReport(total, s, more) && !Distinct(Issued(total, s0, evs + more))
  {
    var issued := Issued(total, s0, evs);
    var p := issued[i].1;
    DetourIssues(total, s, p);
    IssuedSplits(total, s0, evs, Detour(s.term, p));
    SharedIsNotDistinct(issued, [(s.lastChosen + 1, p)], i, 0);
  }

  lemma RepeatThenDetour(total: nat, s0: Inst, evs: seq<Event>, again: Event, i: nat)
    requires s0.Sane() && i < |Issued(total, s0, evs)|
    requires var s := Run(total, s0, evs);
             && s.term > 0 && s.lastChosen !in {0, NONE} && Report(total, s, again) == Some(s.lastChosen)
             && Issued(total, s0, evs)[i].0 == s.lastChosen + 1 && Issued(total, s0, evs)[i].1 > 0
             && Jump(s.proposerId + 1, s.step, Issued(total, s0, evs)[i].1) == Issued(total, s0, evs)[i].1
    ensures CanReissue(total, s0, evs, again)
  {
    Appended(total, s0, evs, again);
    NoWriteAppends(total, s0, evs, again);
    RepeatResets(total, Run(total, s0, evs), again);
    DetourReissues(total, s0, evs + [again], Run(total, s0, evs + [again]), i);
  }

  /** A generator stops at every id of its track. */
  lemma JumpStops(start: nat, step: nat, p: nat)
    requires step > 0 && OnTrack(start, step, p)
    ensures Jump(start, step, p) == p >= start
  {
    JumpIsLeast(start, step, p);
    var k: nat :| p == start + k * step;
    assert 0 <= k * step;
  }

  lemma UsedGetsReissued(total: nat, id: nat, n: nat, vid: nat, evs: seq<Event>, again: Event)
    requires n > 0 && WroteOpenEntry(total, Initial(id, n, vid), evs)
    requires var s := Run(total, Initial(id, n, vid), evs);
             s.lastChosen !in {0, NONE} && Report(total, s, again) == Some(s.lastChosen)
    ensures CanReissue(total, Initial(id, n, vid), evs, again)
  {
    var s0 := Initial(id, n, vid);
    var s, issued := Run(total, s0, evs), Issued(total, s0, evs);
    var i :| 0 <= i < |issued| && issued[i].0 == s.lastChosen + 1;
    IssuedOnTrack(total, id, n, vid, evs);
    JumpStops(id + 1, n, issued[i].1);
    IssuedNeedsTerm(total, id, n, vid, evs);
    RepeatThenDetour(total, s0, evs, again, i);
  }

  lemma {:induction false} IssuedNeedsTerm(total: nat, id: nat, n: nat, vid: nat, evs: seq<Event>)
    requires n > 0 && Issued(total, Initial(id, n, vid), evs) != []
    ensures Run(total, Initial(id, n, vid), evs).term > 0
  {
    var s0 := Initial(id, n, vid);
    TermStep(total, Run(total, s0, Front(evs)), Last(evs));
    if Issued(total, s0, Front(evs)) != [] {
      IssuedNeedsTerm(total, id, n, vid, Front(evs));
    }
  }

  /**
   * Exactly when a repeated report is harmful. After any run without one, a report that repeats the last
   * chosen entry, be it a notice or an own win, lets some continuation issue an (entry, pid) twice if and
   * only if this member has already written to the entry after it.
   */
  lemma ReissueIff(total: nat, id: nat, n: nat, vid: nat, evs: seq<Event>, again: Event)
    requires n > 0 && NoRepeatedReport(total, Initial(id, n, vid), evs)
    requires var s := Run(total, Initial(id, n, vid), evs);
             s.lastChosen !in {0, NONE} && Report(total, s, again) == Some(s.lastChosen)
    ensures CanReissue(total, Initial(id, n, vid), evs, again) <==> WroteOpenEntry(total, Initial(id, n, vid), evs)
  {
    if WroteOpenEntry(total, Initial(id, n, vid), evs) {
      UsedGetsReissued(total, id, n, vid, evs, again);
    } else {
      forall more | NoRepeatedReport(total, Run(total, Initial(id, n, vid), evs + [again]), more)
        ensures Distinct(Issued(total, Initial(id, n, vid), evs + [again] + more))
      {
        UnusedStaysSafe(total, id, n, vid, evs, again, more);
      }
    }
  }

  /** Told of entry 1, member 0 probes, learns of a higher pid and gives up, and then writes to entry 2 in vain. */
  const HISTORY: seq<Event> :=
    [Notice(1, 1, false)] + [Propose(0, [])] + [Deliver(0, Higher(2))] + [Expire(0)] + [Propose(0, ONE_BYTE)] + [Expire(1)]

  lemma HistoryRun(s0: Inst) returns (s: Inst)
    requires s0 == Initial(0, 3, 0)
    ensures Led(3, s0, HISTORY, s, [(2, 4)]) && s.Sane()
    ensures s.proposerId == 0 && s.step == 3 && s.term == 2 && s.lastChosen == 1
  {
    var told, call := Notice(1, 1, false), Propose(0, ONE_BYTE);
    assert Led(3, s0, [], s0, []);
    Leads(3, s0, [], s0, [], told);
    assert [] + [told] == [told];
    var s1 := Handle(3, s0, told).inst;
    var evs := [told] + [Propose(0, [])] + [Deliver(0, Higher(2))] + [Expire(0)];
    var s4 := DetourJumps(3, s0, [told], s1, 2);
    assert Jump(1, 3, 2) == 4;
    LeadsToWrite(3, s0, evs, s4, [], call);
    assert [] + [(2, 4)] == [(2, 4)];
    var s5 := Handle(3, s4, call).inst;
    Leads(3, s0, evs + [call], s5, [(2, 4)], Expire(1));
    s := Handle(3, s5, Expire(1)).inst;
    WriteExpires(3, s4);
  }

  lemma WriteExpires(total: nat, s: Inst)
    requires s.Sane() && s.req.None?
    ensures var s1 := Handle(total, s, Propose(0, ONE_BYTE)).inst;
            var s2 := Handle(total, s1, Expire(s.term)).inst;
            && s2.proposerId == s.proposerId && s2.step == s.step && s2.term == s.term + 1 && s2.lastChosen == s.lastChosen
  {
  }

  /** Told of entry 1 once more, the member is led to issue the (entry, pid) it had used. */
  lemma ReissueRun(s0: Inst, again: Event)
    requires s0 == Initial(0, 3, 0) && again == Notice(1, 1, false)
    ensures NoRepeatedReport(3, s0, HISTORY) && Run(3, s0, HISTORY).lastChosen == 1
    ensures Issued(3, s0, HISTORY + [again] + Detour(2, 4)) == [(2, 4), (2, 4)]
  {
    var s := HistoryRun(s0);
    ReissueSteps(s0, HISTORY, s, again, 4);
  }

  lemma ReissueSteps(s0: Inst, evs: seq<Event>, s: Inst, again: Event, p: nat)
    requires s0.Sane() && s.Sane() && Led(3, s0, evs, s, [(2, 4)]) && again == Notice(1, 1, false) && p == 4
    requires s.proposerId == 0 && s.step == 3 && s.term == 2 && s.lastChosen == 1
    ensures Issued(3, s0, evs + [again] + Detour(2, p)) == [(2, 4), (2, 4)]
  {
    Appended(3, s0, evs, again);
    NoWriteAppends(3, s0, evs, again);
    assert Jump(1, 3, p) == 4;
    DetourIssues(3, Run(3, s0, evs + [again]), p);
    IssuedSplits(3, s0, evs + [again], Detour(2, p));
  }

  datatype PidMove = Stays | Advances | Restarts | Jumps(past: nat)

  /** The four ways an event moves the generator. */
  predicate Moved(s: Inst, s': Inst, how: PidMove) {
    && s.step > 0 && s'.proposerId == s.proposerId && s'.step == s.step
    && s'.nextPid == match how
                     case Stays => s.nextPid
                     case Advances => s.nextPid + s.step
                     case Restarts => s.proposerId + 1
                     case Jumps(v) => Jump(s.nextPid, s.step, v)
  }

  lemma PrepareRspMoves(total: nat, s: Inst, m: PaxosMsg)
    requires s.Sane() && s.req.Some? && s.phase == Preparing
    ensures var s' := OnPrepareRsp(total, s, m).inst;
            Moved(s, s', Stays) || Moved(s, s', Jumps(m.body.pid))
  {
  }

  lemma AcceptRspMoves(total: nat, s: Inst, m: PaxosMsg)
    requires s.Sane() && s.req.Some? && s.phase == Accepting
    ensures var s' := OnAcceptRsp(total, s, m).inst;
            Moved(s, s', Stays) || Moved(s, s', Restarts) || Moved(s, s', Jumps(m.body.pid))
  {
  }

  lemma PidMoves(total: nat, s: Inst, ev: Event) returns (how: PidMove)
    requires s.Sane()
    ensures Moved(s, Handle(total, s, ev).inst, how)
  {
    var s' := Handle(total, s, ev).inst;
    if ev.Deliver? {
      if Current(s, ev.term) && s.phase == Preparing {
        PrepareRspMoves(total, s, ev.msg);
      } else if Current(s, ev.term) && s.phase == Accepting {
        AcceptRspMoves(total, s, ev.msg);
      }
      how := if Moved(s, s', Stays) then Stays else if Moved(s, s', Restarts) then Restarts else Jumps(ev.msg.body.pid);
    } else {
      how := if Moved(s, s', Stays) then Stays else if Moved(s, s', Restarts) then Restarts else Advances;
    }
  }

  lemma MovedOnTrack(s: Inst, s': Inst, how: PidMove)
    requires Moved(s, s', how) && OnTrack(s.proposerId + 1, s.step, s.nextPid)
    ensures OnTrack(s'.proposerId + 1, s'.step, s'.nextPid)
  {
    match how {
      case Stays =>
      case Advances => TrackGoesOn(s.proposerId + 1, s.step, s.nextPid);
      case Restarts => TrackStarts(s.proposerId + 1, s.step);
      case Jumps(v) =>
        JumpIsLeast(s.nextPid, s.step, v);
        TrackCompose(s.proposerId + 1, s.step, s.nextPid, s'.nextPid);
    }
  }

  lemma TrackStep(total: nat, s: Inst, ev: Event)
    requires s.Sane() && OnTrack(s.proposerId + 1, s.step, s.nextPid)
    ensures var s' := Handle(total, s, ev).inst;
            s'.proposerId == s.proposerId && s'.step == s.step && OnTrack(s.proposerId + 1, s.step, s'.nextPid)
  {
    var how := PidMoves(total, s, ev);
    MovedOnTrack(s, Handle(total, s, ev).inst, how);
  }

  lemma {:induction false} IssuedOnTrack(total: nat, id: nat, n: nat, vid: nat, evs: seq<Event>)
    requires n > 0
    ensures var s0 := Initial(id, n, vid);
            var s := Run(total, s0, evs);
            && s.proposerId == id && s.step == n && OnTrack(id + 1, n, s.nextPid)
            && (forall i :: 0 <= i < |Issued(total, s0, evs)| ==> OnTrack(id + 1, n, Issued(total, s0, evs)[i].1))
  {
    if evs == [] {
      assert id + 1 == id + 1 + 0 * n;
    } else {
      IssuedOnTrack(total, id, n, vid, Front(evs));
      TrackStep(total, Run(total, Initial(id, n, vid), Front(evs)), Last(evs));
    }
  }

  /** Two members of one group never issue the same pid, whatever happens to either of them. */
  lemma MembersNeverCollide(total: nat, n: nat, a: nat, b: nat, va: nat, vb: nat, ea: seq<Event>, eb: seq<Event>)
    requires a < n && b < n && a != b
    ensures forall i, j :: 0 <= i < |Issued(total, Initial(a, n, va), ea)| && 0 <= j < |Issued(total, Initial(b, n, vb), eb)| ==>
              Issued(total, Initial(a, n, va), ea)[i].1 != Issued(total, Initial(b, n, vb), eb)[j].1
  {
    IssuedOnTrack(total, a, n, va, ea);
    IssuedOnTrack(total, b, n, vb, eb);
    var ia, ib := Issued(total, Initial(a, n, va), ea), Issued(total, Initial(b, n, vb), eb);
    forall i, j | 0 <= i < |ia| && 0 <= j < |ib|
      ensures ia[i].1 != ib[j].1
    {
      if ia[i].1 == ib[j].1 {
        TracksDisjoint(a, b, n, ia[i].1);
      }
    }
  }
}
