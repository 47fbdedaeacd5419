/** What one request does to one log entry, and what the handlers do to the whole log (core/acceptor.cpp). */
module AcceptorSpec {
  import opened Ptype
  import opened Plog

  datatype Request =
    | Prepare(body: Proposal, saved: bool)
    | Accept(body: Proposal, saved: bool)
    | Choose(body: Proposal, saved: bool)

  // ---------------------------------------------------------------- one entry

  predicate SameVote(x: Proposal, y: Proposal) {
    x.pid == y.pid && x.valueId == y.valueId
  }

  predicate Promises(ent: Entry, pp: Proposal) {
    ent.accepted.None? && (ent.promised.None? || ent.promised.value.pid < pp.pid)
  }

  /** An accept request overwrites the accepted proposal, whether or not the save then succeeds. */
  predicate Installs(ent: Entry, pp: Proposal) {
    match ent.accepted
    case Some(x) => x.status == ACCEPTED && !SameVote(x, pp) && x.pid < pp.pid
    case None => ent.promised.None? || ent.promised.value.pid <= pp.pid
  }

  predicate Repeats(ent: Entry, pp: Proposal) {
    ent.accepted.Some? && ent.accepted.value.status in {CHOSEN, ACCEPTED} && SameVote(ent.accepted.value, pp)
  }

  predicate Commits(ent: Entry, pp: Proposal) {
    ent.accepted.Some? && SameVote(ent.accepted.value, pp) && ent.accepted.value.status != CHOSEN
  }

  /** A promise stays in memory even when it cannot be saved; a read probe (pid 0) leaves none. */
  function PrepareEntry(ent: Entry, pp: Proposal): Entry {
    if Promises(ent, pp) && pp.pid > 0 then ent.(promised := Some(pp.(status := PROMISED))) else ent
  }

  function AcceptEntry(ent: Entry, pp: Proposal, saved: bool): Entry {
    if Installs(ent, pp) then
      Entry(if saved then None else ent.promised, Some(pp.(status := ACCEPTED)))
    else if Repeats(ent, pp) then ent.(promised := None)
    else ent
  }

  function ChosenEntry(ent: Entry, pp: Proposal, saved: bool): Entry {
    if Commits(ent, pp) then
      ent.(accepted := Some(ent.accepted.value.(status := if saved then CHOSEN else ACCEPTED)))
    else ent
  }

  function EntryStep(ent: Entry, r: Request): Entry {
    match r
    case Prepare(pp, _) => PrepareEntry(ent, pp)
    case Accept(pp, saved) => AcceptEntry(ent, pp, saved)
    case Choose(pp, saved) => ChosenEntry(ent, pp, saved)
  }

  // ---------------------------------------------------------------- the log

  /** The log already holds a chosen entry at or past the one asked for. */
  predicate Lagging(g: Log, pp: Proposal) {
    g.lastChosen != NONE && g.lastChosen >= pp.entry
  }

  function NoteRemote(g: Log, pp: Proposal): Log {
    if !Lagging(g, pp) && pp.lastChosen > g.lastChosen then g.(globalMax := Raise(g.globalMax, pp.lastChosen)) else g
  }

  predicate Refused(g: Log, r: Request) {
    !r.Choose? && Lagging(g, r.body)
  }

  /** The log after a request; `stored` is what storage holds for the entry when it is first touched. */
  function LogStep(g: Log, r: Request, stored: Option<Entry>): Log {
    if Refused(g, r) then g
    else
      var e := r.body.entry;
      var g1 := Created(if r.Choose? then g else NoteRemote(g, r.body), e, stored);
      var g2 := With(g1, e, EntryStep(g1.entries[e], r));
      if r.Choose? && r.saved && Commits(g1.entries[e], r.body) then MarkedChosen(g2, e) else g2
  }

  /** The entry a request finds when the handler looks it up. */
  function Found(g: Log, r: Request, stored: Option<Entry>): Entry {
    Created(g, r.body.entry, stored).entries[r.body.entry]
  }

  // ---------------------------------------------------------------- replies

  function Stamped(p: Proposal, status: nat, g: Log): Proposal {
    p.(status := status, lastChosen := g.lastChosen, lastChosenFrom := NO_MEMBER)
  }

  function PrepareReply(g: Log, r: Request, stored: Option<Entry>): PaxosMsg
    requires r.Prepare?
  {
    var pp := r.body;
    if Lagging(g, pp) then
      PaxosMsg(PrepareRsp, REMOTE_NEED_CATCHUP, Stamped(pp.(data := []), REMOTE_LAG_BEHIND, g))
    else
      var ent := Found(g, r, stored);
      if ent.accepted.Some? then PaxosMsg(PrepareRsp, OK, Stamped(ent.accepted.value, ACCEPTED, g))
      else if !Promises(ent, pp) then PaxosMsg(PrepareRsp, OK, Stamped(ent.promised.value, PROMISED, g))
      else if pp.pid == 0 || r.saved then PaxosMsg(PrepareRsp, OK, Stamped(pp, PROMISED, g))
      else PaxosMsg(PrepareRsp, WRITE_PLOG_FAIL, Stamped(pp.(data := []), PROMISED_FAILED, g))
  }

  function AcceptReply(g: Log, r: Request, stored: Option<Entry>): PaxosMsg
    requires r.Accept?
  {
    var pp := r.body;
    if Lagging(g, pp) then PaxosMsg(AcceptRsp, REMOTE_NEED_CATCHUP, Stamped(ZERO, LOCAL_LAG_BEHIND, g))
    else
      var ent := Found(g, r, stored);
      if Installs(ent, pp) then
        if r.saved then PaxosMsg(AcceptRsp, OK, Stamped(pp.(data := []), ACCEPTED, g))
        else PaxosMsg(AcceptRsp, WRITE_PLOG_FAIL, Stamped(pp.(data := []), ACCEPTED_FAILED, g))
      else if Repeats(ent, pp) then
        PaxosMsg(AcceptRsp, DUPLICATE_PROPOSAL_REQ, Stamped(ent.accepted.value.(data := []), ACCEPTED, g))
      else if ent.accepted.None? then PaxosMsg(AcceptRsp, OK, Stamped(pp.(data := []), ACCEPTED_FAILED, g))
      else if ent.accepted.value.status !in {CHOSEN, ACCEPTED} then
        PaxosMsg(AcceptRsp, INVALID_PLOG_DATA, Stamped(pp.(data := []), ACCEPTED_FAILED, g))
      else PaxosMsg(AcceptRsp, INVALID_PROPOSAL_REQ, Stamped(ent.accepted.value.(data := []), ACCEPTED_FAILED, g))
  }

  function ChosenReply(g: Log, r: Request, stored: Option<Entry>): PaxosMsg
    requires r.Choose?
  {
    var pp := r.body.(data := []);
    var ent := Found(g, r, stored);
    if ent.accepted.None? || !SameVote(ent.accepted.value, pp) then
      PaxosMsg(ChosenRsp, INVALID_PROPOSAL_REQ, pp.(status := INVALID_PROPOSAL))
    else if ent.accepted.value.status == CHOSEN then PaxosMsg(ChosenRsp, OK, pp.(status := ALREADY_CHOSEN))
    else
      var after := LogStep(g, r, stored);
      PaxosMsg(ChosenRsp, if r.saved then OK else WRITE_PLOG_FAIL,
               Stamped(pp, if r.saved then CHOSEN else COMMIT_FAILED, after))
  }

  function Reply(g: Log, r: Request, stored: Option<Entry>): PaxosMsg {
    match r
    case Prepare(_, _) => PrepareReply(g, r, stored)
    case Accept(_, _) => AcceptReply(g, r, stored)
    case Choose(_, _) => ChosenReply(g, r, stored)
  }
}

/** The acceptor as an object that handles requests in place. */
module AcceptorObject {
  import opened Ptype
  import opened Plog
  import opened EntryManager
  import opened AcceptorSpec

  class Acceptor {
    const pmn: EntryMng

    constructor (pmn: EntryMng)
      ensures this.pmn == pmn
    {
      this.pmn := pmn;
    }

    method CheckLocalAndMayTriggerCatchup(pp: Proposal) returns (err: int)
      modifies pmn`globalMaxChosen
      ensures err == (if Lagging(old(pmn.State()), pp) then REMOTE_NEED_CATCHUP else OK)
      ensures pmn.State() == NoteRemote(old(pmn.State()), pp)
    {
      if pmn.lastChosen != NONE && pmn.lastChosen >= pp.entry {
        return REMOTE_NEED_CATCHUP;
      }
      if pp.lastChosen > pmn.lastChosen {
        pmn.SetGlobalMaxChosenEntry(pp.lastChosen);
      }
      err := OK;
    }

    method HandlePrepareReq(pp: Proposal, stored: Option<Entry>, saved: bool) returns (rsp: PaxosMsg)
      modifies pmn
      ensures pmn.State() == LogStep(old(pmn.State()), Prepare(pp, saved), stored)
      ensures rsp == Reply(old(pmn.State()), Prepare(pp, saved), stored)
    {
      var from, status, err := pp, PROMISED, OK;
      var ret := CheckLocalAndMayTriggerCatchup(pp);
      if ret != OK {
        err, status, from := ret, REMOTE_LAG_BEHIND, pp.(data := []);
      } else {
        pmn.CreateEntry(pp.entry, stored);
        var ent := pmn.entries[pp.entry];
        if ent.accepted.Some? {
          from, status := ent.accepted.value, ACCEPTED;
        } else if ent.promised.Some? && ent.promised.value.pid >= pp.pid {
          from := ent.promised.value;
        } else {
          if pp.pid > 0 {
            ret := pmn.SetPromised(pp.(status := PROMISED), None, saved);
          }
          if ret != OK {
            from, err, status := pp.(data := []), WRITE_PLOG_FAIL, PROMISED_FAILED;
          }
        }
        assert pmn.entries[pp.entry] == PrepareEntry(ent, pp);
      }
      rsp := PaxosMsg(PrepareRsp, err, from.(status := status, lastChosen := pmn.lastChosen, lastChosenFrom := NO_MEMBER));
    }

    /** Writes the accepted proposal and reports whether it could also be saved. */
    method Install(pp: Proposal, saved: bool) returns (accepted: bool, err: int)
      requires pp.entry in pmn.entries
      modifies pmn`entries
      ensures accepted == saved && err == (if saved then OK else WRITE_PLOG_FAIL)
      ensures pmn.State() == With(old(pmn.State()), pp.entry,
                                  old(pmn.entries)[pp.entry].(accepted := Some(pp.(status := ACCEPTED))))
    {
      var ret := pmn.SetAccepted(pp.(status := ACCEPTED), None, saved);
      accepted := ret == OK;
      err := if accepted then OK else WRITE_PLOG_FAIL;
    }

    /** Whether the entry takes the proposal, and what the reply shows if it does not. */
    method Decide(pp: Proposal, saved: bool) returns (accepted: bool, body: Proposal, err: int)
      requires pp.entry in pmn.entries
      modifies pmn`entries
      ensures var ent := old(pmn.entries)[pp.entry];
              && accepted == (Repeats(ent, pp) || (Installs(ent, pp) && saved))
              && pmn.State() == (if Installs(ent, pp) then
                                   With(old(pmn.State()), pp.entry, ent.(accepted := Some(pp.(status := ACCEPTED))))
                                 else old(pmn.State()))
              && (body, err) == (if Installs(ent, pp) then (pp, if saved then OK else WRITE_PLOG_FAIL)
                                 else if Repeats(ent, pp) then (ent.accepted.value, DUPLICATE_PROPOSAL_REQ)
                                 else if ent.accepted.None? then (pp, OK)
                                 else if ent.accepted.value.status !in {CHOSEN, ACCEPTED} then (pp, INVALID_PLOG_DATA)
                                 else (ent.accepted.value, INVALID_PROPOSAL_REQ))
    {
      var ent := pmn.entries[pp.entry];
      accepted, body, err := false, pp, OK;
      if ent.accepted.Some? {
        var x := ent.accepted.value;
        if x.status != CHOSEN && x.status != ACCEPTED {
          err := INVALID_PLOG_DATA;
        } else if x.pid == pp.pid && x.valueId == pp.valueId {
          accepted, body, err := true, x, DUPLICATE_PROPOSAL_REQ;
        } else if x.pid < pp.pid && x.status != CHOSEN {
          accepted, err := Install(pp, saved);
        } else {
          body, err := x, INVALID_PROPOSAL_REQ;
        }
      } else if ent.promised.Some? {
        if ent.promised.value.pid <= pp.pid {
          accepted, err := Install(pp, saved);
        }
      } else {
        accepted, err := Install(pp, saved);
      }
    }

    method HandleAcceptReq(pp: Proposal, stored: Option<Entry>, saved: bool, cleared: bool) returns (rsp: PaxosMsg)
      modifies pmn
      ensures pmn.State() == LogStep(old(pmn.State()), Accept(pp, saved), stored)
      ensures rsp == Reply(old(pmn.State()), Accept(pp, saved), stored)
    {
      var ret := CheckLocalAndMayTriggerCatchup(pp);
      if ret != OK {
        return PaxosMsg(AcceptRsp, ret,
                        ZERO.(status := LOCAL_LAG_BEHIND, lastChosen := pmn.lastChosen, lastChosenFrom := NO_MEMBER));
      }
      pmn.CreateEntry(pp.entry, stored);
      ghost var ent := pmn.entries[pp.entry];
      var accepted, body, err := Decide(pp, saved);
      if accepted {
        var _ := pmn.ClearPromised(pp.entry, None, cleared);
      }
      assert pmn.entries[pp.entry] == AcceptEntry(ent, pp, saved);
      var status := if accepted then ACCEPTED else ACCEPTED_FAILED;
      rsp := PaxosMsg(AcceptRsp, err,
                      body.(data := [], status := status, lastChosen := pmn.lastChosen, lastChosenFrom := NO_MEMBER));
    }

    method HandleChosenReq(pp: Proposal, stored: Option<Entry>, saved: bool) returns (rsp: PaxosMsg)
      modifies pmn
      ensures pmn.State() == LogStep(old(pmn.State()), Choose(pp, saved), stored)
      ensures rsp == Reply(old(pmn.State()), Choose(pp, saved), stored)
    {
      pmn.CreateEntry(pp.entry, stored);
      var ent := pmn.entries[pp.entry];
      var body := pp.(data := []);
      if ent.accepted.None? || ent.accepted.value.pid != pp.pid || ent.accepted.value.valueId != pp.valueId {
        return PaxosMsg(ChosenRsp, INVALID_PROPOSAL_REQ, body.(status := INVALID_PROPOSAL));
      }
      if ent.accepted.value.status == CHOSEN {
        return PaxosMsg(ChosenRsp, OK, body.(status := ALREADY_CHOSEN));
      }
      var err := pmn.SetChosen(pp.entry, None, saved);
      if err != OK {
        pmn.entries := pmn.entries[pp.entry := ent.(accepted := Some(ent.accepted.value.(status := ACCEPTED)))];
      }
      assert pmn.entries[pp.entry] == ChosenEntry(ent, pp, saved);
      rsp := PaxosMsg(ChosenRsp, if err == OK then OK else WRITE_PLOG_FAIL,
                      body.(status := if err == OK then CHOSEN else COMMIT_FAILED,
                            lastChosen := pmn.lastChosen, lastChosenFrom := NO_MEMBER));
    }
  }
}
