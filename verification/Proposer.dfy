/** What a proposer does on each event, for one paxos instance (core/proposer.cpp). */
module ProposerSpec {
  import opened Ptype
  import opened IdGeneration

  const NOBODY: nat := 0xffff_ffff

  datatype Phase = Dormant | Preparing | Accepting

  /** The state of one instance. `notified` is the high bit of the state byte: the client already has its answer. */
  datatype Inst = Inst(
    proposerId: nat,
    lastChosenFrom: nat,
    lastChosen: nat,
    term: nat,
    nextPid: nat,
    step: nat,
    nextVid: nat,
    phase: Phase,
    notified: bool,
    rspCount: nat,
    validCount: nat,
    req: Option<Proposal>,
    lastv: Option<Proposal>)
  {
    /** A peer value has been picked whenever the client was told about one. */
    predicate Sane() {
      && step > 0
      && (req.Some? && phase == Preparing && notified ==> lastv.Some?)
    }
  }

  function Initial(id: nat, proposers: nat, firstVid: nat): Inst {
    Inst(id, NOBODY, 0, 0, id + 1, proposers, firstVid, Dormant, false, 0, 0, None, None)
  }

  /** What an event makes visible: a broadcast, and the codes set on the promise of the current attempt. */
  datatype Out = Out(send: Option<PaxosMsg>, resolved: seq<int>)

  const SILENT: Out := Out(None, [])

  datatype Outcome = Outcome(inst: Inst, out: Out)

  datatype Event =
    | Propose(opaqueId: nat, value: seq<Byte>)
    | Deliver(term: nat, msg: PaxosMsg)
    | Expire(term: nat)
    | Notice(chosen: nat, from: nat, fromPlog: bool)

  function Majority(total: nat): nat {
    total / 2 + 1
  }

  // ---------------------------------------------------------------- starting an attempt

  function Draft(s: Inst, opaqueId: nat, value: seq<Byte>): Proposal {
    Proposal(
      if value == [] then 0 else s.nextPid, s.term, 0, s.lastChosen + 1, s.lastChosen, s.lastChosenFrom % 0x1_0000,
      s.proposerId % 0x1_0000, PREPARED, opaqueId, s.nextVid, value)
  }

  predicate CanSkipPrepare(s: Inst, pp: Proposal) {
    s.lastChosen + 1 == pp.entry && s.lastChosenFrom == s.proposerId && pp.pid == s.proposerId + 1
  }

  /** The proposal as it goes into the accept phase. */
  function Opened(s: Inst, pp: Proposal): Proposal {
    pp.(status := ACCEPTED, lastChosen := s.lastChosen, lastChosenFrom := s.lastChosenFrom % 0x1_0000)
  }

  predicate OnePhase(s: Inst, value: seq<Byte>) {
    s.req.None? && value != [] && CanSkipPrepare(s, Draft(s, 0, value))
  }

  function OnPropose(s: Inst, opaqueId: nat, value: seq<Byte>): Outcome {
    if s.req.Some? then Outcome(s, SILENT)
    else
      var pp := Draft(s, opaqueId, value);
      var s1 := s.(term := s.term + 1, nextVid := s.nextVid + 1,
                   nextPid := if value == [] then s.nextPid else s.nextPid + s.step,
                   notified := false, rspCount := 0, validCount := 0);
      if OnePhase(s, value) then
        Outcome(s1.(phase := Accepting, req := Some(Opened(s, pp))),
                Out(Some(PaxosMsg(AcceptReq, OK, Opened(s, pp))), []))
      else
        Outcome(s1.(phase := Preparing, req := Some(pp)),
                Out(Some(PaxosMsg(PrepareReq, OK, pp.(data := []))), []))
  }

  // ---------------------------------------------------------------- chosen notices

  function UpdateChosen(s: Inst, chosen: nat, from: nat): Inst {
    if chosen == 0 || chosen == NONE || chosen < s.lastChosen then s
    else s.(nextPid := s.proposerId + 1, lastChosen := chosen, lastChosenFrom := from)
  }

  function OnNotice(s: Inst, chosen: nat, from: nat, fromPlog: bool): Inst {
    if fromPlog && s.proposerId != 0 then s else UpdateChosen(s, chosen, from)
  }

  // ---------------------------------------------------------------- responses

  /** Responses are looked at only for the latest attempt, and only while it is open. */
  predicate Current(s: Inst, term: nat) {
    term + 1 == s.term && s.req.Some?
  }

  function Bump(n: nat): nat {
    (n + 1) % 256
  }

  function CopyMeta(req: Proposal, rsp: Proposal): Proposal {
    req.(term := if rsp.term > req.term then rsp.term else req.term, opaqueId := rsp.opaqueId)
  }

  /** The attempt ends here if `done`; the client is answered unless it already was. */
  function Close(s: Inst, done: bool, code: int, early: seq<int>): Outcome {
    if done then Outcome(s.(req := None), Out(None, early + if s.notified then [] else [code]))
    else Outcome(s, Out(None, early))
  }

  function NotQuorum(code: int): int {
    if code < 0 then PREPARE_NOT_QUORUM else code
  }

  /** A prepare response that is counted towards the majority. */
  predicate CountsPromise(s: Inst, m: PaxosMsg) {
    && s.req.Some? && s.phase == Preparing
    && m.kind == PrepareRsp && m.err == OK && m.body.status == PROMISED
    && m.body.pid <= s.req.value.pid
  }

  /** It carries somebody else's value. */
  predicate Foreign(s: Inst, p: Proposal) {
    s.req.Some? && p.valueId != s.req.value.valueId
  }

  /** The state once a promise has been counted; a foreign value replaces a smaller one. */
  function Counted(s: Inst, p: Proposal): Inst
    requires s.req.Some?
  {
    var takes := Foreign(s, p) && (!s.notified || s.lastv.None? || s.lastv.value.pid < p.pid);
    s.(rspCount := Bump(s.rspCount), validCount := Bump(s.validCount), req := Some(CopyMeta(s.req.value, p)),
       notified := s.notified || Foreign(s, p), lastv := if takes then Some(p) else s.lastv)
  }

  /** Enough promises; with a peer value in hand the proposer also waits for everybody. */
  predicate Ready(total: nat, s: Inst) {
    s.validCount >= Majority(total) && (s.notified ==> s.rspCount == total)
  }

  function OnPrepareRsp(total: nat, s: Inst, m: PaxosMsg): Outcome
    requires s.Sane() && s.req.Some? && s.phase == Preparing
  {
    var p, r := m.body, s.req.value;
    var done := Bump(s.rspCount) == total;
    if m.kind != PrepareRsp then Outcome(s, SILENT)
    else if m.err != OK then Close(s.(rspCount := Bump(s.rspCount)), done, NotQuorum(m.err), [])
    else if p.status != PROMISED then Close(s.(rspCount := Bump(s.rspCount)), done, PREPARE_NOT_QUORUM, [])
    else if p.pid > r.pid then
      Close(s.(rspCount := Bump(s.rspCount), req := Some(CopyMeta(r, p)), nextPid := Jump(s.nextPid, s.step, p.pid)),
            done, PREPARE_NOT_QUORUM, [])
    else
      var s1 := Counted(s, p);
      var early := if Foreign(s, p) && !s.notified then [PREPARE_PEER_VALUE] else [];
      if Ready(total, s1) && p.pid > 0 then
        var pick := Opened(s1, if s1.notified then s1.lastv.value else s1.req.value);
        Outcome(s1.(phase := Accepting, rspCount := 0, validCount := 0, lastv := None,
                    req := if s1.notified then s1.req else Some(pick)),
                Out(Some(PaxosMsg(AcceptReq, OK, pick)), early))
      else Close(s1, done || Ready(total, s1), OK, early)
  }

  /** An accept response that is counted towards the majority. */
  predicate CountsAccept(s: Inst, m: PaxosMsg) {
    && s.req.Some? && s.phase == Accepting
    && m.kind == AcceptRsp && m.err == OK && m.body.status == ACCEPTED
    && m.body.pid == s.req.value.pid && m.body.valueId == s.req.value.valueId
  }

  function OnAcceptRsp(total: nat, s: Inst, m: PaxosMsg): Outcome
    requires s.Sane() && s.req.Some? && s.phase == Accepting
  {
    var p, r := m.body, s.req.value;
    var done := Bump(s.rspCount) == total;
    var s1 := s.(rspCount := Bump(s.rspCount));
    if m.kind != AcceptRsp then Outcome(s, SILENT)
    else if m.err != OK then Close(s1, done, m.err, [])
    else if p.status != ACCEPTED then Close(s1, done, PEER_ACCEPT_FAIL, [])
    else
      var s2 := s1.(req := Some(CopyMeta(r, p)));
      if p.pid != r.pid then Close(s2.(nextPid := Jump(s.nextPid, s.step, p.pid)), done, PEER_ACCEPT_REJECTED, [])
      else if p.valueId != r.valueId then Close(s2, done, PEER_ACCEPT_OTHER_VALUE, [])
      else
        var s3 := s2.(validCount := Bump(s.validCount));
        if s3.validCount < Majority(total) then Close(s3, done, OK, [])
        else
          Close(UpdateChosen(s3, p.entry, p.proposer), true, OK, [])
          .(out := Out(Some(PaxosMsg(ChosenReq, OK, p.(data := [], status := CHOSEN))),
                       if s.notified then [] else [OK]))
  }

  function OnExpire(s: Inst): Outcome
    requires s.req.Some?
  {
    Outcome(s.(req := None, lastv := None), Out(None, if s.notified then [] else [TIMEOUT]))
  }

  function Handle(total: nat, s: Inst, ev: Event): (o: Outcome)
    requires s.Sane()
    ensures o.inst.Sane()
  {
    match ev
    case Propose(opaqueId, value) => OnPropose(s, opaqueId, value)
    case Notice(chosen, from, fromPlog) => Outcome(OnNotice(s, chosen, from, fromPlog), SILENT)
    case Expire(term) => if Current(s, term) then OnExpire(s) else Outcome(s, SILENT)
    case Deliver(term, m) =>
      if !Current(s, term) || s.phase == Dormant then Outcome(s, SILENT)
      else if s.phase == Preparing then OnPrepareRsp(total, s, m)
      else OnAcceptRsp(total, s, m)
  }
}

/** The proposer's per-instance state as an object updated in place. */
module ProposerObject {
  import opened Ptype
  import opened IdGeneration
  import opened ProposerSpec

  const PREPARING: bv8 := 21
  const ACCEPTING: bv8 := 23

  class Proposer {
    const total: nat
    const proposerId: nat
    const ig: IdGen
    const vig: IdGen
    var lastChosenFrom: nat
    var lastChosenEntry: nat
    var term: nat
    var state: bv8
    var rspCount: nat
    var validCount: nat
    var req: Option<Proposal>
    var lastv: Option<Proposal>

    ghost predicate Valid()
      reads this, ig, vig
    {
      ig != vig && vig.step == 1 && State().Sane()
    }

    function State(): Inst
      reads this, ig, vig
    {
      var phase := if state & 0x7f == PREPARING then Preparing else if state & 0x7f == ACCEPTING then Accepting else Dormant;
      Inst(proposerId, lastChosenFrom, lastChosenEntry, term, ig.id, ig.step, vig.id, phase, state & 0x80 != 0,
           rspCount, validCount, req, lastv)
    }

    constructor (total: nat, id: nat, proposers: nat, firstVid: nat)
      requires proposers > 0
      ensures Valid() && fresh(ig) && fresh(vig)
      ensures State() == Initial(id, proposers, firstVid) && this.total == total
    {
      this.total, proposerId := total, id;
      lastChosenFrom, lastChosenEntry, term := NOBODY, 0, 0;
      ig := new IdGen(id + 1, proposers);
      vig := new IdGen(firstVid, 1);
      state, rspCount, validCount := 0, 0, 0;
      req, lastv := None, None;
    }

    method AllocPaxosMsg(opaqueId: nat, value: seq<Byte>) returns (pp: Proposal)
      requires Valid()
      modifies this`term, ig`id, vig`id
      ensures Valid() && pp == Draft(old(State()), opaqueId, value)
      ensures State() == old(State()).(term := old(term) + 1, nextVid := old(vig.id) + 1,
                                       nextPid := if value == [] then old(ig.id) else old(ig.id) + ig.step)
    {
      var pid := 0;
      if value != [] {
        pid := ig.GetAndInc();
      }
      var vid := vig.GetAndInc();
      pp := Proposal(pid, term, 0, lastChosenEntry + 1, lastChosenEntry, lastChosenFrom % 0x1_0000, proposerId % 0x1_0000,
                     PREPARED, opaqueId, vid, value);
      term := term + 1;
    }

    method UpdateChosenInfo(chosen: nat, from: nat) returns (updated: bool)
      requires Valid()
      modifies this`lastChosenEntry, this`lastChosenFrom, ig`id
      ensures Valid() && State() == UpdateChosen(old(State()), chosen, from)
      ensures updated <==> chosen !in {0, NONE} && old(lastChosenEntry) <= chosen
    {
      if chosen == 0 || chosen == NONE {
        return false;
      }
      if chosen < lastChosenEntry {
        return false;
      }
      ig.Reset(proposerId + 1);
      lastChosenEntry := chosen;
      lastChosenFrom := from;
      updated := true;
    }

    method OnEntryChosen(chosen: nat, from: nat, fromPlog: bool) returns (code: int)
      requires Valid()
      modifies this`lastChosenEntry, this`lastChosenFrom, ig`id
      ensures Valid() && State() == OnNotice(old(State()), chosen, from, fromPlog)
      ensures code == if fromPlog && proposerId != 0 then -1 else 0
    {
      if fromPlog && proposerId != 0 {
        return -1;
      }
      var _ := UpdateChosenInfo(chosen, from);
      code := 0;
    }

    method ProposeAsync(opaqueId: nat, value: seq<Byte>) returns (send: Option<PaxosMsg>, refused: bool)
      requires Valid()
      modifies this, ig, vig
      ensures Valid() && refused == old(req).Some?
      ensures Outcome(State(), Out(send, [])) == OnPropose(old(State()), opaqueId, value)
    {
      send, refused := None, req.Some?;
      if refused {
        return;
      }
      var skip := lastChosenFrom == proposerId && ig.id == proposerId + 1;
      var pp := AllocPaxosMsg(opaqueId, value);
      rspCount, validCount := 0, 0;
      if value == [] || !skip {
        send := Some(PaxosMsg(PrepareReq, OK, pp.(data := [])));
        state := PREPARING;
      } else {
        pp := pp.(status := ACCEPTED, lastChosen := lastChosenEntry, lastChosenFrom := lastChosenFrom % 0x1_0000);
        send := Some(PaxosMsg(AcceptReq, OK, pp));
        state := ACCEPTING;
      }
      req := Some(pp);
    }

    /** Counts one promise; `firstGot` says that it is the first to bring a peer's value. */
    method CountPromise(p: Proposal) returns (firstGot: bool)
      requires Valid() && req.Some? && State().phase == Preparing
      modifies this`state, this`lastv, this`validCount
      ensures Valid() && firstGot == (Foreign(old(State()), p) && !old(State()).notified)
      ensures var s := old(State());
              State() == s.(validCount := Bump(s.validCount), notified := s.notified || Foreign(s, p),
                            lastv := if Foreign(s, p) && (!s.notified || s.lastv.value.pid < p.pid) then Some(p) else s.lastv)
    {
      firstGot := false;
      if p.valueId != req.value.valueId {
        if state & 0x80 == 0 || lastv.value.pid < p.pid {
          if state & 0x80 == 0 {
            firstGot := true;
            state := state | 0x80;
          }
          lastv := Some(p);
        }
      }
      validCount := (validCount + 1) % 256;
    }

    method HandlePrepareRsp(m: PaxosMsg) returns (out: Out)
      requires Valid() && req.Some? && State().phase == Preparing
      modifies this, ig
      ensures Valid() && Outcome(State(), out) == OnPrepareRsp(total, old(State()), m)
    {
      out := SILENT;
      if m.kind != PrepareRsp {
        return;
      }
      var p, r := m.body, req.value;
      var firstGot := false;
      rspCount := (rspCount + 1) % 256;
      var done, code := rspCount == total, m.err;
      var send: Option<PaxosMsg> := None;
      if m.err != OK {
      } else if p.status != PROMISED {
        code := -2;
      } else {
        req := Some(CopyMeta(r, p));
        if p.pid > r.pid {
          code := -3;
          var _ := ig.SetGreaterThan(p.pid);
        } else {
          firstGot := CountPromise(p);
          var hasLastVote := state & 0x80 != 0;
          var accept := validCount >= total / 2 + 1;
          if hasLastVote && accept {
            accept := done;
          }
          if accept {
            if p.pid > 0 {
              var pick := Opened(State(), if hasLastVote then lastv.value else req.value);
              if !hasLastVote {
                req := Some(pick);
              }
              send := Some(PaxosMsg(AcceptReq, OK, pick));
              lastv := None;
              done := false;
              rspCount, validCount := 0, 0;
              state := ACCEPTING | (state & 0x80);
            } else {
              code, done := OK, true;
            }
          }
        }
      }
      var resolved := if firstGot then [PREPARE_PEER_VALUE] else [];
      if done {
        code := if code < 0 then PREPARE_NOT_QUORUM else code;
        req := None;
        if state & 0x80 == 0 {
          resolved := resolved + [code];
        }
      }
      out := Out(send, resolved);
    }

    method HandleAcceptRsp(m: PaxosMsg) returns (out: Out)
      requires Valid() && req.Some? && State().phase == Accepting
      modifies this, ig
      ensures Valid() && Outcome(State(), out) == OnAcceptRsp(total, old(State()), m)
    {
      out := SILENT;
      if m.kind != AcceptRsp {
        return;
      }
      var p, r := m.body, req.value;
      rspCount := (rspCount + 1) % 256;
      var done, code := rspCount == total, m.err;
      var send: Option<PaxosMsg> := None;
      if m.err != OK {
      } else if p.status != ACCEPTED {
        code := PEER_ACCEPT_FAIL;
      } else {
        req := Some(CopyMeta(r, p));
        if p.pid != r.pid {
          code := PEER_ACCEPT_REJECTED;
          var _ := ig.SetGreaterThan(p.pid);
        } else if p.valueId != r.valueId {
          code := PEER_ACCEPT_OTHER_VALUE;
        } else {
          validCount := (validCount + 1) % 256;
          if validCount >= total / 2 + 1 {
            done := true;
            send := Some(PaxosMsg(ChosenReq, OK, p.(data := [], status := CHOSEN)));
            var _ := UpdateChosenInfo(p.entry, p.proposer);
          }
        }
      }
      var resolved := [];
      if done {
        req := None;
        if state & 0x80 == 0 {
          resolved := [code];
        }
      }
      out := Out(send, resolved);
    }

    /** `msg` is absent when the timer of the attempt fires. */
    method HandleRpcResponse(t: nat, msg: Option<PaxosMsg>) returns (out: Out)
      requires Valid()
      modifies this, ig
      ensures Valid()
      ensures Outcome(State(), out) ==
              Handle(total, old(State()), if msg.Some? then Deliver(t, msg.value) else Expire(t))
    {
      out := SILENT;
      if t + 1 != term || req.None? {
        return;
      }
      if msg.None? {
        req, lastv := None, None;
        if state & 0x80 == 0 {
          out := Out(None, [TIMEOUT]);
        }
      } else if state & 0x7f == PREPARING {
        out := HandlePrepareRsp(msg.value);
      } else if state & 0x7f == ACCEPTING {
        out := HandleAcceptRsp(msg.value);
      }
    }
  }
}
