/** What a reply lets its receiver conclude about the acceptor, and what a failed write leaves in memory. */
module AcceptorReplies {
  import opened Ptype
  import opened Plog
  import opened AcceptorSpec
  import opened AcceptorRuns

  /** The entry a request meets: the cached one, or what storage holds if it is looked at. */
  function Met(g: Log, e: nat, stored: Option<Entry>): Entry {
    if e in g.entries then g.entries[e]
    else if stored.Some? && (g.maxInUse == NONE || g.maxInUse < e) then stored.value
    else EMPTY
  }

  /** Something is chosen at or past the entry. */
  predicate Overtaken(g: Log, e: nat) {
    g.lastChosen != NONE && e <= g.lastChosen
  }

  /** The same proposal, value included, up to the three fields that every reply stamps. */
  predicate Shows(body: Proposal, p: Proposal) {
    body == p.(status := body.status, lastChosen := body.lastChosen, lastChosenFrom := body.lastChosenFrom)
  }

  /** The same without the value. */
  predicate Names(body: Proposal, p: Proposal) {
    body.data == [] && Shows(body, p.(data := []))
  }

  /** Every reply to a prepare or accept reports the acceptor's last chosen entry, and no member. */
  lemma RepliesReport(g: Log, r: Request, stored: Option<Entry>)
    ensures !r.Choose? ==> Reply(g, r, stored).body.lastChosen == g.lastChosen && Reply(g, r, stored).body.lastChosenFrom == NO_MEMBER
    ensures Reply(g, r, stored).kind == (if r.Prepare? then PrepareRsp else if r.Accept? then AcceptRsp else ChosenRsp)
  {
  }

  /** A prepare or accept for an entry that is overtaken leaves the log alone. */
  lemma OvertakenLeaves(g: Log, r: Request, stored: Option<Entry>)
    requires !r.Choose? && Overtaken(g, r.body.entry)
    ensures LogStep(g, r, stored) == g
  {
  }

  /** A request leaves every other entry alone, and caches its own unless it is refused. */
  lemma OthersStay(g: Log, r: Request, stored: Option<Entry>, d: nat)
    requires d != r.body.entry
    ensures var g' := LogStep(g, r, stored);
            && (d in g'.entries <==> d in g.entries) && g'.At(d) == g.At(d)
            && (r.Choose? || !Overtaken(g, r.body.entry) ==> r.body.entry in g'.entries)
  {
  }

  /**
   * A prepare. It is answered ACCEPTED exactly if the entry holds an accepted proposal, which it then shows
   * with its value; PROMISED with an earlier promise exactly if that is no lower; PROMISED with the request
   * itself exactly if it is a probe or the promise could be saved.
   */
  lemma PrepareConcludes(g: Log, pp: Proposal, saved: bool, stored: Option<Entry>)
    ensures var ent, m := Met(g, pp.entry, stored), Reply(g, Prepare(pp, saved), stored);
            var over, bound := Overtaken(g, pp.entry), ent.promised.Some? && pp.pid <= ent.promised.value.pid;
            && (m.err == REMOTE_NEED_CATCHUP <==> over)
            && (over ==> m.body.status == REMOTE_LAG_BEHIND && Names(m.body, pp))
            && (m.err == OK && m.body.status == ACCEPTED <==> !over && ent.accepted.Some?)
            && (!over && ent.accepted.Some? ==> Shows(m.body, ent.accepted.value))
            && (m.err == OK && m.body.status == PROMISED <==> !over && ent.accepted.None? && (bound || pp.pid == 0 || saved))
            && (!over && ent.accepted.None? && bound ==> Shows(m.body, ent.promised.value))
            && (!over && ent.accepted.None? && !bound && (pp.pid == 0 || saved) ==> Shows(m.body, pp))
            && (m.err == WRITE_PLOG_FAIL && m.body.status == PROMISED_FAILED <==>
                  !over && ent.accepted.None? && !bound && pp.pid > 0 && !saved)
            && (m.err == WRITE_PLOG_FAIL ==> Names(m.body, pp))
  {
  }

  /** A promise is in memory whether or not it could be saved; nothing else about the entry changes by a prepare. */
  lemma PrepareLeaves(g: Log, pp: Proposal, saved: bool, stored: Option<Entry>)
    requires !Overtaken(g, pp.entry)
    ensures var ent := Met(g, pp.entry, stored);
            LogStep(g, Prepare(pp, saved), stored).At(pp.entry) ==
            if ent.accepted.None? && pp.pid > 0 && (ent.promised.None? || ent.promised.value.pid < pp.pid)
            then Entry(Some(pp.(status := PROMISED)), None) else ent
  {
  }

  /** The entry may take the proposal: nothing accepted and no higher promise, or a lower vote that is not chosen. */
  predicate Takes(ent: Entry, pp: Proposal) {
    if ent.accepted.None? then ent.promised.None? || ent.promised.value.pid <= pp.pid
    else ent.accepted.value.status == ACCEPTED && ent.accepted.value.pid < pp.pid
  }

  /** It holds the very vote already, in a status the handler knows. */
  predicate Holds(ent: Entry, pp: Proposal) {
    && ent.accepted.Some? && ent.accepted.value.status in {ACCEPTED, CHOSEN}
    && ent.accepted.value.pid == pp.pid && ent.accepted.value.valueId == pp.valueId
  }

  /**
   * An accept. It is answered ACCEPTED exactly if the vote was taken and saved, or held already, which the
   * code tells apart; every other answer is ACCEPTED_FAILED, with the code saying why, and shows what the
   * entry holds if that is the reason.
   */
  lemma AcceptConcludes(g: Log, pp: Proposal, saved: bool, stored: Option<Entry>)
    ensures var ent, m := Met(g, pp.entry, stored), Reply(g, Accept(pp, saved), stored);
            var over := Overtaken(g, pp.entry);
            && (m.err == REMOTE_NEED_CATCHUP <==> over)
            && (over ==> m.body.status == LOCAL_LAG_BEHIND && Shows(m.body, ZERO))
            && (m.body.status == ACCEPTED && m.err == OK <==> !over && Takes(ent, pp) && saved)
            && (m.body.status == ACCEPTED && m.err == DUPLICATE_PROPOSAL_REQ <==> !over && Holds(ent, pp))
            && (m.body.status == ACCEPTED_FAILED && m.err == WRITE_PLOG_FAIL <==> !over && Takes(ent, pp) && !saved)
            && (m.body.status == ACCEPTED_FAILED && m.err == OK <==>
                  !over && ent.accepted.None? && ent.promised.Some? && pp.pid < ent.promised.value.pid)
            && (m.body.status == ACCEPTED_FAILED && m.err == INVALID_PLOG_DATA <==>
                  !over && ent.accepted.Some? && ent.accepted.value.status !in {ACCEPTED, CHOSEN})
            && (m.body.status == ACCEPTED_FAILED && m.err == INVALID_PROPOSAL_REQ <==>
                  && !over && ent.accepted.Some? && ent.accepted.value.status in {ACCEPTED, CHOSEN}
                  && !Takes(ent, pp) && !Holds(ent, pp))
            && (m.err in {DUPLICATE_PROPOSAL_REQ, INVALID_PROPOSAL_REQ} ==> Names(m.body, ent.accepted.value))
            && (m.err in {OK, WRITE_PLOG_FAIL, INVALID_PLOG_DATA} ==> Names(m.body, pp))
  {
  }

  lemma StepMeets(g: Log, r: Request, stored: Option<Entry>)
    requires !r.Choose? && !Overtaken(g, r.body.entry)
    ensures LogStep(g, r, stored).At(r.body.entry) == EntryStep(Met(g, r.body.entry, stored), r)
  {
  }

  lemma VoteTaken(ent: Entry, pp: Proposal, saved: bool)
    ensures var ent' := EntryStep(ent, Accept(pp, saved));
            && ent'.accepted == (if Takes(ent, pp) then Some(pp.(status := ACCEPTED)) else ent.accepted)
            && ent'.promised == if (Takes(ent, pp) && saved) || Holds(ent, pp) then None else ent.promised
  {
  }

  lemma AnsweredAccepted(g: Log, pp: Proposal, saved: bool, stored: Option<Entry>)
    requires !Overtaken(g, pp.entry)
    ensures var ent := Met(g, pp.entry, stored);
            Reply(g, Accept(pp, saved), stored).body.status == ACCEPTED <==> (Takes(ent, pp) && saved) || Holds(ent, pp)
  {
  }

  /**
   * A vote that is taken is in memory whether or not it could be saved; the promise is given up exactly if
   * the answer is ACCEPTED; an entry that neither takes nor holds the vote stays as it was.
   */
  lemma AcceptLeaves(g: Log, pp: Proposal, saved: bool, stored: Option<Entry>)
    requires !Overtaken(g, pp.entry)
    ensures var ent, ent' := Met(g, pp.entry, stored), LogStep(g, Accept(pp, saved), stored).At(pp.entry);
            && ent'.accepted == (if Takes(ent, pp) then Some(pp.(status := ACCEPTED)) else ent.accepted)
            && ent'.promised == if Reply(g, Accept(pp, saved), stored).body.status == ACCEPTED then None else ent.promised
  {
    StepMeets(g, Accept(pp, saved), stored);
    VoteTaken(Met(g, pp.entry, stored), pp, saved);
    AnsweredAccepted(g, pp, saved, stored);
  }

  /**
   * A chosen request. It is answered CHOSEN or ALREADY_CHOSEN exactly if the entry holds the vote and now
   * marks it or did so before; a mark that could not be saved is taken back.
   */
  lemma ChooseConcludes(g: Log, pp: Proposal, saved: bool, stored: Option<Entry>)
    ensures var ent, m := Met(g, pp.entry, stored), Reply(g, Choose(pp, saved), stored);
            var g' := LogStep(g, Choose(pp, saved), stored);
            var ent' := g'.At(pp.entry);
            var holds := ent.accepted.Some? && ent.accepted.value.pid == pp.pid && ent.accepted.value.valueId == pp.valueId;
            && (m.err == INVALID_PROPOSAL_REQ && m.body.status == INVALID_PROPOSAL <==> !holds)
            && (m.err == OK && m.body.status == ALREADY_CHOSEN <==> holds && ent.Chosen())
            && (m.err == OK && m.body.status == CHOSEN <==> holds && !ent.Chosen() && saved)
            && (m.err == WRITE_PLOG_FAIL && m.body.status == COMMIT_FAILED <==> holds && !ent.Chosen() && !saved)
            && (m.err == WRITE_PLOG_FAIL || (m.err == OK && m.body.status == CHOSEN) ==>
                  m.body.lastChosen == g'.lastChosen && m.body.lastChosenFrom == NO_MEMBER)
            && m.body.data == [] && m.body.pid == pp.pid && m.body.valueId == pp.valueId && m.body.entry == pp.entry
            && m.body.term == pp.term && m.body.opaqueId == pp.opaqueId && m.body.proposer == pp.proposer
            && ent'.promised == ent.promised
            && ent'.accepted == (if !holds || ent.Chosen() then ent.accepted
                                 else Some(ent.accepted.value.(status := if saved then CHOSEN else ACCEPTED)))
  {
  }

  // ---------------------------------------------------------------- the global watermark

  /** What a request tells about the group: a report of a chosen entry past the local one, or a mark it makes. */
  function Learns(n: Node, r: Request): set<nat> {
    if r.Choose? then
      if NodeStep(n, r).log.At(r.body.entry).Chosen() && !n.log.At(r.body.entry).Chosen() then {r.body.entry} else {}
    else if !Overtaken(n.log, r.body.entry) && n.log.lastChosen != NONE && n.log.lastChosen < r.body.lastChosen then
      {r.body.lastChosen}
    else {}
  }

  function Learnt(n: Node, rs: seq<Request>): set<nat>
    decreases |rs|
  {
    if rs == [] then {} else Learns(n, rs[0]) + Learnt(NodeStep(n, rs[0]), rs[1..])
  }

  /** The greatest of a set, or none. */
  ghost predicate Top(x: nat, s: set<nat>) {
    if s == {} then x == NONE else x in s && forall e :: e in s ==> e <= x
  }

  lemma TopRaised(x: nat, s: set<nat>, e: nat)
    requires Top(x, s) && (forall d :: d in s ==> d < NONE) && e < NONE
    ensures Top(Raise(x, e), s + {e})
  {
  }

  lemma LearnsOne(n: Node, r: Request)
    requires Plain(r)
    ensures var x := n.log.globalMax;
            || (Learns(n, r) == {} && NodeStep(n, r).log.globalMax == x)
            || (exists e :: e < NONE && Learns(n, r) == {e} && NodeStep(n, r).log.globalMax == Raise(x, e))
  {
    var e := if r.Choose? then r.body.entry else r.body.lastChosen;
    StepAt(n, r, r.body.entry);
    if Learns(n, r) != {} {
      assert Learns(n, r) == {e} && NodeStep(n, r).log.globalMax == Raise(n.log.globalMax, e);
    }
  }

  lemma {:induction false} GlobalMaxFrom(n: Node, rs: seq<Request>, s: set<nat>)
    requires Top(n.log.globalMax, s) && (forall d :: d in s ==> d < NONE)
    requires forall i :: 0 <= i < |rs| ==> Plain(rs[i])
    ensures Top(NodeRun(n, rs).log.globalMax, s + Learnt(n, rs))
    decreases |rs|
  {
    if rs == [] {
      assert s + {} == s;
    } else {
      var next := NodeStep(n, rs[0]);
      LearnsOne(n, rs[0]);
      if Learns(n, rs[0]) != {} {
        var e :| e < NONE && Learns(n, rs[0]) == {e} && next.log.globalMax == Raise(n.log.globalMax, e);
        TopRaised(n.log.globalMax, s, e);
      } else {
        assert s + {} == s;
      }
      GlobalMaxFrom(next, rs[1..], s + Learns(n, rs[0]));
      assert s + Learns(n, rs[0]) + Learnt(next, rs[1..]) == s + Learnt(n, rs);
    }
  }

  /**
   * The global watermark over every run: the greatest entry that was marked chosen here or reported by a
   * prepare or accept that found the acceptor behind, or none. (While nothing is chosen here, reports are not
   * taken in.)
   */
  lemma GlobalMaxIsGreatest(rs: seq<Request>)
    requires forall i :: 0 <= i < |rs| ==> Plain(rs[i])
    ensures Top(NodeRun(START, rs).log.globalMax, Learnt(START, rs))
  {
    GlobalMaxFrom(START, rs, {});
    assert {} + Learnt(START, rs) == Learnt(START, rs);
  }
}
