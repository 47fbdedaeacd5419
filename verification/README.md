# Verified model of quarrel

quarrel is a multi-Paxos library. This project models its acceptor and proposer, the log manager with
recovery and the byte layout of stored entries, the lock-free ring queue, the LRU map, the generation of
proposal ids and the timing wheel, and proves what they promise. Objects that the source changes in place
are classes (`Acceptor`, `EntryMng`, `Proposer`, `IdGen`, `Group`, `LruMap`, `StoredEntry`, `TimingWheel`);
each method is proved against a function of the old state, and the theorems are about those functions over
whole runs.

Check it with `dafny verify dfyconfig.toml`.

| file | content |
|---|---|
| `Ptype.dfy`, `Plog.dfy` | records and codes; log entries, watermarks, `EntryMng` and batched recovery |
| `Acceptor.dfy`, `AcceptorReplies.dfy`, `AcceptorRuns.dfy`, `SystemWatermarks.dfy` | request handlers; what each reply means; ballot floor and watermarks over all runs of one acceptor, and of the system |
| `Restart.dfy` | first touch of stored entries, runs from an empty cache, recovery of written entries |
| `Proposer.dfy`, `ProposerRuns.dfy`, `ProposerLaws.dfy`, `ClientAnswers.dfy`, `ProposalIds.dfy` | proposer events; what is sent and told, and how the generator moves; one answer per attempt and when OK is true, vote counting, last-vote selection; the pids issued |
| `Consensus.dfy`, `ConsensusProof.dfy`, `Agreement.dfy` | the composed system, its inductive invariant, agreement |
| `ValueAgreement.dfy` | chosen marks agree on the value, and it is a client's |
| `Skippers.dfy`, `SkipperMarks.dfy` | the proviso of agreement is exact, for votes, marks and values |
| `RingQueue.dfy`, `RingQueueProof.dfy`, `RingQueueConservation.dfy`, `RingQueueFifo.dfy`, `RingQueueEmpty.dfy`, `RingQueueAnswers.dfy` | the queue as interleaved atomic steps; when "empty" is true; when calls end |
| `Codec.dfy` | stored entries as bytes, and what reloading does |
| `LruMap.dfy` | recency sequences, inclusion across capacities, list plus index |
| `Sequences.dfy`, `Modular.dfy`, `IdGen.dfy`, `PaxosGroup.dfy` | ends of runs, residues, id tracks, member tables |
| `TimingWheel.dfy` | slots against due turns and clock time |

## Main results

* Agreement (`Agreement.AgreementHolds`). The protocol is not textbook Paxos: a prepare that meets an
  accepted value records no promise and is answered `ACCEPTED`, which the proposer does not count. The
  invariant says that an accept is only ever asked for with the least pid or when a majority is barred
  below it, and that every counted answer is testimony of its acceptor. It does not rest on pids being
  unique.
* Its proviso is exact (`Skippers.AgreementIff`). `canSkipPrepare` (core/proposer.cpp:190-192) lets every
  member that proposed the last chosen entry skip the prepare phase, with pid 2 or more for members other
  than 0. Its comment (lines 163-171) argues for the master only. A member other than 0 that skips can
  replace, through the renew branch, a proposal a majority accepted; in groups of three or more two acceptors
  then mark different values chosen (`SkipperMarks.MarksAgreeIff`). The comment at line 181 also says that
  the last proposer starts as 0, where the code uses ~0.
* Waiting for all acceptors (`ProposerRuns.AcceptPhaseValue`). The comment at core/proposer.cpp:441-448
  says the implementation does not wait for everybody before it takes a peer value; the code at lines
  490-494 does, and the model follows the code.
* Agreement on values (`ValueAgreement.ValueAgreementHolds`). A vote is a pid and a value id; a pid issued
  twice lets a peer pick go out under an old vote without its value. No such vote is ever announced as
  chosen, so all chosen marks of an entry carry the same bytes, those of a client's call.
* Equal chosen reports (`ProposalIds.ReissueIff`). A report of the entry that is already the last chosen one
  resets the pid generator. It can lead to an (entry, pid) being issued twice exactly if the member has
  already written to the entry after it.
* Reloading (`Codec.ReencodeIff`, `Reload.FrozenIff`). Decoding always fills both places, with the dummy
  where nothing was stored, so writing a reloaded entry again drops its promise, and a reloaded entry
  without an accepted proposal is never again changed by a prepare or an accept.
* Restart (`Restart.LoadedIff`, `Restart.OutOfOrderForgets`). `CreateEntry` (core/plog.cpp:233-249) loads a
  stored entry only when it is beyond everything in use. After a restart nothing saved is forgotten as long
  as entries are first asked for in ascending order (`Restart.RestartKeeps`); an entry first asked for after
  a later one loses its promise and its vote.
* Malformed entries (`Codec.OutOfBoundsIff`). Decoding reads the two size fields before it compares them
  with the length, without checking that they lie inside the buffer, and adds them in 32 bits. So a buffer
  that names its own length is read past its end if it has no room for a size field, or if the sum wraps to
  the right number.
* OK without a value (`ClientAnswers.OkIff`, `ClientAnswers.TrustworthyIff`). When the last response of a
  phase is counted for the client's proposal but too few were, its zero code is passed on and the client is
  told OK with nothing announced, in the prepare phase (core/proposer.cpp:523-548) as in the accept phase
  (lines 640-645). An OK that comes with a chosen broadcast is true (`ClientTruth.OkIsElected`).
* "Empty" with several consumers (`RingQueueEmpty.EmptyAtReadIff`, `RingQueueEmpty.EmptyDuringCallIff`).
  RT_EMPTY is exact with any number of producers and one consumer; with two consumers and two slots it can
  be returned although the queue was never empty during the call.
* Timers (`WheelRuns.OnTimeIff`). A timeout of a whole wheel or more fires early; for the proposer's own
  setting that begins at an operation timeout of 1002 ms.

## Model

| member | source | states |
|---|---|---|
| `AcceptorObject.Acceptor.CheckLocalAndMayTriggerCatchup` | core/acceptor.cpp:126-147 | refuses exactly the requests for entries at or below the last chosen one; otherwise only the global watermark moves, and only up to what the remote reports |
| `AcceptorObject.Acceptor.HandlePrepareReq` | core/acceptor.cpp:149-220 | log and reply after a prepare, for every branch: lagging, already accepted (no promise), outpromised, read probe, promise saved or not |
| `AcceptorObject.Acceptor.Decide` | core/acceptor.cpp:250-332 | which accept requests overwrite, repeat or are refused, what is then in memory whether or not the save succeeds, and which proposal and code the reply shows |
| `AcceptorObject.Acceptor.HandleAcceptReq` | core/acceptor.cpp:222-351 | log and reply after an accept, including clearing the promise only when the answer is ACCEPTED |
| `AcceptorObject.Acceptor.HandleChosenReq` | core/acceptor.cpp:353-399 | log and reply after a chosen request; a failed save puts the status back to ACCEPTED and moves no watermark |
| `AcceptorRuns.EntryStepKeeps` | core/acceptor.cpp:171-348 | one request on one entry: promised pid <= accepted pid is kept, the ballot floor does not fall, accepted and chosen stay, only an install at a strictly higher pid changes the vote |
| `AcceptorRuns.NewVoteIsHigher` | core/acceptor.cpp:250-317 | a vote that is cast is above every vote the acceptor ever cast for that entry, failed saves included |
| `AcceptorRuns.BallotFloor` | core/acceptor.cpp:149-399 | over every sequence of requests and save failures: the floor of every entry never falls, nothing below it is accepted, accepted never returns to none, a chosen proposal never changes, one pid never gets two value ids |
| `AcceptorRuns.WatermarksOverRuns` | core/plog.cpp:135-154 | over every run of requests that do not report the ~0 sentinel: last_chosen is none or exactly the greatest chosen entry, last_chosen <= global max, every entry <= max in use, and none of the three falls |
| `AcceptorRuns.GlobalMaxFallsIff` | core/acceptor.cpp:126-147 | the sentinel proviso is exact: a request makes the global watermark fall if and only if it is a prepare or accept past the last chosen entry that reports ~0 after something was chosen |
| `SystemWatermarks.WatermarksHold` | core/plog.cpp:135-154 | at every acceptor in every run of the whole system in which entry ids stay below ~0: last_chosen is none or exactly the greatest chosen entry, the three watermarks are ordered, and none falls; no condition on what is reported is needed |
| `SystemWatermarks.SentModest` | core/proposer.cpp:113-118 | whatever a proposer sends is about its next entry at most and reports no more than its own last chosen entry, so never the sentinel |
| `AcceptorReplies.RepliesReport` | core/acceptor.cpp:149-399 | every reply to a prepare or accept reports the acceptor's own last chosen entry and names no member |
| `AcceptorReplies.OthersStay` | core/acceptor.cpp:149-399 | a request leaves every other entry alone and caches its own unless it is refused |
| `AcceptorReplies.OvertakenLeaves` | core/acceptor.cpp:126-147 | a prepare or accept for an overtaken entry leaves the log alone |
| `AcceptorReplies.PrepareConcludes` | core/acceptor.cpp:149-220 | what a prepare's receiver may conclude, both ways: refused iff overtaken; ACCEPTED iff the entry holds an accepted proposal, shown with its value; PROMISED with an earlier promise iff that is no lower, with the request itself iff it is a probe or the promise was saved; PROMISED_FAILED otherwise |
| `AcceptorReplies.PrepareLeaves` | core/acceptor.cpp:180-204 | the entry after a prepare: the new promise in memory, saved or not, exactly when nothing is accepted and no promise is as high; otherwise untouched |
| `AcceptorReplies.AcceptConcludes` | core/acceptor.cpp:222-351 | what an accept's receiver may conclude, both ways: each pair of status and code is given exactly for one condition on the entry and the save, and shows what the entry holds if that is the reason |
| `AcceptorReplies.AcceptLeaves` | core/acceptor.cpp:250-348 | the entry after an accept: the vote is in memory exactly when it may be taken, saved or not; the promise goes exactly when the answer is ACCEPTED |
| `AcceptorReplies.ChooseConcludes` | core/acceptor.cpp:353-399 | each answer to a chosen request is given exactly for one condition; the mark is made, kept or taken back accordingly, and the promise stays |
| `AcceptorReplies.GlobalMaxIsGreatest` | core/acceptor.cpp:126-147 | over every run the global watermark is the greatest entry marked chosen here or reported past the local last chosen one, and none if there is none; while nothing is chosen here no report is taken in |
| `Restart.LoadedIff` | core/plog.cpp:233-249 | for an uncached entry, every request that is not refused is answered and leaves the log as if the cache had held the stored entry, if and only if nothing is in use, or the entry is beyond everything in use, or storage holds nothing or an empty entry |
| `Restart.ForgottenBelow` | core/plog.cpp:233-249 | an uncached entry at or below what is in use is treated as empty, whatever storage holds |
| `Restart.FetchedIs` | core/plog.cpp:210-220 | the setters work on the cached entry or else the stored one; other entries and the watermarks are not touched by looking it up |
| `Restart.RestartKeeps` | core/acceptor.cpp:149-399 | over every run from an empty cache and any storage in which entries are asked for first in ascending order: floor, accepted vote and chosen proposal of every entry asked for only advance from what was saved |
| `Restart.RestartAnswers` | core/acceptor.cpp:171-178 | at the end of such a run a prepare of an entry with a saved vote is refused or answered ACCEPTED with an accepted proposal of no lower pid |
| `Restart.OutOfOrderForgets` | core/plog.cpp:241-246 | an entry accepted at pid 3 before a restart: asked for first, the vote is shown; after a touch of a later entry a prepare at pid 1 is promised |
| `EntryManager.EntryMng.CreateEntry` | core/plog.cpp:233-249 | an uncached entry is created empty, and filled from storage only when it is beyond everything in use |
| `EntryManager.EntryMng.GetEntry` | core/plog.cpp:210-220 | an uncached entry is fetched from storage and cached; it is missing only if storage has none |
| `EntryManager.EntryMng.SetPromised` | core/plog.cpp:179-189 | the entry is fetched from storage if need be; then the promise is in memory whether or not it could be saved; entries found nowhere are an error and change nothing |
| `EntryManager.EntryMng.ClearPromised` | core/plog.cpp:191-198 | the same for clearing: the promise is gone from memory whether or not that could be saved |
| `EntryManager.EntryMng.SetAccepted` | core/plog.cpp:200-208 | the same for accepting: the accepted proposal is in memory whether or not it could be saved; promise and watermarks are untouched |
| `EntryManager.EntryMng.SetChosen` | core/plog.cpp:135-154 | the three failures and the success; both watermarks are raised only after a successful save |
| `EntryManager.EntryMng.SetGlobalMaxChosenEntry` | core/plog.cpp:251-258 | the global watermark is raised, never lowered, and ~0 counts as none |
| `EntryManager.SummaryUnique` | core/plog.cpp:77-103 | the five watermarks are determined by the set of stored entries alone, so any two batchings agree |
| `EntryManager.VisitSummary` | core/plog.cpp:77-103 | visiting one later entry turns the summary of a set into the summary of the set with that entry |
| `EntryManager.BatchSummary` | core/plog.cpp:67-104 | visiting a contiguous batch extends the summary to every stored entry up to its end |
| `EntryManager.BatchProgress` | core/plog.cpp:98-100 | a non-empty batch leaves strictly fewer stored entries to read, which is why recovery terminates |
| `EntryManager.EntryMng.RecoverRange` | core/plog.cpp:63-111 | for every stored log and every batching: terminates, and the watermarks are max chosen, end of the unbroken chosen run, min unchosen, min and max stored id of exactly the entries read; all below the end bound are read unless a load fails |
| `EntryManager.EntryMng.LoadAllFromDisk` | core/plog.cpp:113-133 | the same from the initial watermarks that start after the last committed entry; nothing changes when the meta record cannot be loaded |
| `RecoveredLog.StatusSurvives` | core/plog.h:42-46 | the status recovery looks at is the accepted proposal's if there is one; after writing and reading back it is CHOSEN exactly if the accepted proposal was |
| `RecoveredLog.RecoveredMarks` | core/plog.cpp:77-133 | for every log written, encoded and decoded: last chosen is the greatest entry whose accepted proposal was chosen or 0, max continue the end of the unbroken run of those, first unchosen the least without, first valid and max in use the least and greatest written |
| `ConsensusProof.PromiseBars` | core/acceptor.cpp:171-204 | a promise answer means that this acceptor has cast and will cast no vote below the asked pid |
| `ConsensusProof.AcceptAnswer` | core/acceptor.cpp:250-348 | an OK/ACCEPTED answer means that the vote for the requested proposal was cast |
| `ConsensusProof.CountedPromise` | core/proposer.cpp:398-436 | every prepare response a proposer counts comes from a fresh acceptor of the current broadcast that is barred below the attempt's pid; a foreign one has the attempt's own entry and pid |
| `ConsensusProof.CountedAccept` | core/proposer.cpp:577-622 | every accept response a proposer counts comes from a fresh acceptor of the current broadcast that voted for the attempt's proposal |
| `ConsensusProof.ServeKeeps` | core/acceptor.cpp:149-399 | the system invariant survives any acceptor handling any request in flight, with the write saved or not |
| `ConsensusProof.TurnKeeps` | core/proposer.cpp:197-648 | the system invariant survives any proposer handling any call, answer, timeout or notice, whoever skips the prepare phase |
| `ConsensusProof.ServeGuarded` | core/acceptor.cpp:250-332 | votes stay guarded: serving a request casts at most the vote that was asked for |
| `ConsensusProof.TurnGuarded` | core/proposer.cpp:487-509 | if only member 0 skips the prepare phase, every accept asked for has the least pid or a majority barred below it |
| `Agreement.StepSound` | core/proposer.cpp:197-227 | every step of the composed system keeps the invariant, whoever skips the prepare phase |
| `Agreement.NoLowerMajority` | core/proposer.cpp:487-509 | where accepts are guarded, no majority has voted below a pid that another majority voted for |
| `Agreement.ElectedUnique` | core/acceptor.cpp:250-332 | in every state satisfying the invariant and the guard at most one (pid, value_id) per entry has ever been held by a majority |
| `Agreement.AgreementHolds` | core/proposer.cpp:156-195 | in every run of any number of acceptors and proposers, with lost, delayed, reordered and repeated messages, timeouts, arbitrary notices and failed writes: at most one (pid, value_id) per entry is ever accepted by a majority; every CHOSEN mark is on such a proposal and all acceptors' marks agree, provided only member 0 skips prepare |
| `Agreement.ChosenIsFinal` | core/acceptor.cpp:353-399 | once an acceptor has marked an entry CHOSEN, no later run of the system changes the proposal it holds, whoever skips the prepare phase |
| `Agreement.ChosenNeverChanges` | core/acceptor.cpp:353-399 | in every run from the start, a CHOSEN mark keeps its proposal through any further run, and a majority has voted for it, whoever skips the prepare phase |
| `ValueAgreement.ValueAgreementHolds` | core/proposer.cpp:438-509 | in every run, for every entry but ~0: all acceptors' CHOSEN marks carry the same value bytes, and these are the value of some client call of the run |
| `ValueAgreement.MarkedValuesAgree` | core/proposer.cpp:438-509 | whoever skips the prepare phase: if a run's CHOSEN marks agree on (pid, value_id), they agree on the value bytes, for every entry but ~0 |
| `ValueAgreement.MarkedValuesAreCalled` | core/proposer.cpp:71-105 | whoever skips the prepare phase: the value under every CHOSEN mark is that of some client call of the run |
| `ValueAgreement.PickIsLost` | core/proposer.cpp:487-509 | a vote picked from another draft of the same member for the open entry belongs to an attempt that was never announced as chosen and never will be |
| `ValueAgreement.MarkHasDraft` | core/acceptor.cpp:367-396 | the value under a CHOSEN mark is that of the one draft behind its vote |
| `Skippers.FirstEntry` | core/proposer.cpp:560-648 | a member other than 0 can bring itself, by an ordinary two-phase round, into the state in which the one-phase test holds for it |
| `Skippers.SecondMajority` | core/acceptor.cpp:268-284 | from there a one-phase accept replaces, at the same majority, a proposal that majority had accepted and nobody had been told of |
| `Skippers.SkipperBreaks` | core/proposer.cpp:190-192 | with any member but 0 allowed to skip, some run makes two majorities accept different proposals for one entry |
| `Skippers.AgreementIff` | core/proposer.cpp:156-195 | for every group of 1 to 509 acceptors: all runs agree if and only if no member but 0 may skip the prepare phase |
| `SkipperMarks.SkipperSplits` | core/proposer.cpp:190-192 | with three acceptors or more and a skipper other than member 0, some run ends with two acceptors' CHOSEN marks for one entry on different proposals with different values |
| `SkipperMarks.SmallGroupAgrees` | core/acceptor.cpp:367-396 | with one or two acceptors CHOSEN marks agree in every state satisfying the invariant, whoever skips |
| `SkipperMarks.MarksAgreeIff` | core/proposer.cpp:156-195 | for every group of 1 to 509 acceptors: CHOSEN marks agree in all runs, and so do the values under them, if and only if the group has at most two acceptors or no member but 0 may skip the prepare phase |
| `ProposerObject.Proposer.AllocPaxosMsg` | core/proposer.cpp:71-105 | the drafted proposal and the ids it uses up; a read probe takes pid 0 and no pid |
| `ProposerObject.Proposer.UpdateChosenInfo` | core/proposer.cpp:113-136 | chosen reports of 0, ~0 or an older entry change nothing; any other, also an equal one, resets the pid generator |
| `ProposerObject.Proposer.OnEntryChosen` | core/proposer.cpp:138-154 | notices from the plog are ignored by every member but 0 |
| `ProposerObject.Proposer.ProposeAsync` | core/proposer.cpp:306-375 | a call while an attempt is open is refused; otherwise one-phase or two-phase start as the skip test says, with what is broadcast |
| `ProposerObject.Proposer.CountPromise` | core/proposer.cpp:438-487 | one counted promise: when a foreign value is kept, when bit 0x80 is set, and when the client has to be told early |
| `ProposerObject.Proposer.HandlePrepareRsp` | core/proposer.cpp:377-551 | new state, broadcast and promise settings after a prepare response, branch by branch, with one-byte counters |
| `ProposerObject.Proposer.HandleAcceptRsp` | core/proposer.cpp:560-648 | new state, broadcast and promise settings after an accept response |
| `ProposerObject.Proposer.HandleRpcResponse` | core/proposer.cpp:197-227 | responses and timeouts of other attempts change nothing; a timeout closes the attempt |
| `ProposerRuns.AnswersExact` | core/proposer.cpp:515-548 | after any events the number of times an attempt's promise has been set is 1 exactly if the attempt is over or bit 0x80 is set, else 0 |
| `ProposerRuns.ResolvesOnce` | core/proposer.cpp:197-227 | for any sequence of valid, invalid, late or duplicate responses and timeouts the promise of every attempt is set at most once, and exactly once when its timeout has been handled |
| `ClientAnswers.OkIff` | core/proposer.cpp:523-548 | exactly when a waiting client of a write is told OK, over every run: with a chosen broadcast after a majority of accepts for its proposal; or with nothing sent, when the last response of the phase is counted for its proposal although too few were, or when enough promises were and the response has pid 0 |
| `ClientAnswers.OkForNothing` | core/proposer.cpp:523-548 | for every group of 2 to 255 acceptors a run in which all but one refuse to promise, the last one promises, and the client is told OK although no accept was ever asked for |
| `ClientAnswers.TrustworthyIff` | core/proposer.cpp:640-645 | OK on a response with a pid comes with a broadcast in all runs if and only if the group has at most one acceptor or more than one byte can count |
| `ClientTruth.OkIsElected` | core/proposer.cpp:624-645 | in every run of the system, whoever skips: an OK that comes with a broadcast means that a majority of acceptors has accepted the client's own proposal |
| `ProposerRuns.TallyHolds` | core/proposer.cpp:406-488 | over any events, in the prepare and in the accept phase, both one-byte counters are exactly the numbers of responses come and counted modulo 256, and the kept foreign value is the greatest among those counted for the current attempt |
| `ProposerRuns.AcceptPhaseValue` | core/proposer.cpp:438-509 | for any arrival order the accept phase starts after a majority of counted promises, with a peer's value only when all acceptors have answered and that value has the greatest pid among the counted foreign ones, else with the client's own proposal |
| `ProposerRuns.ChosenNeedsMajority` | core/proposer.cpp:577-636 | a CHOSEN broadcast only follows a majority of counted accept responses that all carry the attempt's pid and value_id, and carries them itself |
| `ProposerRuns.StaleHasNoEffect` | core/proposer.cpp:203-221 | an answer or timeout of an earlier or finished attempt, or a prepare response in the accept phase, put in anywhere in a run changes neither its final state nor the responses counted |
| `ProposerRuns.TermCountsAttempts` | core/proposer.cpp:99-99 | the term filter is exact: the term is the number of attempts started |
| `ProposerRuns.NeverFalls` | core/proposer.cpp:113-136 | over whole runs the last chosen entry, the term and the value ids never fall |
| `GeneratorLaws.GeneratorStep` | core/proposer.cpp:113-136 | exactly how one event moves the pid generator: one step for a write, to the least track id at or past a pid shown by a refusal in either phase, back to the start for a report taken in, and not otherwise; the last chosen entry and its proposer change only by such a report |
| `GeneratorLaws.RefusedMovesOn` | core/proposer.cpp:429-431 | over every run: once an answer to an attempt, write or probe, has shown another pid in the prepare or accept phase, the next pid issued is on the track at or past that pid and the old id, unless a report is taken in between, and is the least such if no write or refusal comes in between |
| `GeneratorLaws.LastChosenIsGreatest` | core/proposer.cpp:113-136 | over every run the last chosen entry is the greatest one reported, by notice or by an own win, and its proposer the one named by the last report of it |
| `BroadcastLaws.CallSends` | core/proposer.cpp:71-105 | what a call sends over every run: for the entry after the last chosen one, with the term and value id its number of attempts gives; an accept with the value exactly if it is a write and the prepare phase may be skipped |
| `BroadcastLaws.OpensIff` | core/proposer.cpp:487-509 | over every run the accept phase opens exactly on a promise with a pid that completes a majority of counted ones, and is the last response if any counted one brought a peer's value |
| `BroadcastLaws.AnnouncesIff` | core/proposer.cpp:624-636 | over every run a chosen request is broadcast exactly on the accept response that completes a majority of counted ones |
| `BroadcastLaws.OpeningCarries` | core/proposer.cpp:487-509 | a picked proposal goes out as it came but for its status and last chosen report; the client's own with the freshest term and cookie |
| `BroadcastLaws.AnnouncementCarries` | core/proposer.cpp:624-636 | the chosen request carries the counted response's entry, proposer, pid, value id, cookie and term, and no value |
| `BroadcastLaws.AnswersRefresh` | core/ptype.cpp:49-62 | every valid answer sets the attempt's cookie and raises its term, never lowers it |
| `CodeLaws.CodesAre` | core/proposer.cpp:515-648 | what a waiting client is told besides OK: TIMEOUT exactly on its timer, PREPARE_PEER_VALUE exactly on the first counted peer value, a failure code exactly with a last response that fails, and nothing on other events |
| `CodeLaws.ClosesIff` | core/proposer.cpp:197-227 | exactly which events end an attempt, answered before or not |
| `CodeLaws.ProbeOkIff` | core/proposer.cpp:487-548 | over every run a read probe sends nothing on a response and is told OK exactly when a majority of promises without a peer value is counted, or the last response is one |
| `IdGeneration.JumpIsLeast` | util/idgen.hpp:28-33 | the jump past v lands on the least id on the generator's track that is at least both |
| `IdGeneration.JumpDivides` | util/idgen.hpp:28-33 | the one division the code makes equals stepping on until v is reached |
| `IdGeneration.IdGen.GetAndInc` | util/idgen.hpp:18-22 | returns the id and advances by one step |
| `IdGeneration.IdGen.Reset` | util/idgen.hpp:24-26 | the next id is the given one |
| `IdGeneration.IdGen.SetGreaterThan` | util/idgen.hpp:28-33 | never moves back, reaches v, stays on track, overshoots by less than a step |
| `IdGeneration.TracksDisjoint` | core/proposer.cpp:57-60 | tracks of two members of one round never meet |
| `ProposalIds.NeverReissued` | core/proposer.cpp:113-133 | while no report repeats the last chosen entry, no (entry, pid) is issued twice by a member over any events |
| `ProposalIds.ReissueIff` | core/proposer.cpp:120-131 | exactly when that hypothesis matters: after any run without a repeat, a report of the last chosen entry, by notice or by an own win, lets some continuation issue an (entry, pid) twice if and only if this member has already written to the entry after it |
| `ProposalIds.ReissueRun` | core/proposer.cpp:113-136 | a run from the initial state of member 0 of three in which a repeated notice leads to (2, 4) being issued twice |
| `ProposalIds.RepeatResets` | core/proposer.cpp:126-133 | whatever event repeats the report, the generator starts over and the last chosen entry stays |
| `ProposalIds.IssuedOnTrack` | core/proposer.cpp:77-84 | every write pid a member ever issues is its member id + 1 plus whole multiples of the proposer count |
| `ProposalIds.MembersNeverCollide` | core/proposer.cpp:57-60 | two members never issue the same pid, whatever events each of them sees |
| `PaxosGroup.GenGroup` | core/paxos_group.cpp:11-21 | the table is the complete chain of rearrangements from the first one, and is refused exactly if there are not M of them |
| `PaxosGroup.GenGroupReverse` | core/paxos_group.cpp:23-39 | every cell of the reverse table is the first place of its column in the row, or -1 |
| `PaxosGroup.ArrangementPairs` | core/paxos_group.cpp:41-45 | a rearrangement of 0..N-1 is in range, injective and onto |
| `PaxosGroup.ReverseUndoes` | core/paxos_group.cpp:23-39 | the reverse row is the inverse of the row in both directions |
| `PaxosGroup.Group.GetMemberIdBySvrId` | core/paxos_group.cpp:47-52 | -1 outside the group, else the member whose server is the given one |
| `PaxosGroup.Group.GetSvrIdByMemberId` | core/paxos_group.cpp:54-59 | -1 outside the group, else the server whose member is the given one |
| `PaxosGroup.Group.GetPaxosGroupMember` | core/paxos_group.cpp:61-67 | the row of the instance, or -1 and an untouched buffer for a wrong size |
| `PaxosGroup.ServersNeverCollide` | core/proposer.cpp:57-60 | distinct servers get distinct member ids in every group and so never issue the same pid |
| `RingQueueProof.StepKeeps` | util/queue.h:56-152 | each shared read, write and compare-and-swap of any thread keeps the invariant, with arbitrarily stale counters in hand |
| `RingQueueProof.WrapCasFails` | util/queue.h:82-92 | the counter-wrap branch is reached only with a stale head, so its compare-and-swap never succeeds |
| `RingQueueProof.RunInv` | util/queue.h:56-152 | under every interleaving of any number of threads with fewer than 2^64 reservations: tail <= head <= tail + size, and tickets per slot balance with the slot's flag and its waiters |
| `RingQueueProof.OneOwner` | util/queue.h:94-105 | no two threads are ever at work in the same slot |
| `RingQueueProof.OwnerExists` | util/queue.h:94-105 | a slot flagged SETTOOK or GETTOOK has a thread at work in it |
| `RingQueueProof.SlotConserves` | util/queue.h:94-149 | the values taken from a slot are, in order, the values put there, but for the one it holds |
| `RingQueueConservation.NothingLostOrDoubled` | util/queue.h:56-152 | over every run from an empty queue: the values stored are, as a multiset, those handed out plus those the slots hold |
| `RingQueueProof.WindowCount` | util/queue.h:94-133 | per slot, enqueue tickets minus dequeue tickets is 0 or 1 |
| `RingQueueProof.DequeuerIsServed` | util/queue.h:133-143 | a dequeuer waiting at an empty slot always has an enqueuer in flight for that slot that can move |
| `RingQueueProof.EnqueuerIsServed` | util/queue.h:94-99 | an enqueuer waiting at a full slot always has a dequeuer in flight for that slot that can move |
| `RingQueueProof.NeverStuck` | util/queue.h:94-143 | whoever waits for a slot, some thread concerned with that slot can move |
| `RingQueueProof.QuietSlot` | util/queue.h:94-149 | with no thread between reservation and release, a slot is full exactly if a ticket between tail and head falls on it |
| `RingQueueProof.FullIsTrue` | util/queue.h:65-81 | for any number of threads RT_FULL is returned only if the occupancy equalled the size at the tail read |
| `RingQueueProof.EmptyIsNearlyTrue` | util/queue.h:119-131 | RT_EMPTY with any number of threads: at the head read there were no more elements than other consumers reserved before the tail read |
| `RingQueueAnswers.EnqueueDecides` | util/queue.h:65-92 | with its counters read an enqueuer gives up exactly if it may not block and they leave no room, takes the ticket it read exactly if there is room and the head has not moved, and otherwise starts over with its value and flag |
| `RingQueueAnswers.DequeueDecides` | util/queue.h:119-131 | the same for a dequeuer, which gives up exactly if it may not block and its counters show no element |
| `RingQueueAnswers.CallsDoTheirWork` | util/queue.h:56-152 | under every interleaving a blocking call that has ended stored its value, or took one, exactly once; a non-blocking one at most once |
| `RingQueueAnswers.EnqueueAlone` | util/queue.h:65-81 | undisturbed from its head read, after three steps: on a full queue a non-blocking enqueue has answered RT_FULL and a blocking one is where it began; otherwise it holds a ticket |
| `RingQueueAnswers.DequeueAlone` | util/queue.h:119-131 | the same for a dequeue of an empty queue and RT_EMPTY |
| `RingQueueEmpty.EmptyAtReadIff` | util/queue.h:119-131 | for every set of threads, producers and consumers and every ring size: RT_EMPTY is true of the head read in all runs if and only if at most one thread dequeues |
| `RingQueueEmpty.EmptyDuringCallIff` | util/queue.h:119-131 | RT_EMPTY is true of some moment of the call in all runs if and only if at most one thread dequeues or the ring has one slot |
| `RingQueueEmpty.FalseThroughout` | util/queue.h:119-131 | with two consumers and two slots a reachable state in which a thread answers RT_EMPTY although the queue was never empty since its call began |
| `RingQueueFifo.RefinesFifo` | util/queue.h:56-152 | with one producer and one consumer every step enqueues at the back of a queue with room, dequeues at the front of a non-empty one, or leaves the abstract contents alone |
| `RingQueueFifo.ReceivesItsTicket` | util/queue.h:133-149 | the value the consumer returns is the one that was at the front when it reserved its ticket |
| `RingQueueFifo.AnswersAreTrue` | util/queue.h:65-131 | with one producer and one consumer RT_FULL and RT_EMPTY are returned only when true at the tail read and the head read |
| `RingQueueFifo.FifoRun` | util/queue.h:56-152 | over every such run the values handed out are an initial part of the values put in, in order |
| `RingQueueFifo.FifoFromStart` | util/queue.h:56-152 | from an empty queue with one producer and one consumer: handed out <= stored as prefixes, and what was reserved splits into the tickets given to the consumer and at most size values still queued |
| `Codec.HeaderRoundTrip` | core/ptype.h:91-107 | the eleven packed fields of a header are read back from any place in a buffer |
| `Codec.EntryRoundTrip` | core/plog.cpp:18-60 | for every entry whose total size fits 32 bits, decoding the encoding succeeds and gives exactly (accepted, dummy) or (dummy, promised or dummy) |
| `Codec.ReencodeIff` | core/plog.cpp:18-60 | encoding a reloaded entry gives the same bytes if and only if it had accepted something or had promised nothing but the dummy |
| `Codec.AcceptedIsFixedPoint` | core/plog.cpp:18-60 | for an entry with an accepted proposal a second write and read changes nothing |
| `Codec.Fill` | core/plog.cpp:23-37 | copying version, size and the two records into a sized buffer lays them out back to back |
| `Codec.StoredEntry.SerializeTo` | core/plog.cpp:18-39 | the bytes written are the encoding of the entry, and the size returned is theirs |
| `Codec.StoredEntry.UnserializeFrom` | core/plog.cpp:41-60 | both error returns leave the entry as it was; a success sets both proposals; only the two size fields are read before the check, and the buffer is read within its bounds exactly unless it is sized and one of the three ways of reading outside applies |
| `Codec.OutOfBoundsIff` | core/plog.cpp:41-60 | exactly which buffers are read past their end: those that name their own length and have no room for the first size field, or for the second one where the first size puts it, or whose two sizes wrap to the right 32-bit sum with a first value longer than the rest; and exactly which buffers decode |
| `Codec.TruncatedReadsOutside` | core/plog.cpp:50-53 | nine bytes read past their end: the first size field lies outside |
| `Codec.WrappedReadsOutside` | core/plog.cpp:53-58 | 144 bytes that pass the size comparison by 32-bit wrap-around, after which copying the second value reads far outside |
| `Codec.ShortIsRejected` | core/plog.cpp:53-55 | 130 bytes without room for a second header that are rejected without reading outside |
| `Codec.SizeOfHeader` | core/ptype.h:91-101 | the size field is the four bytes behind five words and two halves of a header |
| `Codec.FieldPlaces` | core/ptype.h:91-107 | the offset and width of each of the eleven header fields |
| `Codec.LittleEndian` | core/ptype.h:91-107 | integers are stored low byte first |
| `Codec.EntryPlaces` | core/plog.cpp:18-39 | an encoded entry byte by byte: total size, version 17, then the header and value of the first and of the second proposal |
| `Codec.DecodesTo` | core/plog.cpp:41-60 | whatever buffer decodes, its bytes behind the head are exactly the records of the two proposals it decodes to, and it names its own length |
| `Codec.CodeOfBad` | core/plog.cpp:41-55 | a buffer shorter than a head gets UNMARSHAL_PLOG_FAIL, every other rejected one INVALID_PLOG_DATA |
| `Reload.FrozenIff` | core/plog.cpp:57-58 | in a log, an entry read back from storage is never again changed by any run of prepare and accept requests if and only if the log has chosen something at or past it, or it had accepted nothing, or something whose status is neither ACCEPTED nor CHOSEN |
| `Reload.ThawsIff` | core/acceptor.cpp:353-399 | the one request that changes a reloaded entry without an accepted proposal is a chosen request with pid 0 and value id 0, which commits the dummy |
| `Lru.RunKeeps` | util/lrumap.hpp:19-66 | in every reachable state keys are distinct and the size is at most the capacity |
| `Lru.RunIncluded` | util/lrumap.hpp:19-66 | for every sequence of operations on capacities n <= m, the smaller map's recency list is a subsequence of the larger's with equal values, and the sizes differ by at most m - n |
| `Lru.SubFind` | util/lrumap.hpp:44-52 | what the smaller map finds under a key the larger one finds too, with the same value |
| `Lru.MostRecentKeys` | util/lrumap.hpp:19-52 | without Del and Clear the keys held are exactly the capacity-many most recently touched distinct ones, in that order |
| `Lru.ValuesAreLatest` | util/lrumap.hpp:19-33 | every value held is that of the last Put of its key, over all operation sequences |
| `Lru.RecentKeys` | util/lrumap.hpp:19-66 | over all operation sequences, Del and Clear included, the keys held are the most recently touched ones not deleted since, in that order |
| `Lru.SizeAfter` | util/lrumap.hpp:19-66 | how many they are: a put of a new key adds one unless the map is full, a deletion of a held key takes one, clearing takes all, a get none |
| `Lru.DeletedIsGone` | util/lrumap.hpp:54-61 | after any run that ends in a deletion the key is not found, every other key is found as before, and the order of the rest is the same |
| `Lru.HeldSincePut` | util/lrumap.hpp:19-66 | a key found after any run was put with that value later than its last deletion and the last clearing, and not put since |
| `LruObject.LinkedKeys` | util/lrumap.hpp:68-80 | list and index hold the same keys, one node each |
| `LruObject.LruMap.Put` | util/lrumap.hpp:19-33 | list and index stay linked; the pair goes to the front, its old node goes, and the last node goes when there are too many |
| `LruObject.LruMap.GetPtr` | util/lrumap.hpp:44-52 | a hit moves to the front and returns the value the list gives; a miss changes nothing |
| `LruObject.LruMap.Del` | util/lrumap.hpp:54-61 | exactly the key's pair goes; the answer says whether there was one |
| `LruObject.LruMap.Clear` | util/lrumap.hpp:63-66 | nothing is left |
| `LruObject.LruMap.Size` | util/lrumap.hpp:70-70 | the size of the index is the length of the list |
| `WheelObject.TimingWheel.AddTimeout` | util/timing_wheel.hpp:40-49 | one item goes to the end of one slot, the slot computed with rounding up and in 32-bit arithmetic |
| `WheelObject.TimingWheel.Turn` | util/timing_wheel.hpp:65-79 | the items of the start slot are notified in order, the slot is cleared and the wheel advances |
| `WheelRuns.RunMirrors` | util/timing_wheel.hpp:40-79 | over every interleaving of adds and turns each turn fires exactly the timers due in it, in the order they were armed, and the slots hold exactly the rest |
| `WheelRuns.FiresExactlyOnce` | util/timing_wheel.hpp:40-79 | a timer fires in its due turn and in no other, once |
| `WheelRuns.DueTurn` | util/timing_wheel.hpp:40-49 | with k = ceil(timeout / granularity) below the wheel size the due turn is exactly the (k+1)-th after arming; at or above it the timer fires too soon |
| `WheelRuns.LongDelay` | util/timing_wheel.hpp:40-49 | short of the 32-bit wrap a longer timeout fires after k modulo the wheel size turns |
| `WheelRuns.WrappedDelay` | util/timing_wheel.hpp:40-49 | past the 32-bit wrap, which only the wheel of 1 ms meets, it fires after (timeout + 704) modulo 4000 turns |
| `WheelRuns.NeverEarly` | util/timing_wheel.hpp:63-80 | with turns at least a granularity apart, a timer that fits the wheel never fires before its timeout has passed |
| `WheelRuns.OnTimeIff` | util/timing_wheel.hpp:40-79 | timers of a given timeout are on time in every run if and only if the timeout is at most (size - 1) granularities |
| `WheelRuns.ProposerTimersIff` | core/proposer.cpp:265-276 | a proposer with operation timeout t (granularity t - 1, timers of 2t) never times out early if and only if t <= 1001 ms |
| `Lru.PutIncluded` | util/lrumap.hpp:19-33 | one Put on both maps keeps the inclusion, evictions included |
| `Lru.GetIncluded` | util/lrumap.hpp:44-52 | one GetPtr on both maps keeps the inclusion, also when only the larger map hits |

## Left out

- 64-bit wrap-around of pids, terms, entry ids and value ids: these are unbounded naturals. The queue counters, the one-byte response counters, the 32-bit sizes of the codec and of the wheel slot and the 16-bit member fields are modelled at their width.
- The pid cookie of the configuration is taken to be 0.
- One log instance: messages all carry the same instance id. The lag answer to an accept leaves the instance id at 0 (core/acceptor.cpp:227-238), which would misroute it among several instances.
- Restart and eviction inside the agreement proof: an acceptor keeps every live entry in its cache, and storage answers nothing for entries it has not cached. Storage is a parameter of the handlers themselves.
- EntryManager.EntryMng.CreateEntry: the bounded LRU cache inside the manager is an unbounded map here; the LRU map is modelled on its own.
- Agreement.AgreementHolds: requests may be lost, delayed, reordered and repeated; each acceptor's answer to one broadcast reaches the callback at most once, as network/conn.h:115-124 arranges.
- Skippers.AgreementIff, SkipperMarks.MarksAgreeIff: groups of 1 to 509 acceptors, beyond which the one-byte counter of valid responses never reaches a majority; the source allows at most 7 (core/ptype.h:89).
- RingQueueProof.RunInv: memory is sequentially consistent, the ring has at least one slot and is initialised; the weak-memory effect of the barriers is not modelled.
- PaxosGroup.GenGroup: the library's next_permutation is a parameter that only reorders its range; that it reaches exactly N! arrangements is not derived.
- Codec.StoredEntry.UnserializeFrom: for the buffers that are read past their end nothing is said about what is read.
- ValueAgreement.ValueAgreementHolds, SystemWatermarks.WatermarksHold: leave out the entry id ~0, which the proposer takes for "none" when it is reported chosen (core/proposer.cpp:116).
- LruObject.LruMap.GetPtr: returns the value; changes a caller makes through the returned pointer are not modelled.
- WheelObject.TimingWheel.Turn: notifiers are recorded events; a notifier that arms a timer from inside the turn (core/proposer.cpp:267-273) is not modelled, nor are granularities outside 1..4000 ms, which have no wheel.
- ProposerObject.Proposer.HandlePrepareRsp: the assertion that a peer value is not empty (core/proposer.cpp:460) is taken as compiled out, and broadcasting always succeeds.
- Catch-up (core/acceptor.cpp:96-114) is an unfinished stub and IsLocalChosenLagBehind (core/plog.cpp:270) has no caller.
- The wall-clock seed of value ids is an arbitrary start.
- Transport, logging, worker threads, futures, io_uring, the allocator and configuration wiring.
