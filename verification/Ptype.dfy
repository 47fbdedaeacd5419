/** The records that travel between proposers and acceptors (core/ptype.h). */
module Ptype {

  datatype Option<+T> = None | Some(value: T)

  type Byte = b: int | 0 <= b < 256

  /** The all-ones 64-bit word that the source uses as "no such entry". */
  const NONE: nat := 0xffff_ffff_ffff_ffff

  /** The all-ones 16-bit word stored in `lastChosenFrom` by acceptor replies. */
  const NO_MEMBER: nat := 0xffff

  // Proposal status words.
  const PREPARED: nat := 1
  const PROMISED: nat := 2
  const ACCEPTED: nat := 3
  const CHOSEN: nat := 4
  const ALREADY_CHOSEN: nat := 5
  const PROMISED_FAILED: nat := 6
  const ACCEPTED_FAILED: nat := 7
  const COMMIT_FAILED: nat := 8
  const INVALID_PROPOSAL: nat := 9
  const LOCAL_LAG_BEHIND: nat := 10
  const REMOTE_LAG_BEHIND: nat := 11

  // Error codes.
  const OK: int := 0
  const TIMEOUT: int := -30002
  const PREPARE_NOT_QUORUM: int := -30003
  const PLOG_NOT_EXIST: int := -30006
  const PREPARE_PEER_VALUE: int := -30007
  const INVALID_PLOG_DATA: int := -30008
  const UNMARSHAL_PLOG_FAIL: int := -30009
  const PROPOSAL_NOT_EXIST: int := -30012
  const WRITE_PLOG_FAIL: int := -30013
  const INVALID_PROPOSAL_REQ: int := -30014
  const DUPLICATE_PROPOSAL_REQ: int := -30015
  const ENTRY_NOT_EXIST: int := -30017
  const REMOTE_NEED_CATCHUP: int := -30020
  const PEER_ACCEPT_FAIL: int := -30024
  const PEER_ACCEPT_REJECTED: int := -30026
  const PEER_ACCEPT_OTHER_VALUE: int := -30027

  /** A proposal; the wire field `size_` is the length of `data`. A pid of 0 marks a read probe. */
  datatype Proposal = Proposal(
    pid: nat,
    term: nat,
    pinst: nat,
    entry: nat,
    lastChosen: nat,
    lastChosenFrom: nat,
    proposer: nat,
    status: nat,
    opaqueId: nat,
    valueId: nat,
    data: seq<Byte>)

  /** What zero-filled memory decodes to. */
  const ZERO: Proposal := Proposal(0, 0, 0, 0, 0, 0, 0, 0, 0, 0, [])

  /** The place holder stored where an entry has no proposal: all zero, one byte of value. */
  const DUMMY: Proposal := ZERO.(data := [0])

  datatype MsgType = PrepareReq | PrepareRsp | AcceptReq | AcceptRsp | ChosenReq | ChosenRsp

  datatype PaxosMsg = PaxosMsg(kind: MsgType, err: int, body: Proposal)
}
