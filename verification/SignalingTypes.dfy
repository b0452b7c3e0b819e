/** Entities of the signaling server: identifiers, the participant record, the
    room, the hub, and the messages the hub sends.  Times are in nanoseconds. */
module SignalingTypes {
  import opened Wrappers

  /** Participant, room and transport-session identifiers; the empty name is "none". */
  datatype CID = CID(name: string)
  datatype RID = RID(name: string)
  datatype SID = SID(name: string)

  const NO_CID: CID := CID("")
  const NO_RID: RID := RID("")

  /** The identity of a transport (a `*Client` pointer). */
  type ClientId = nat

  const MILLISECOND: int := 1_000_000
  const SECOND: int := 1_000 * MILLISECOND
  const SUSPEND_HARD_EVICTION_TIMEOUT: int := 600 * SECOND
  const NO_ACTIVE_ROOM_TIMEOUT: int := 10 * SECOND
  const ROOM_TOMBSTONE_TTL: int := 300 * SECOND
  const MEDIA_LIVENESS_FRESHNESS_WINDOW: int := 30 * SECOND
  const HARD_EVICT_MEDIA_ACTIVE_DEFERRAL: int := 30 * SECOND
  const GHOST_EVICT_MIN_DWELL: int := 30 * SECOND

  /** A stable participant record.  `evictAt` is the deadline of the armed
      hard-eviction timer; `cap` remembers what the join declared
      that created the record (history, read by no operation). */
  datatype Participant = Participant(
    client: Option<ClientId>,
    suspendedAt: int,
    evictAt: Option<int>,
    cap: Option<int>)

  /** What a room's history remembers about negotiation: a message of `from`
      that missed the suspended `targets`, a completed attach, a removal. */
  datatype Obs =
    | Missed(from: CID, targets: set<CID>)
    | Attached(cid: CID)
    | Removed(cid: CID)

  /** A room.  `id` tells incarnations of one room identifier apart; `idleAt` is
      the deadline of the armed no-active timer; `log` is history. */
  datatype RoomState = RoomState(
    id: nat,
    byCID: map<CID, Participant>,
    byClient: map<ClientId, CID>,
    host: CID,
    maxParticipants: int,
    requestedMax: int,
    locked: bool,
    epoch: nat,
    dirty: map<CID, set<CID>>,
    liveness: map<CID, int>,
    reporters: map<CID, int>,
    idleAt: Option<int>,
    log: seq<Obs>)

  /** The mutable fields of a transport. */
  datatype ClientInfo = ClientInfo(sid: SID, cid: CID, rid: RID, replaced: bool)

  datatype Outcome = Fresh | Reattached | Recovered

  datatype ErrorCode =
    | BadRequest
    | InvalidRoomId
    | ServerNotConfigured
    | InvalidReconnectToken
    | RoomEndedError
    | RoomCapacityUnsupported
    | RoomFull
    | NotHost

  /** The membership part of a joined or room_state payload. */
  datatype Snapshot = Snapshot(
    epoch: nat, host: CID, maxParticipants: int, members: set<CID>, suspended: set<CID>)

  datatype Kind = Offer | Answer | Ice | MediaRestartRequest | ContentState

  datatype Body =
    | Joined(rid: RID, id: nat, snapshot: Snapshot, cid: CID, outcome: Outcome)
    | RoomStateMsg(rid: RID, id: nat, snapshot: Snapshot)
    | RoomEnded(rid: RID)
    | Relay(from: CID, kind: Kind)
    | RelayFailed(targets: set<CID>)
    | NegotiationDirty(with: CID)
    | Error(code: ErrorCode)
    | StatusUpdate(rid: RID, count: nat)
    | RoomStatuses(counts: map<RID, nat>)

  /** One entry of the outgoing log: a message to a set of transports, or the
      note that a transport took over another one's subscriptions. */
  datatype Sent =
    | Sent(to: set<ClientId>, body: Body)
    | TookOver(prev: ClientId, next: ClientId)

  /** The hub.  `tombstones` maps a room identifier to its expiry; `nextRoom`
      numbers room incarnations; `sent` is the outgoing log. */
  datatype HubState = HubState(
    now: int,
    limit: int,
    rooms: map<RID, RoomState>,
    watchers: map<RID, set<ClientId>>,
    tombstones: map<RID, int>,
    clients: set<ClientId>,
    bySID: map<SID, ClientId>,
    pending: map<SID, ClientId>,
    info: map<ClientId, ClientInfo>,
    nextRoom: nat,
    sent: seq<Sent>)

  function Max(a: int, b: int): int {
    if a < b then b else a
  }

  function Min(a: int, b: int): int {
    if a < b then a else b
  }
}
