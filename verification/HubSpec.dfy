/** The hub's handlers and timer callbacks as functions on values, one atomic
    step each.  The methods of `Hub` are proved against these. */
module HubSpec {
  import opened Wrappers
  import opened SignalingTypes
  import opened RoomSpec

  function Init(limit: int): HubState {
    HubState(1, Max(2, limit), map[], map[], map[], {}, map[], map[], map[], 0, [])
  }

  function Info(h: HubState, c: ClientId): ClientInfo {
    if c in h.info then h.info[c] else ClientInfo(SID(""), NO_CID, NO_RID, false)
  }

  // ----- sending -----------------------------------------------------------

  function Send(h: HubState, to: set<ClientId>, body: Body): HubState {
    h.(sent := h.sent + [Sent(to, body)])
  }

  function SendError(h: HubState, c: ClientId, code: ErrorCode): HubState {
    Send(h, {c}, Error(code))
  }

  function Count(h: HubState, rid: RID): nat {
    if rid in h.rooms then |h.rooms[rid].byCID| else 0
  }

  /** broadcastRoomStatusUpdate */
  function Status(h: HubState, rid: RID): HubState {
    if rid in h.watchers then Send(h, h.watchers[rid], StatusUpdate(rid, Count(h, rid))) else h
  }

  /** broadcastRoomState, or the snapshot for one transport. */
  function StateTo(h: HubState, rid: RID, to: set<ClientId>): HubState
    requires rid in h.rooms
  {
    Send(h, to, RoomStateMsg(rid, h.rooms[rid].id, Snap(h.rooms[rid])))
  }

  function BroadcastState(h: HubState, rid: RID): HubState
    requires rid in h.rooms
  {
    StateTo(h, rid, h.rooms[rid].byClient.Keys)
  }

  function PutRoom(h: HubState, rid: RID, r: RoomState): HubState {
    h.(rooms := h.rooms[rid := r])
  }

  function DropRoom(h: HubState, rid: RID): HubState {
    h.(rooms := h.rooms - {rid})
  }

  // ----- transports --------------------------------------------------------

  function Unwatch(watchers: map<RID, set<ClientId>>, c: ClientId): map<RID, set<ClientId>> {
    map rid | rid in watchers && watchers[rid] - {c} != {} :: watchers[rid] - {c}
  }

  /** cleanupEvictedClient, and the hub part of disconnectClient. */
  function Deregister(h: HubState, c: ClientId): HubState {
    h.(clients := h.clients - {c},
       bySID := h.bySID - {Info(h, c).sid},
       watchers := Unwatch(h.watchers, c))
  }

  function Register(h: HubState, c: ClientId, sid: SID): HubState {
    h.(info := h.info[c := ClientInfo(sid, NO_CID, NO_RID, false)],
       clients := h.clients + {c},
       bySID := h.bySID[sid := c])
  }

  function Rewatch(watchers: map<RID, set<ClientId>>, prev: ClientId, next: ClientId): map<RID, set<ClientId>> {
    map rid | rid in watchers ::
      if prev in watchers[rid] then watchers[rid] - {prev} + {next} else watchers[rid]
  }

  /** replaceClient: `next` takes over the registration, the subscriptions and
      the room attachment of `prev`. */
  function Replace(h: HubState, prev: ClientId, next: ClientId): HubState {
    var swapped := h.(
      clients := h.clients - {prev} + {next},
      bySID := h.bySID[Info(h, next).sid := next],
      watchers := Rewatch(h.watchers, prev, next),
      sent := h.sent + [TookOver(prev, next)]);
    var rid := Info(h, prev).rid;
    var moved :=
      if rid != NO_RID && rid in h.rooms && prev in h.rooms[rid].byClient
      then PutRoom(swapped, rid, SwapTransport(h.rooms[rid], prev, next))
           .(info := h.info[next := Info(h, next).(cid := h.rooms[rid].byClient[prev], rid := rid)])
      else swapped;
    moved.(info := moved.info[prev := Info(moved, prev).(replaced := true)])
  }

  /** A GET on the event stream by a new transport. */
  function ServeSSE(h: HubState, c: ClientId, sid: SID): HubState {
    var known := h.(info := h.info[c := ClientInfo(sid, NO_CID, NO_RID, false)]);
    if sid in h.bySID then
      if Info(h, h.bySID[sid]).rid != NO_RID
      then known.(pending := known.pending[sid := c])
      else Replace(known, h.bySID[sid], c)
    else Register(h, c, sid)
  }

  /** An authorized takeover: the pending transport replaces the registered one. */
  function PromotePending(h: HubState, sid: SID): HubState {
    if sid in h.pending && sid in h.bySID then
      var p := Replace(h, h.bySID[sid], h.pending[sid]);
      p.(pending := p.pending - {sid})
    else h
  }

  /** The immediate part of handleDisconnectSSE. */
  function AbandonSSE(h: HubState, c: ClientId): HubState {
    if Info(h, c).replaced then h.(clients := h.clients - {c})
    else if Info(h, c).sid in h.pending && h.pending[Info(h, c).sid] == c
    then h.(pending := h.pending - {Info(h, c).sid})
    else h
  }

  // ----- departures ----------------------------------------------------------

  ghost function TakeOut(h: HubState, rid: RID, cid: CID, pick: CID): HubState
    requires rid in h.rooms && cid in h.rooms[rid].byCID
  {
    PutRoom(h, rid, Remove(h.rooms[rid], cid, pick, h.now))
  }

  /** The tail shared by all removal paths. */
  function Settle(h: HubState, rid: RID): HubState
    requires rid in h.rooms
  {
    if h.rooms[rid].byCID == map[]
    then Status(DropRoom(h, rid), rid)
    else Status(BroadcastState(h, rid), rid)
  }

  /** removeClientFromRoom */
  ghost function LeaveRoom(h: HubState, c: ClientId, pick: CID): HubState {
    var rid, cid := Info(h, c).rid, Info(h, c).cid;
    if rid in h.rooms && AttachedTo(h.rooms[rid], cid, c)
    then Settle(TakeOut(h, rid, cid, pick), rid)
    else h
  }

  /** evictSuspendedParticipantForExpiredReconnect */
  ghost function EvictExpired(h: HubState, rid: RID, cid: CID, pick: CID): HubState {
    if rid != NO_RID && cid != NO_CID && rid in h.rooms && Suspended(h.rooms[rid], cid)
    then Settle(TakeOut(h, rid, cid, pick), rid)
    else h
  }

  /** evictByLeave */
  ghost function EvictByLeave(h: HubState, rid: RID, cid: CID, pick: CID): HubState {
    if rid in h.rooms && cid in h.rooms[rid].byCID then
      var out := TakeOut(h, rid, cid, pick);
      Settle(match h.rooms[rid].byCID[cid].client case None => out case Some(c) => Deregister(out, c), rid)
    else h
  }

  /** hardEvictSuspended on the room that is in the hub. */
  ghost function HardEvict(h: HubState, rid: RID, cid: CID, pick: CID): HubState
    requires rid in h.rooms
  {
    var r := h.rooms[rid];
    if !Suspended(r, cid) then h
    else if RecentMedia(r, cid, h.now) then PutRoom(h, rid, Defer(r, cid, h.now))
    else Settle(TakeOut(h, rid, cid, pick), rid)
  }

  /** A hard-eviction timer armed for incarnation `id` of the room. */
  ghost function EvictionFires(h: HubState, rid: RID, id: nat, cid: CID, pick: CID): HubState {
    if rid in h.rooms && h.rooms[rid].id == id then HardEvict(h, rid, cid, pick) else h
  }

  /** cleanupRoomIfNoActive */
  function IdleFires(h: HubState, rid: RID, id: nat): HubState {
    if rid in h.rooms && h.rooms[rid].id == id then
      if h.rooms[rid].byClient != map[]
      then PutRoom(h, rid, h.rooms[rid].(idleAt := None))
      else Status(DropRoom(h, rid), rid)
    else h
  }

  /** suspendClientInRoom */
  function SuspendInRoom(h: HubState, c: ClientId): HubState {
    var rid, cid := Info(h, c).rid, Info(h, c).cid;
    if rid != NO_RID && cid != NO_CID && rid in h.rooms && AttachedTo(h.rooms[rid], cid, c) then
      var s := PutRoom(h, rid, Suspend(h.rooms[rid], cid, h.now));
      Status(if s.rooms[rid].byClient != map[] then BroadcastState(s, rid) else s, rid)
    else h
  }

  /** disconnectClient */
  function Disconnect(h: HubState, c: ClientId): HubState {
    if c in h.clients then SuspendInRoom(Deregister(h, c), c) else h
  }

  // ----- join ----------------------------------------------------------------

  datatype RoomIdCheck = ValidId | InvalidId | SecretMissing
  datatype Verdict = TokenOk | TokenExpired | TokenBad

  /** A join message.  `verdict` is what validating the presented token yields;
      it matters only when a CID and a token are presented. */
  datatype JoinRequest = JoinRequest(
    rid: RID,
    check: RoomIdCheck,
    reconnectCid: CID,
    tokenGiven: bool,
    verdict: Verdict,
    createMax: int,
    capability: Option<int>)

  function ClientMax(req: JoinRequest): int {
    Max(2, match req.capability case None => 0 case Some(n) => n)
  }

  function CreateMax(req: JoinRequest, limit: int): int {
    Min(Min(Max(2, req.createMax), ClientMax(req)), limit)
  }

  predicate PresentsToken(req: JoinRequest) {
    req.reconnectCid != NO_CID && req.tokenGiven
  }

  /** tokenValid, for a request that got past the token check. */
  predicate Proven(req: JoinRequest) {
    PresentsToken(req) && req.verdict == TokenOk
  }

  predicate TombstoneActive(h: HubState, rid: RID) {
    rid in h.tombstones && h.now <= h.tombstones[rid]
  }

  /** lookupTombstone drops an expired entry. */
  function SweepTombstone(h: HubState, rid: RID): HubState {
    if rid in h.tombstones && !TombstoneActive(h, rid) then h.(tombstones := h.tombstones - {rid}) else h
  }

  function EnsureRoom(h: HubState, rid: RID, createMax: int): HubState {
    if rid in h.rooms then h
    else PutRoom(h, rid, NewRoom(h.nextRoom, createMax)).(nextRoom := h.nextRoom + 1)
  }

  function Claim(h: HubState, c: ClientId, cid: CID, rid: RID): HubState {
    h.(info := h.info[c := Info(h, c).(cid := cid, rid := rid)])
  }

  /** The accepted end of a join: `r` already holds the attached record. */
  function Admit(h: HubState, c: ClientId, rid: RID, r: RoomState, cid: CID, outcome: Outcome): HubState {
    var done := Complete(r, cid);
    var partners := DirtyPartners(r.dirty, cid);
    var h1 := PutRoom(h, rid, done).(tombstones := h.tombstones - {rid});
    var h2 := Send(h1, {c}, Joined(rid, done.id, Snap(done), cid, outcome));
    var h3 := BroadcastState(StateTo(h2, rid, {c}), rid);
    var h4 := if partners != {} then Send(h3, TransportsOf(done, partners), NegotiationDirty(cid)) else h3;
    Status(h4, rid)
  }

  function TransportsOf(r: RoomState, cids: set<CID>): set<ClientId> {
    set cid | cid in cids && cid in r.byCID && r.byCID[cid].client.Some? :: r.byCID[cid].client.value
  }

  /** The transport that a reconnect to `cid` pushes out, if any. */
  function EvictGhost(h: HubState, former: Option<ClientId>): HubState {
    match former
    case None => h
    case Some(g) => Deregister(h, g)
  }

  /** The reconnect found a record: take its slot, or give it back suspended when
      the capability does not suffice. */
  function JoinExisting(h: HubState, c: ClientId, req: JoinRequest): HubState
    requires req.rid in h.rooms && req.reconnectCid in h.rooms[req.rid].byCID
  {
    var rid, cid, r := req.rid, req.reconnectCid, h.rooms[req.rid];
    var former := r.byCID[cid].client;
    var taken := TakeSlot(r, cid, c);
    var claimed := Claim(h, c, cid, rid);
    if ClientMax(req) < r.maxParticipants then
      var back := EvictGhost(PutRoom(claimed, rid, Park(taken, cid, h.now)), former);
      var told := if former.Some? && back.rooms[rid].byClient != map[] then BroadcastState(back, rid) else back;
      SendError(told, c, RoomCapacityUnsupported)
    else
      Admit(EvictGhost(PutRoom(claimed, rid, taken), former), c, rid, taken, cid, Reattached)
  }

  /** No record to return to: lock the capacity, check it, and attach a new record. */
  function JoinNew(h: HubState, c: ClientId, req: JoinRequest, newCid: CID): HubState
    requires req.rid in h.rooms
  {
    var rid := req.rid;
    var r := if !h.rooms[rid].locked && |h.rooms[rid].byCID| == 1
             then LockCapacity(h.rooms[rid], ClientMax(req)) else h.rooms[rid];
    var h1 := PutRoom(h, rid, r);
    if ClientMax(req) < r.maxParticipants then SendError(h1, c, RoomCapacityUnsupported)
    else if |r.byCID| >= r.maxParticipants then SendError(h1, c, RoomFull)
    else
      var cid := if Proven(req) then req.reconnectCid else newCid;
      Admit(Claim(h1, c, cid, rid), c, rid, Attach(r, cid, c, req.capability), cid,
            if Proven(req) then Recovered else Fresh)
  }

  function JoinRoom(h: HubState, c: ClientId, req: JoinRequest, newCid: CID): HubState {
    var e := EnsureRoom(h, req.rid, CreateMax(req, h.limit));
    if req.reconnectCid != NO_CID && req.reconnectCid in e.rooms[req.rid].byCID
    then JoinExisting(e, c, req)
    else JoinNew(e, c, req, newCid)
  }

  /** handleJoin */
  ghost function HandleJoin(h: HubState, c: ClientId, req: JoinRequest, newCid: CID, pick: CID): HubState {
    if req.rid == NO_RID then SendError(h, c, BadRequest)
    else if req.check == SecretMissing then SendError(h, c, ServerNotConfigured)
    else if req.check == InvalidId then SendError(h, c, InvalidRoomId)
    else if PresentsToken(req) && req.verdict != TokenOk then
      SendError(if req.verdict == TokenExpired then EvictExpired(h, req.rid, req.reconnectCid, pick) else h,
                c, InvalidReconnectToken)
    else if Proven(req) && TombstoneActive(h, req.rid) then SendError(h, c, RoomEndedError)
    else JoinRoom(if Proven(req) then SweepTombstone(h, req.rid) else h, c, req, newCid)
  }

  /** The join message: an earlier room is left first. */
  ghost function JoinMessage(h: HubState, c: ClientId, req: JoinRequest, newCid: CID, pick: CID, pick2: CID): HubState {
    HandleJoin(if Info(h, c).rid != NO_RID then LeaveRoom(h, c, pick) else h, c, req, newCid, pick2)
  }

  // ----- the other messages ----------------------------------------------------

  function GcTombstones(tombstones: map<RID, int>, now: int): map<RID, int> {
    map rid | rid in tombstones && now <= tombstones[rid] :: tombstones[rid]
  }

  /** handleEndRoom */
  function EndRoom(h: HubState, c: ClientId): HubState {
    var rid := Info(h, c).rid;
    if rid == NO_RID || rid !in h.rooms then h
    else if !(c in h.rooms[rid].byClient && h.rooms[rid].byClient[c] == h.rooms[rid].host)
    then SendError(h, c, NotHost)
    else
      var told := Send(h, h.rooms[rid].byClient.Keys, RoomEnded(rid));
      var dead := told.(tombstones := GcTombstones(h.tombstones[rid := h.now + ROOM_TOMBSTONE_TTL], h.now));
      Status(DropRoom(dead, rid), rid)
  }

  predicate Negotiates(kind: Kind) {
    !kind.ContentState?
  }

  /** The members a relayed message of `sender` is meant for. */
  function Audience(r: RoomState, sender: CID, to: CID): set<CID> {
    set cid | cid in r.byCID && cid != sender && (to == NO_CID || to == cid)
  }

  function SuspendedAudience(r: RoomState, sender: CID, to: CID): set<CID> {
    set cid | cid in Audience(r, sender, to) && r.byCID[cid].client.None?
  }

  /** handleRelay */
  function RelayMessage(h: HubState, c: ClientId, kind: Kind, to: CID): HubState {
    var rid := Info(h, c).rid;
    if rid == NO_RID || rid !in h.rooms || c !in h.rooms[rid].byClient then h
    else
      var r := h.rooms[rid];
      var sender := r.byClient[c];
      var told := Send(h, TransportsOf(r, Audience(r, sender, to)), Relay(sender, kind));
      var missed := if Negotiates(kind) then SuspendedAudience(r, sender, to) else {};
      var marked := PutRoom(told, rid, MarkMissed(r, sender, missed));
      if missed != {} then Send(marked, {c}, RelayFailed(missed)) else marked
  }

  /** The loop over the ghosts of a media_liveness report, in some order. */
  ghost function EvictAll(h: HubState, rid: RID, id: nat, order: seq<CID>, picks: seq<CID>): HubState
    requires |picks| == |order|
    decreases |order|
  {
    if order == [] then h
    else EvictAll(EvictionFires(h, rid, id, order[0], picks[0]), rid, id, order[1..], picks[1..])
  }

  predicate LivenessAccepted(h: HubState, c: ClientId) {
    && Info(h, c).rid != NO_RID && Info(h, c).cid != NO_CID
    && Info(h, c).rid in h.rooms
    && c in h.rooms[Info(h, c).rid].byClient
  }

  /** The room after the reports of a media_liveness message are recorded. */
  function Reported(h: HubState, c: ClientId, reports: seq<CID>): RoomState
    requires LivenessAccepted(h, c)
  {
    var r := h.rooms[Info(h, c).rid];
    RecordReports(r, r.byClient[c], reports, h.now / MILLISECOND)
  }

  /** handleMediaLiveness */
  ghost function LivenessMessage(
      h: HubState, c: ClientId, reports: seq<CID>, order: seq<CID>, picks: seq<CID>)
    : HubState
    requires |picks| == |order|
  {
    if !LivenessAccepted(h, c) then h
    else
      var rid, r := Info(h, c).rid, Reported(h, c, reports);
      EvictAll(PutRoom(h, rid, r), rid, r.id, order, picks)
  }

  function Watch(watchers: map<RID, set<ClientId>>, c: ClientId, rids: set<RID>): map<RID, set<ClientId>> {
    map rid | rid in watchers.Keys + rids ::
      (if rid in watchers then watchers[rid] else {}) + (if rid in rids then {c} else {})
  }

  /** handleWatchRooms; `rids` are the requested identifiers that validate. */
  function WatchRooms(h: HubState, c: ClientId, rids: set<RID>): HubState {
    Send(h.(watchers := Watch(Unwatch(h.watchers, c), c, rids)), {c},
         RoomStatuses(map rid | rid in rids :: Count(h, rid)))
  }

  // ----- steps -----------------------------------------------------------------

  datatype Event =
    | WsConnect(c: ClientId, sid: SID)
    | SseConnect(c: ClientId, sid: SID)
    | SseTakeover(sid: SID)
    | SseAbandon(c: ClientId)
    | Drop(c: ClientId)
    | Join(c: ClientId, req: JoinRequest, newCid: CID, pick: CID, pick2: CID)
    | Leave(c: ClientId, pick: CID)
    | End(c: ClientId)
    | RelayEvent(c: ClientId, kind: Kind, to: CID)
    | Liveness(c: ClientId, reports: seq<CID>, order: seq<CID>, picks: seq<CID>)
    | WatchEvent(c: ClientId, rids: set<RID>)
    | HttpLeave(rid: RID, cid: CID, pick: CID)
    | EvictTimer(rid: RID, id: nat, cid: CID, pick: CID)
    | IdleTimer(rid: RID, id: nat)

  /** What the environment promises about an event at time `at`: clocks do not run
      backwards, generated identifiers and transports are new, and a ghost scan
      is run over the set it found. */
  ghost predicate Enabled(h: HubState, e: Event, at: int) {
    && h.now <= at
    && match e
       case WsConnect(c, sid) => c !in h.info && sid !in h.bySID
       case SseConnect(c, sid) => c !in h.info
       case Join(c, req, newCid, _, _) => newCid != NO_CID && (req.rid in h.rooms ==> newCid !in h.rooms[req.rid].byCID)
       case Liveness(c, reports, order, picks) =>
         && |picks| == |order|
         && (forall i, j :: 0 <= i < j < |order| ==> order[i] != order[j])
         && (c in h.clients && LivenessAccepted(h.(now := at), c) ==>
               (set cid | cid in order) == Ghosts(Reported(h.(now := at), c, reports), at / MILLISECOND))
       case _ => true
  }

  /** A message is handled only for a registered transport. */
  ghost function Handle(h: HubState, e: Event): HubState
    requires e.Liveness? ==> |e.picks| == |e.order|
  {
    match e
    case WsConnect(c, sid) => Register(h, c, sid)
    case SseConnect(c, sid) => ServeSSE(h, c, sid)
    case SseTakeover(sid) => PromotePending(h, sid)
    case SseAbandon(c) => AbandonSSE(h, c)
    case Drop(c) => Disconnect(h, c)
    case Join(c, req, newCid, pick, pick2) => if c in h.clients then JoinMessage(h, c, req, newCid, pick, pick2) else h
    case Leave(c, pick) => if c in h.clients && Info(h, c).rid != NO_RID then LeaveRoom(h, c, pick) else h
    case End(c) => if c in h.clients then EndRoom(h, c) else h
    case RelayEvent(c, kind, to) => if c in h.clients then RelayMessage(h, c, kind, to) else h
    case Liveness(c, reports, order, picks) =>
      if c in h.clients then LivenessMessage(h, c, reports, order, picks) else h
    case WatchEvent(c, rids) => if c in h.clients then WatchRooms(h, c, rids) else h
    case HttpLeave(rid, cid, pick) => EvictByLeave(h, rid, cid, pick)
    case EvictTimer(rid, id, cid, pick) => EvictionFires(h, rid, id, cid, pick)
    case IdleTimer(rid, id) => IdleFires(h, rid, id)
  }

  ghost function Step(h: HubState, e: Event, at: int): HubState
    requires Enabled(h, e, at)
  {
    Handle(h.(now := at), e)
  }
}
