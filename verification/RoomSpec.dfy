/** The room operations as functions on values.  The methods of `Room` are proved
    against these, and the room invariant is proved about them. */
module RoomSpec {
  import opened Wrappers
  import opened SignalingTypes

  predicate Suspended(r: RoomState, cid: CID) {
    cid in r.byCID && r.byCID[cid].client.None?
  }

  predicate AttachedTo(r: RoomState, cid: CID, c: ClientId) {
    cid in r.byCID && r.byCID[cid].client == Some(c)
  }

  function SuspendedCIDs(r: RoomState): set<CID> {
    set cid | cid in r.byCID && r.byCID[cid].client.None?
  }

  function Snap(r: RoomState): Snapshot {
    Snapshot(r.epoch, r.host, r.maxParticipants, r.byCID.Keys, SuspendedCIDs(r))
  }

  function NewRoom(id: nat, createMax: int): RoomState {
    RoomState(id, map[], map[], NO_CID, if createMax > 2 then 2 else createMax, createMax, createMax <= 2,
              0, map[], map[], map[], None, [])
  }

  /** The no-active timer is armed when the last transport has gone, and left
      alone when it is armed already. */
  function ArmIdle(r: RoomState, now: int): RoomState {
    r.(idleAt := if r.byClient == map[] && r.byCID != map[] && r.idleAt.None?
                 then Some(now + NO_ACTIVE_ROOM_TIMEOUT)
                 else r.idleAt)
  }

  function Attach(r: RoomState, cid: CID, c: ClientId, cap: Option<int>): RoomState {
    r.(byCID := r.byCID[cid := Participant(Some(c), 0, None, cap)],
       byClient := r.byClient[c := cid],
       idleAt := None)
  }

  /** `c` takes the slot of `cid`: a suspended record is reattached, and an
      active ghost is dropped from the index first. */
  function TakeSlot(r: RoomState, cid: CID, c: ClientId): RoomState
    requires cid in r.byCID
  {
    r.(byCID := r.byCID[cid := r.byCID[cid].(client := Some(c), suspendedAt := 0, evictAt := None)],
       byClient := Unlinked(r, cid)[c := cid],
       idleAt := None)
  }

  /** The index without the transport of `cid`. */
  function Unlinked(r: RoomState, cid: CID): map<ClientId, CID>
    requires cid in r.byCID
  {
    match r.byCID[cid].client
    case None => r.byClient
    case Some(c) => r.byClient - {c}
  }

  /** Detaches the transport of `cid` and starts the eviction timer of its record. */
  function Park(r: RoomState, cid: CID, now: int): RoomState
    requires cid in r.byCID
  {
    ArmIdle(
      r.(byCID := r.byCID[cid := r.byCID[cid].(client := None, suspendedAt := now,
                                              evictAt := Some(now + SUSPEND_HARD_EVICTION_TIMEOUT))],
         byClient := Unlinked(r, cid)),
      now)
  }

  /** A transport drop keeps the record and bumps the epoch. */
  function Suspend(r: RoomState, cid: CID, now: int): RoomState
    requires cid in r.byCID
  {
    var d := Park(r, cid, now);
    d.(epoch := d.epoch + 1)
  }

  /** The deferral of an eviction while peers still see media. */
  function Defer(r: RoomState, cid: CID, now: int): RoomState
    requires cid in r.byCID
  {
    r.(byCID := r.byCID[cid := r.byCID[cid].(evictAt := Some(now + HARD_EVICT_MEDIA_ACTIVE_DEFERRAL))])
  }

  function LockCapacity(r: RoomState, clientMax: int): RoomState {
    r.(maxParticipants := Min(clientMax, Max(2, r.requestedMax)), locked := true)
  }

  /** The senders that owe `cid` a renegotiation. */
  function DirtyPartners(dirty: map<CID, set<CID>>, cid: CID): set<CID> {
    set f | f in dirty && cid in dirty[f]
  }

  function DrainDirty(dirty: map<CID, set<CID>>, cid: CID): map<CID, set<CID>> {
    map f | f in dirty && (cid in dirty[f] ==> dirty[f] - {cid} != {}) :: dirty[f] - {cid}
  }

  function DropDirty(dirty: map<CID, set<CID>>, cid: CID): map<CID, set<CID>> {
    map f | f in dirty && f != cid && dirty[f] - {cid} != {} :: dirty[f] - {cid}
  }

  function MarkDirty(dirty: map<CID, set<CID>>, from: CID, targets: set<CID>): map<CID, set<CID>> {
    if targets == {} then dirty
    else dirty[from := (if from in dirty then dirty[from] else {}) + targets]
  }

  /** The end of every accepted join: a host if there is none, a new epoch, and
      the dirty pairs that waited for `cid` handed out. */
  function Complete(r: RoomState, cid: CID): RoomState {
    r.(host := if r.host == NO_CID then cid else r.host,
       epoch := r.epoch + 1,
       dirty := DrainDirty(r.dirty, cid),
       log := r.log + [Attached(cid)])
  }

  function MarkMissed(r: RoomState, from: CID, targets: set<CID>): RoomState {
    if targets == {} then r
    else r.(dirty := MarkDirty(r.dirty, from, targets), log := r.log + [Missed(from, targets)])
  }

  /** Map iteration order decides between candidates: `pick` stands for it. */
  ghost function Choose(candidates: set<CID>, pick: CID): (x: CID)
    requires candidates != {}
    ensures x in candidates
    ensures pick in candidates ==> x == pick
  {
    if pick in candidates then pick else var x :| x in candidates; x
  }

  /** An attached participant if there is one, else any record, else nobody. */
  ghost function NextHost(byCID: map<CID, Participant>, byClient: map<ClientId, CID>, pick: CID): CID {
    if byClient.Values != {} then Choose(byClient.Values, pick)
    else if byCID.Keys != {} then Choose(byCID.Keys, pick)
    else NO_CID
  }

  /** Every table forgets `cid`; a host that leaves is replaced. */
  ghost function Expel(r: RoomState, cid: CID, pick: CID): RoomState
    requires cid in r.byCID
  {
    var left, index := r.byCID - {cid}, Unlinked(r, cid);
    r.(byCID := left,
       byClient := index,
       dirty := DropDirty(r.dirty, cid),
       liveness := r.liveness - {cid},
       reporters := r.reporters - {cid},
       host := if r.host == cid then NextHost(left, index, pick) else r.host,
       epoch := r.epoch + 1,
       log := r.log + [Removed(cid)])
  }

  /** The one abstract removal that all four removal paths perform. */
  ghost function Remove(r: RoomState, cid: CID, pick: CID, now: int): RoomState
    requires cid in r.byCID
  {
    ArmIdle(Expel(r, cid, pick), now)
  }

  /** A takeover hands the record of `prev` to `next`. */
  function SwapTransport(r: RoomState, prev: ClientId, next: ClientId): RoomState
    requires prev in r.byClient
  {
    var cid := r.byClient[prev];
    r.(byCID := if cid in r.byCID then r.byCID[cid := r.byCID[cid].(client := Some(next))] else r.byCID,
       byClient := (r.byClient - {prev})[next := cid])
  }

  /** Latest-wins timestamps. */
  function Stamp(m: map<CID, int>, cid: CID, atMs: int): map<CID, int> {
    if cid in m && m[cid] >= atMs then m else m[cid := atMs]
  }

  function StampAll(m: map<CID, int>, cids: set<CID>, atMs: int): map<CID, int> {
    map cid | cid in m.Keys + cids ::
      if cid in cids && (cid in m ==> m[cid] < atMs) then atMs else m[cid]
  }

  /** The reported CIDs a media_liveness message may stamp. */
  function Reportable(r: RoomState, sender: CID, reports: seq<CID>): set<CID> {
    set cid | cid in reports && cid != NO_CID && cid != sender && cid in r.byCID
  }

  function RecordReports(r: RoomState, sender: CID, reports: seq<CID>, nowMs: int): RoomState {
    r.(reporters := Stamp(r.reporters, sender, nowMs),
       liveness := StampAll(r.liveness, Reportable(r, sender, reports), nowMs))
  }

  /** Some peer reported media from `cid` within the freshness window. */
  predicate RecentMedia(r: RoomState, cid: CID, now: int) {
    cid in r.liveness && now - r.liveness[cid] * MILLISECOND <= MEDIA_LIVENESS_FRESHNESS_WINDOW
  }

  predicate Excluded(r: RoomState, cid: CID, nowMs: int) {
    && Suspended(r, cid)
    && r.byCID[cid].suspendedAt != 0
    && nowMs - r.byCID[cid].suspendedAt / MILLISECOND >= GHOST_EVICT_MIN_DWELL / MILLISECOND
    && !(cid in r.liveness && nowMs - r.liveness[cid] <= MEDIA_LIVENESS_FRESHNESS_WINDOW / MILLISECOND)
  }

  /** A currently attached peer other than `cid` that reported recently. */
  predicate FreshReporter(r: RoomState, peer: CID, cid: CID, nowMs: int) {
    && peer != cid
    && peer in r.byCID
    && r.byCID[peer].client.Some?
    && peer in r.reporters
    && nowMs - r.reporters[peer] <= MEDIA_LIVENESS_FRESHNESS_WINDOW / MILLISECOND
  }

  ghost predicate AnyFreshReporter(r: RoomState, cid: CID, nowMs: int) {
    exists peer :: FreshReporter(r, peer, cid, nowMs)
  }

  /** The nested scan of suspendedGhostsExcludedByActiveReporters. */
  ghost function Ghosts(r: RoomState, nowMs: int): set<CID> {
    set cid | cid in r.byCID && Excluded(r, cid, nowMs) && AnyFreshReporter(r, cid, nowMs)
  }
}
