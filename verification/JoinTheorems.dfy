/** What a join does, said in terms of the request as it came in and of the hub's state. */
module JoinTheorems {
  import opened Wrappers
  import opened SignalingTypes
  import opened RoomSpec
  import opened RoomInvariant
  import opened HubSpec
  import opened HubInvariant
  import opened HubSteps
  import opened RoomHistory
  import opened HubTheorems
  import opened EventTheorems
  import opened MessageTheorems
  import opened NegotiationTheorems
  import opened ReachableRooms

  // ----- the request ------------------------------------------------------------------------------

  /** The largest room that the client declares to support; a client that declares nothing
      or less supports two. */
  function Declared(req: JoinRequest): int {
    if req.capability.Some? && req.capability.value > 2 then req.capability.value else 2
  }

  /** The size asked for a new room: at least two, at most what the client declares and
      what the server allows. */
  function Asked(req: JoinRequest, limit: int): int {
    var wanted := if req.createMax < 2 then 2 else req.createMax;
    var supported := if wanted > Declared(req) then Declared(req) else wanted;
    if supported > limit then limit else supported
  }

  /** The request names a participant and proves to be it. */
  predicate Proves(req: JoinRequest) {
    req.reconnectCid != NO_CID && req.tokenGiven && req.verdict == TokenOk
  }

  /** The checks before the room: a room that validates, no token that fails, and, for a
      proven identity, no room that ended within the last five minutes. */
  predicate Passes(h: HubState, req: JoinRequest, at: int) {
    && req.rid != NO_RID && req.check == ValidId
    && (req.reconnectCid != NO_CID && req.tokenGiven ==> req.verdict == TokenOk)
    && !(Proves(req) && req.rid in h.tombstones && at <= h.tombstones[req.rid])
  }

  lemma SizesAre(req: JoinRequest, limit: int)
    ensures ClientMax(req) == Declared(req) && CreateMax(req, limit) == Asked(req, limit)
    ensures Proven(req) == Proves(req)
  {}

  // ----- the way to the room -----------------------------------------------------------------------

  /** The join of a transport that sits in a room is its leave, followed by the join. */
  lemma JoinLeavesFirst(h: HubState, c: ClientId, req: JoinRequest, newCid: CID, pick: CID, pick2: CID, other: CID,
      at: int)
    requires Core(h) && c in h.clients && Enabled(h, Join(c, req, newCid, pick, pick2), at)
    ensures Enabled(h, Leave(c, pick), at)
    ensures
      var l := Step(h, Leave(c, pick), at);
      && Unattached(l, c) && Enabled(l, Join(c, req, newCid, other, pick2), at)
      && Step(h, Join(c, req, newCid, pick, pick2), at) == Step(l, Join(c, req, newCid, other, pick2), at)
  {
    hide Core, HandleJoin, LeaveRoom, HubQuiet;
    var n := h.(now := at);
    ClockKeeps(h, at);
    LeavingFirst(n, c, pick);
    var l := AfterLeave(n, c, pick);
    NothingLeft(l, c, other);
    if req.rid in l.rooms {
      QuietMembers(n, l, req.rid);
    }
    LeavesFirst(n, c, req, newCid, pick, pick2);
    LeavesFirst(l, c, req, newCid, other, pick2);
    LeaveIs(h, c, pick, at);
    assert l.(now := at) == l;
  }

  lemma LeaveIs(h: HubState, c: ClientId, pick: CID, at: int)
    requires h.now <= at && c in h.clients
    ensures Enabled(h, Leave(c, pick), at) && Step(h, Leave(c, pick), at) == AfterLeave(h.(now := at), c, pick)
  {
    hide LeaveRoom;
  }

  /** A request that passes reaches the room with nothing changed but an expired tombstone. */
  lemma JoinReaches(h: HubState, c: ClientId, req: JoinRequest, newCid: CID, pick: CID, pick2: CID, at: int)
    requires Core(h) && c in h.clients && Unattached(h, c) && Enabled(h, Join(c, req, newCid, pick, pick2), at)
    requires Passes(h, req, at)
    ensures
      var x := h.(now := at, tombstones := if Proves(req) then h.tombstones - {req.rid} else h.tombstones);
      && JoinReady(x, c, req, newCid)
      && Step(h, Join(c, req, newCid, pick, pick2), at) == JoinRoom(x, c, req, newCid)
  {
    hide Core, JoinRoom, JoinMessage, HubQuiet, LeaveRoom;
    var n := h.(now := at);
    ClockKeeps(h, at);
    NothingLeft(n, c, pick);
    JoinSplit(n, c, req, newCid, pick, pick2);
    Swept(n, req, at);
  }

  /** A room that is there has no tombstone. */
  lemma JoinMeetsRoom(h: HubState, c: ClientId, req: JoinRequest, newCid: CID, pick: CID, pick2: CID, at: int)
    requires Core(h) && c in h.clients && Unattached(h, c) && Enabled(h, Join(c, req, newCid, pick, pick2), at)
    requires Passes(h, req, at) && req.rid in h.rooms
    ensures JoinReady(h.(now := at), c, req, newCid)
    ensures Step(h, Join(c, req, newCid, pick, pick2), at) == JoinRoom(h.(now := at), c, req, newCid)
  {
    hide Core, RoomInv, JoinRoom, Step, Enabled, Unattached, Passes, JoinReady;
    JoinReaches(h, c, req, newCid, pick, pick2, at);
    RoomOf(h, req.rid);
    assert h.tombstones - {req.rid} == h.tombstones;
  }

  lemma Swept(n: HubState, req: JoinRequest, at: int)
    requires n.now == at && Passes(n, req, at)
    ensures Reaches(n, req)
    ensures (if Proven(req) then SweepTombstone(n, req.rid) else n)
         == n.(tombstones := if Proves(req) then n.tombstones - {req.rid} else n.tombstones)
  {
    assert req.rid !in n.tombstones ==> n.tombstones - {req.rid} == n.tombstones;
  }

  // ----- a new room ----------------------------------------------------------------------------------

  /** The state of a room as its messages show it. */
  function Shown(r: RoomState): Snapshot {
    Snapshot(r.epoch, r.host, r.maxParticipants, r.byCID.Keys, set cid | cid in r.byCID && r.byCID[cid].client.None?)
  }

  lemma ShownIs(r: RoomState)
    ensures Snap(r) == Shown(r)
  {}

  /** The transport claims the participant. */
  function Claimed(h: HubState, c: ClientId, cid: CID, rid: RID): map<ClientId, ClientInfo> {
    h.info[c := Info(h, c).(cid := cid, rid := rid)]
  }

  /** A join to a room that is not there founds it: with the size asked for, provisionally
      two, and the joiner as its only member and host, under the proven identity or a
      generated one. */
  lemma JoinFounds(h: HubState, c: ClientId, req: JoinRequest, newCid: CID, pick: CID, pick2: CID, at: int)
    requires Core(h) && c in h.clients && Unattached(h, c) && Enabled(h, Join(c, req, newCid, pick, pick2), at)
    requires Passes(h, req, at) && req.rid !in h.rooms
    ensures
      var k, rid := Step(h, Join(c, req, newCid, pick, pick2), at), req.rid;
      var cid, size := if Proves(req) then req.reconnectCid else newCid, Asked(req, h.limit);
      var member, outcome := Participant(Some(c), 0, None, req.capability), if Proves(req) then Recovered else Fresh;
      var founded := RoomState(h.nextRoom, map[cid := member], map[c := cid], cid,
                               2, size, size <= 2, 1, map[], map[], map[], None, [Attached(cid)]);
      && k.rooms == h.rooms[rid := founded] && k.tombstones == h.tombstones - {rid} && k.now == at
      && SameTransports(h.(info := Claimed(h, c, cid, rid)), k)
      && h.sent + [Sent({c}, Joined(rid, h.nextRoom, Shown(founded), cid, outcome))] <= k.sent
  {
    hide Core, JoinRoom, Step, Enabled, Unattached, Passes;
    JoinReaches(h, c, req, newCid, pick, pick2, at);
    var x := h.(now := at, tombstones := if Proves(req) then h.tombstones - {req.rid} else h.tombstones);
    Agreed(x);
    Founds(x, c, req, newCid);
    FoundedTransports(x, c, req, newCid);
    JoinAnswer(x, c, req, newCid);
    JoinRooms(x, c, req, newCid);
  }

  lemma Founds(h: HubState, c: ClientId, req: JoinRequest, newCid: CID)
    requires req.rid !in h.rooms && h.limit >= 2
    ensures
      var cid, size := if Proves(req) then req.reconnectCid else newCid, Asked(req, h.limit);
      && FateOf(h, req).Founded? && Seat(h, req, newCid) == cid
      && FateRoom(h, c, req, newCid)
         == RoomState(h.nextRoom, map[cid := Participant(Some(c), 0, None, req.capability)], map[c := cid], cid,
                      2, size, size <= 2, 1, map[], map[], map[], None, [Attached(cid)])
      && OutcomeOf(h, req) == if Proves(req) then Recovered else Fresh
  {
    SizesAre(req, h.limit);
  }

  lemma FoundedTransports(h: HubState, c: ClientId, req: JoinRequest, newCid: CID)
    requires req.rid !in h.rooms && h.limit >= 2
    ensures
      var k, cid := JoinRoom(h, c, req, newCid), if Proves(req) then req.reconnectCid else newCid;
      && SameTransports(h.(info := Claimed(h, c, cid, req.rid)), k) && k.tombstones == h.tombstones - {req.rid}
  {
    hide Complete, Attach, Admit, JoinRoom, CreateMax;
    FoundingIs(h, c, req, newCid);
    var cid, n := if Proven(req) then req.reconnectCid else newCid, NewRoom(h.nextRoom, CreateMax(req, h.limit));
    AdmitOnly(Claim(PutRoom(h.(nextRoom := h.nextRoom + 1), req.rid, n), c, cid, req.rid), c, req.rid,
              Attach(n, cid, c, req.capability), cid, if Proven(req) then Recovered else Fresh);
  }

  // ----- a newcomer ------------------------------------------------------------------------------------

  /** What the second member locks the room to; a locked room keeps its maximum. */
  function SizeFor(r: RoomState, req: JoinRequest): int {
    if r.locked then r.maxParticipants
    else if Declared(req) < r.requestedMax then Declared(req) else r.requestedMax
  }

  /** `cid` is a new member with transport `c`, and the room's size is final. */
  predicate SeatGiven(r: RoomState, s: RoomState, cid: CID, c: ClientId, req: JoinRequest) {
    s == r.(byCID := r.byCID[cid := Participant(Some(c), 0, None, req.capability)],
            byClient := r.byClient[c := cid], maxParticipants := SizeFor(r, req), locked := true,
            epoch := r.epoch + 1, idleAt := None, log := r.log + [Attached(cid)])
  }

  lemma SameNumber(r: RoomState, s: RoomState, cid: CID, c: ClientId, req: JoinRequest)
    ensures SeatGiven(r, s, cid, c, req) ==> s.id == r.id
  {}

  /** A join to a room that has no record of the participant.  A client that supports the
      room's final size and finds a free place gets it, under the proven identity or a
      generated one; otherwise it is told which of the two is missing, and no room changes. */
  lemma JoinAdmits(h: HubState, c: ClientId, req: JoinRequest, newCid: CID, pick: CID, pick2: CID, at: int)
    requires Core(h) && c in h.clients && Unattached(h, c) && Enabled(h, Join(c, req, newCid, pick, pick2), at)
    requires Passes(h, req, at) && req.rid in h.rooms
    requires req.reconnectCid == NO_CID || req.reconnectCid !in h.rooms[req.rid].byCID
    ensures
      var k, r, rid := Step(h, Join(c, req, newCid, pick, pick2), at), h.rooms[req.rid], req.rid;
      var cid, size := if Proves(req) then req.reconnectCid else newCid, SizeFor(r, req);
      && k.tombstones == h.tombstones && k.now == at
      && if Declared(req) < size || |r.byCID| >= size then
           && k.rooms == h.rooms && SameTransports(h, k)
           && k.sent == h.sent + [Sent({c}, Error(if Declared(req) < size then RoomCapacityUnsupported else RoomFull))]
         else
           && rid in k.rooms && k.rooms - {rid} == h.rooms - {rid}
           && var s := k.rooms[rid];
           && SeatGiven(r, s, cid, c, req) && SameTransports(h.(info := Claimed(h, c, cid, rid)), k)
           && h.sent + [Sent({c}, Joined(rid, r.id, Shown(s), cid, if Proves(req) then Recovered else Fresh))] <= k.sent
  {
    hide Core, RoomInv, JoinRoom, Step, Enabled, Unattached, Passes, SizeFor, SeatGiven, JoinReady, Shown, Declared;
    JoinMeetsRoom(h, c, req, newCid, pick, pick2, at);
    AdmitsReady(h.(now := at), c, req, newCid);
  }

  lemma AdmitsReady(h: HubState, c: ClientId, req: JoinRequest, newCid: CID)
    requires JoinReady(h, c, req, newCid) && req.rid in h.rooms
    requires req.reconnectCid == NO_CID || req.reconnectCid !in h.rooms[req.rid].byCID
    ensures
      var k, r, rid := JoinRoom(h, c, req, newCid), h.rooms[req.rid], req.rid;
      var cid, size := if Proves(req) then req.reconnectCid else newCid, SizeFor(r, req);
      && k.tombstones == h.tombstones && k.now == h.now
      && if Declared(req) < size || |r.byCID| >= size then
           && k.rooms == h.rooms && SameTransports(h, k)
           && k.sent == h.sent + [Sent({c}, Error(if Declared(req) < size then RoomCapacityUnsupported else RoomFull))]
         else
           && rid in k.rooms && k.rooms - {rid} == h.rooms - {rid}
           && var s := k.rooms[rid];
           && SeatGiven(r, s, cid, c, req) && SameTransports(h.(info := Claimed(h, c, cid, rid)), k)
           && h.sent + [Sent({c}, Joined(rid, r.id, Shown(s), cid, if Proves(req) then Recovered else Fresh))] <= k.sent
  {
    hide Core, RoomInv, JoinRoom, Unattached, SizeFor, SeatGiven, Proves, Shown, Declared, Claimed, JoinReady;
    var r := h.rooms[req.rid];
    if Declared(req) < SizeFor(r, req) || |r.byCID| >= SizeFor(r, req) {
      NewcomerTurnedAway(h, c, req, newCid);
    } else {
      NewcomerSeated(h, c, req, newCid);
    }
  }

  lemma NewcomerTurnedAway(h: HubState, c: ClientId, req: JoinRequest, newCid: CID)
    requires JoinReady(h, c, req, newCid) && req.rid in h.rooms
    requires req.reconnectCid == NO_CID || req.reconnectCid !in h.rooms[req.rid].byCID
    requires
      var r := h.rooms[req.rid];
      Declared(req) < SizeFor(r, req) || |r.byCID| >= SizeFor(r, req)
    ensures
      var k, r := JoinRoom(h, c, req, newCid), h.rooms[req.rid];
      var code := if Declared(req) < SizeFor(r, req) then RoomCapacityUnsupported else RoomFull;
      && k.tombstones == h.tombstones && k.now == h.now && k.rooms == h.rooms && SameTransports(h, k)
      && k.sent == h.sent + [Sent({c}, Error(code))]
  {
    hide Core, RoomInv, JoinRoom, Unattached, Indexed, Timed, Populated, CapacitySafe, Negotiated;
    hide Bounded, FateOf, FateRoom, RefusalCode, SizeFor, Declared;
    var r := h.rooms[req.rid];
    RoomOf(h, req.rid);
    Parts(r, h.limit, h.now);
    Admits(h, c, req, newCid);
    AdmittedTransports(h, c, req, newCid);
    JoinRooms(h, c, req, newCid);
    assert h.rooms[req.rid := r] == h.rooms;
  }

  lemma NewcomerSeated(h: HubState, c: ClientId, req: JoinRequest, newCid: CID)
    requires JoinReady(h, c, req, newCid) && req.rid in h.rooms
    requires req.reconnectCid == NO_CID || req.reconnectCid !in h.rooms[req.rid].byCID
    requires
      var r := h.rooms[req.rid];
      !(Declared(req) < SizeFor(r, req) || |r.byCID| >= SizeFor(r, req))
    ensures
      var k, r, rid := JoinRoom(h, c, req, newCid), h.rooms[req.rid], req.rid;
      var cid := if Proves(req) then req.reconnectCid else newCid;
      && k.tombstones == h.tombstones && k.now == h.now
      && rid in k.rooms && k.rooms - {rid} == h.rooms - {rid}
      && var s := k.rooms[rid];
      && SeatGiven(r, s, cid, c, req) && SameTransports(h.(info := Claimed(h, c, cid, rid)), k)
      && h.sent + [Sent({c}, Joined(rid, r.id, Shown(s), cid, if Proves(req) then Recovered else Fresh))] <= k.sent
  {
    hide Core, RoomInv, JoinRoom, Unattached, Indexed, Timed, Populated, CapacitySafe, Negotiated;
    hide Bounded, FateOf, FateRoom, OutcomeOf, RefusalCode, SizeFor, SeatGiven, Proves, Snap, Shown, Declared, Seat;
    var r := h.rooms[req.rid];
    RoomOf(h, req.rid);
    Parts(r, h.limit, h.now);
    Admits(h, c, req, newCid);
    SameNumber(r, FateRoom(h, c, req, newCid), if Proves(req) then req.reconnectCid else newCid, c, req);
    AdmittedTransports(h, c, req, newCid);
    ShownIs(FateRoom(h, c, req, newCid));
    JoinAnswer(h, c, req, newCid);
    JoinRooms(h, c, req, newCid);
    assert h.tombstones - {req.rid} == h.tombstones;
  }

  lemma Admits(h: HubState, c: ClientId, req: JoinRequest, newCid: CID)
    requires req.rid in h.rooms && (req.reconnectCid == NO_CID || req.reconnectCid !in h.rooms[req.rid].byCID)
    requires newCid !in h.rooms[req.rid].byCID
    requires Populated(h.rooms[req.rid]) && CapacitySafe(h.rooms[req.rid], h.limit) && Negotiated(h.rooms[req.rid])
    ensures
      var r, cid := h.rooms[req.rid], if Proves(req) then req.reconnectCid else newCid;
      var size := SizeFor(r, req);
      if Declared(req) < size || |r.byCID| >= size then
        && FateOf(h, req).Rejected? && FateRoom(h, c, req, newCid) == r
        && RefusalCode(h, req) == (if Declared(req) < size then RoomCapacityUnsupported else RoomFull)
      else
        && FateOf(h, req).Admitted? && Seat(h, req, newCid) == cid
        && OutcomeOf(h, req) == (if Proves(req) then Recovered else Fresh)
        && SeatGiven(r, FateRoom(h, c, req, newCid), cid, c, req)
  {
    hide Pending;
    SizesAre(req, h.limit);
    var r, cid := h.rooms[req.rid], if Proves(req) then req.reconnectCid else newCid;
    NothingToDrain(r, cid);
  }

  lemma NothingToDrain(r: RoomState, cid: CID)
    requires Negotiated(r) && cid !in r.byCID
    ensures DrainDirty(r.dirty, cid) == r.dirty
  {
    hide Pending;
    forall f | f in r.dirty
      ensures cid !in r.dirty[f] && r.dirty[f] - {cid} == r.dirty[f]
    {
      assert Dirtied(r.dirty, f, cid) ==> Suspended(r, cid);
    }
  }

  lemma AdmittedTransports(h: HubState, c: ClientId, req: JoinRequest, newCid: CID)
    requires Core(h) && req.rid in h.rooms
    requires req.reconnectCid == NO_CID || req.reconnectCid !in h.rooms[req.rid].byCID
    ensures
      var k, cid := JoinRoom(h, c, req, newCid), if Proves(req) then req.reconnectCid else newCid;
      if FateOf(h, req).Rejected?
      then SameTransports(h, k) && k.sent == h.sent + [Sent({c}, Error(RefusalCode(h, req)))]
      else SameTransports(h.(info := Claimed(h, c, cid, req.rid)), k)
  {
    hide Core, Complete, Attach, Admit, JoinRoom, Met, FateOf;
    SizesAre(req, h.limit);
    PresentRoom(h, c, req, newCid);
    NewcomerIs(h, c, req, newCid);
    NewcomerFate(h, c, req, newCid);
    if !FateOf(h, req).Rejected? {
      var cid, r := if Proven(req) then req.reconnectCid else newCid, Met(h.rooms[req.rid], ClientMax(req));
      AdmitOnly(Claim(PutRoom(h, req.rid, r), c, cid, req.rid), c, req.rid, Attach(r, cid, c, req.capability), cid,
                if Proven(req) then Recovered else Fresh);
    }
  }

  // ----- a return --------------------------------------------------------------------------------------

  /** `g`, if there is one, is pushed out. */
  ghost predicate PushedOut(h: HubState, k: HubState, former: Option<ClientId>) {
    match former
    case None => k.clients == h.clients && k.bySID == h.bySID && k.watchers == h.watchers && k.pending == h.pending
    case Some(g) => Deregistered(h, k, g)
  }

  /** The index with `c` for whatever transport `cid` had. */
  function Reindexed(r: RoomState, cid: CID, c: ClientId): map<ClientId, CID> {
    (map d | d in r.byClient && r.byClient[d] != cid :: r.byClient[d])[c := cid]
  }

  /** `c` has the seat of `cid`, and nobody waits to negotiate with it any more. */
  ghost predicate SeatTaken(r: RoomState, s: RoomState, cid: CID, c: ClientId)
    requires cid in r.byCID
  {
    && s == r.(byCID := r.byCID[cid := Participant(Some(c), 0, None, r.byCID[cid].cap)],
               byClient := Reindexed(r, cid, c), epoch := r.epoch + 1, dirty := s.dirty, idleAt := None,
               log := r.log + [Attached(cid)])
    && (forall f, t :: Dirtied(s.dirty, f, t) <==> Dirtied(r.dirty, f, t) && t != cid)
  }

  /** Nobody has the seat of `cid`, which is suspended as of now. */
  ghost predicate SeatParked(r: RoomState, s: RoomState, cid: CID, c: ClientId, now: int)
    requires cid in r.byCID
  {
    && s == r.(byCID := r.byCID[cid := Participant(None, now, Some(now + 600_000_000_000), r.byCID[cid].cap)],
               byClient := Reindexed(r, cid, c) - {c}, idleAt := s.idleAt)
    && s.idleAt == (if s.byClient == map[] then Some(now + 10_000_000_000) else None)
  }

  /** A join to a room that has a record of the participant pushes out the transport that
      the record has, if any.  A client that supports the room's size takes the seat, and
      whoever waited to negotiate with it waits no longer; the host stays.  Any other one
      is refused, and leaves the record suspended from now on, under the same epoch. */
  lemma JoinReturns(h: HubState, c: ClientId, req: JoinRequest, newCid: CID, pick: CID, pick2: CID, at: int)
    requires Core(h) && c in h.clients && Unattached(h, c) && Enabled(h, Join(c, req, newCid, pick, pick2), at)
    requires Passes(h, req, at) && req.rid in h.rooms
    requires req.reconnectCid != NO_CID && req.reconnectCid in h.rooms[req.rid].byCID
    ensures
      var k, r, rid, cid := Step(h, Join(c, req, newCid, pick, pick2), at), h.rooms[req.rid], req.rid, req.reconnectCid;
      && rid in k.rooms && k.rooms - {rid} == h.rooms - {rid} && k.tombstones == h.tombstones && k.now == at
      && PushedOut(h, k, r.byCID[cid].client) && k.info == Claimed(h, c, cid, rid)
      && var s := k.rooms[rid];
         if Declared(req) < r.maxParticipants then
           && SeatParked(r, s, cid, c, at)
           && |k.sent| > 0 && k.sent[|k.sent| - 1] == Sent({c}, Error(RoomCapacityUnsupported))
         else
           && SeatTaken(r, s, cid, c)
           && h.sent + [Sent({c}, Joined(rid, r.id, Shown(s), cid, Reattached))] <= k.sent
  {
    hide Core, RoomInv, JoinRoom, Step, Enabled, Passes, Bounded, Negotiated, CapacitySafe, PushedOut;
    hide Reindexed, SeatTaken, SeatParked, Indexed, Timed, Populated, FateOf, FateRoom, OutcomeOf, RefusalCode, Snap,
        Shown;
    JoinMeetsRoom(h, c, req, newCid, pick, pick2, at);
    var x := h.(now := at);
    RoomOf(h, req.rid);
    Parts(h.rooms[req.rid], h.limit, h.now);
    Returns(x, c, req, newCid);
    ReturnedTransports(x, c, req, newCid);
    ShownIs(FateRoom(x, c, req, newCid));
    JoinAnswer(x, c, req, newCid);
    JoinRooms(x, c, req, newCid);
    SamePushedOut(h, x, JoinRoom(x, c, req, newCid), h.rooms[req.rid].byCID[req.reconnectCid].client);
    SameRoom(h.rooms[req.rid], FateRoom(x, c, req, newCid), req.reconnectCid, c);
    assert h.tombstones - {req.rid} == h.tombstones;
  }

  lemma SamePushedOut(h: HubState, x: HubState, k: HubState, former: Option<ClientId>)
    requires SameTransports(h, x)
    ensures PushedOut(h, k, former) == PushedOut(x, k, former)
  {}

  lemma SameRoom(r: RoomState, s: RoomState, cid: CID, c: ClientId)
    requires cid in r.byCID
    ensures SeatTaken(r, s, cid, c) ==> s.id == r.id
  {}

  lemma Returns(h: HubState, c: ClientId, req: JoinRequest, newCid: CID)
    requires req.rid in h.rooms && req.reconnectCid != NO_CID && req.reconnectCid in h.rooms[req.rid].byCID
    requires Indexed(h.rooms[req.rid]) && Timed(h.rooms[req.rid]) && Populated(h.rooms[req.rid])
    requires c !in h.rooms[req.rid].byClient
    ensures
      var r, cid, s := h.rooms[req.rid], req.reconnectCid, FateRoom(h, c, req, newCid);
      if Declared(req) < r.maxParticipants then
        && FateOf(h, req).Refused? && RefusalCode(h, req) == RoomCapacityUnsupported
        && SeatParked(r, s, cid, c, h.now)
      else
        && FateOf(h, req).Rejoined? && Seat(h, req, newCid) == cid && OutcomeOf(h, req) == Reattached
        && SeatTaken(r, s, cid, c)
  {
    hide Timed, Indexed, Populated, Park, TakeSlot, Complete, Reindexed, SeatTaken, SeatParked;
    SizesAre(req, h.limit);
    var r, cid := h.rooms[req.rid], req.reconnectCid;
    if Declared(req) < r.maxParticipants {
      Parks(r, cid, c, h.now);
    } else {
      Takes(r, cid, c);
    }
  }

  lemma Reindexes(r: RoomState, cid: CID, c: ClientId)
    requires Indexed(r) && cid in r.byCID && c !in r.byClient
    ensures Unlinked(r, cid)[c := cid] == Reindexed(r, cid, c) && Unlinked(r, cid) == Reindexed(r, cid, c) - {c}
  {
    assert Unlinked(r, cid) == map d | d in r.byClient && r.byClient[d] != cid :: r.byClient[d];
  }

  lemma Parks(r: RoomState, cid: CID, c: ClientId, now: int)
    requires Indexed(r) && cid in r.byCID && c !in r.byClient
    ensures SeatParked(r, Park(TakeSlot(r, cid, c), cid, now), cid, c, now)
  {
    hide Indexed, Reindexed;
    Reindexes(r, cid, c);
    var s := Park(TakeSlot(r, cid, c), cid, now);
    assert cid in s.byCID;
    assert Unlinked(r, cid)[c := cid] - {c} == Unlinked(r, cid) - {c} == Unlinked(r, cid);
  }

  lemma Takes(r: RoomState, cid: CID, c: ClientId)
    requires Indexed(r) && Populated(r) && cid in r.byCID && c !in r.byClient
    ensures SeatTaken(r, Complete(TakeSlot(r, cid, c), cid), cid, c)
  {
    hide Indexed, Reindexed, DrainDirty;
    Reindexes(r, cid, c);
    DrainedPairs(r.dirty, cid);
  }

  lemma DrainedPairs(dirty: map<CID, set<CID>>, cid: CID)
    ensures forall f, t :: Dirtied(DrainDirty(dirty, cid), f, t) <==> Dirtied(dirty, f, t) && t != cid
  {
    forall f, t | Dirtied(dirty, f, t) && t != cid
      ensures Dirtied(DrainDirty(dirty, cid), f, t)
    {
      assert t in dirty[f] - {cid};
    }
  }

  lemma ReturnedTransports(h: HubState, c: ClientId, req: JoinRequest, newCid: CID)
    requires Core(h) && req.rid in h.rooms && Unattached(h, c)
    requires req.reconnectCid != NO_CID && req.reconnectCid in h.rooms[req.rid].byCID
    ensures
      var k, cid := JoinRoom(h, c, req, newCid), req.reconnectCid;
      PushedOut(h, k, h.rooms[req.rid].byCID[cid].client) && k.info == Claimed(h, c, cid, req.rid)
  {
    hide Core, JoinRoom, TakeSlot, Park, Complete, Deregister, Deregistered, Unattached, Admit, EvictGhost;
    SizesAre(req, h.limit);
    var rid, cid, r := req.rid, req.reconnectCid, h.rooms[req.rid];
    var former, taken, claimed := r.byCID[cid].client, TakeSlot(r, cid, c), Claim(h, c, cid, rid);
    PresentRoom(h, c, req, newCid);
    TakenClients(r, cid, c);
    ClaimFields(h, c, cid, rid);
    if ClientMax(req) < r.maxParticipants {
      var parked := PutRoom(claimed, rid, Park(taken, cid, h.now));
      GhostGone(h, parked, rid, cid, c);
      GhostRooms(parked, former);
      RefusalOnly(EvictGhost(parked, former), rid, c, former);
      SameGone(h, EvictGhost(parked, former), JoinExisting(h, c, req), former);
    } else {
      var put := PutRoom(claimed, rid, taken);
      GhostGone(h, put, rid, cid, c);
      AdmitOnly(EvictGhost(put, former), c, rid, taken, cid, Reattached);
      SameGone(h, EvictGhost(put, former), JoinExisting(h, c, req), former);
    }
  }

  lemma RefusalOnly(h: HubState, rid: RID, c: ClientId, former: Option<ClientId>)
    requires rid in h.rooms
    ensures
      var told := if former.Some? && h.rooms[rid].byClient != map[] then BroadcastState(h, rid) else h;
      OnlySent(h, SendError(told, c, RoomCapacityUnsupported))
  {}

  lemma GhostGone(h: HubState, x: HubState, rid: RID, cid: CID, c: ClientId)
    requires Core(h) && rid in h.rooms && cid in h.rooms[rid].byCID && Unattached(h, c)
    requires x.clients == h.clients && x.bySID == h.bySID && x.pending == h.pending && x.watchers == h.watchers
    requires x.info == Claimed(h, c, cid, rid)
    ensures
      var former := h.rooms[rid].byCID[cid].client;
      PushedOut(h, EvictGhost(x, former), former) && EvictGhost(x, former).info == x.info
  {
    hide Core, Deregister, Deregistered;
    match h.rooms[rid].byCID[cid].client
    case None =>
    case Some(g) =>
      TransportsOff(h, rid, cid, g);
      OtherTransport(h, rid, g, c);
      Deregisters(x, h, g);
  }

  lemma SameGone(h: HubState, x: HubState, k: HubState, former: Option<ClientId>)
    requires PushedOut(h, x, former)
    requires k.clients == x.clients && k.bySID == x.bySID && k.watchers == x.watchers && k.pending == x.pending
    ensures PushedOut(h, k, former)
  {}

  lemma OtherTransport(h: HubState, rid: RID, g: ClientId, c: ClientId)
    requires rid in h.rooms && g in h.rooms[rid].byClient && Unattached(h, c)
    ensures g != c
  {}

  // ----- what the declared size is good for ------------------------------------------------------------

  /** Whoever is accepted declared to support the room's final size, which nobody who
      declares nothing or two gets beyond two of; whoever is told that its capability does
      not suffice met a room of more than two and declared less. */
  lemma DeclaredSizes(h: HubState, c: ClientId, req: JoinRequest, newCid: CID, pick: CID, pick2: CID, at: int)
    requires Core(h) && c in h.clients && Unattached(h, c) && Enabled(h, Join(c, req, newCid, pick, pick2), at)
    requires Passes(h, req, at)
    ensures
      var k := Step(h, Join(c, req, newCid, pick, pick2), at);
      && req.rid in k.rooms
      && var s := k.rooms[req.rid];
         && (c in s.byClient ==>
               s.maxParticipants <= 2 || (req.capability.Some? && req.capability.value >= s.maxParticipants))
         && (|k.sent| > 0 && k.sent[|k.sent| - 1] == Sent({c}, Error(RoomCapacityUnsupported)) && c !in s.byClient ==>
               s.maxParticipants > 2 && (req.capability.None? || req.capability.value < s.maxParticipants))
  {
    hide Core, RoomInv, Step, Enabled, Passes, PushedOut, Shown, Populated, Negotiated, Bounded, Timed;
    if req.rid !in h.rooms {
      JoinFounds(h, c, req, newCid, pick, pick2, at);
    } else {
      RoomOf(h, req.rid);
      Parts(h.rooms[req.rid], h.limit, h.now);
      if req.reconnectCid == NO_CID || req.reconnectCid !in h.rooms[req.rid].byCID {
        JoinAdmits(h, c, req, newCid, pick, pick2, at);
      } else {
        JoinReturns(h, c, req, newCid, pick, pick2, at);
      }
    }
  }

  // ----- turned away -----------------------------------------------------------------------------------

  /** The first check that fails. */
  function FailedCheck(req: JoinRequest): ErrorCode {
    if req.rid == NO_RID then BadRequest
    else if req.check == SecretMissing then ServerNotConfigured
    else if req.check == InvalidId then InvalidRoomId
    else if req.reconnectCid != NO_CID && req.tokenGiven && req.verdict != TokenOk then InvalidReconnectToken
    else RoomEndedError
  }

  /** A join that fails a check is answered by its error and changes no room, except that an
      expired token that proves its pair removes the suspended record it was for. */
  lemma JoinTurnedAway(h: HubState, c: ClientId, req: JoinRequest, newCid: CID, pick: CID, pick2: CID, at: int)
    requires Core(h) && c in h.clients && Unattached(h, c) && Enabled(h, Join(c, req, newCid, pick, pick2), at)
    requires !Passes(h, req, at)
    ensures
      var k, code := Step(h, Join(c, req, newCid, pick, pick2), at), FailedCheck(req);
      && |k.sent| > 0 && k.sent[|k.sent| - 1] == Sent({c}, Error(code))
      && SameTransports(h, k) && k.tombstones == h.tombstones && k.now == at
      && if && code == InvalidReconnectToken && req.verdict == TokenExpired
            && req.rid in h.rooms && req.reconnectCid in h.rooms[req.rid].byCID
            && h.rooms[req.rid].byCID[req.reconnectCid].client.None?
         then RemovedFrom(h.(now := at), k, req.rid, req.reconnectCid)
         else k.rooms == h.rooms
  {
    hide Core, RemovedFrom, HandleJoin, EvictExpired, LeaveRoom;
    var n := h.(now := at);
    ClockKeeps(h, at);
    NothingLeft(n, c, pick);
    LeavesFirst(n, c, req, newCid, pick, pick2);
    CodesAgree(n, req, at);
    GateAnswers(n, c, req, newCid, pick2);
    GateIs(n, c, req, newCid, pick2);
    ExpiredOnly(n, req.rid, req.reconnectCid, pick2);
  }

  lemma CodesAgree(n: HubState, req: JoinRequest, at: int)
    requires n.now == at && !Passes(n, req, at)
    ensures !Reaches(n, req) && GateCode(n, req) == FailedCheck(req)
  {}

  lemma ExpiredOnly(h: HubState, rid: RID, cid: CID, pick: CID)
    ensures
      var k := EvictExpired(h, rid, cid, pick);
      SameTransports(h, k) && k.tombstones == h.tombstones && k.now == h.now
  {
    hide Settle, Remove;
    if rid in h.rooms && Suspended(h.rooms[rid], cid) {
      SettleIs(TakeOut(h, rid, cid, pick), rid);
    }
  }
}
