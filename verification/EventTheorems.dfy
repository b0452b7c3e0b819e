/** What each event does to the hub, said in terms of its state alone: who is where,
    who is registered, what is armed until when, and who is sent what. */
module EventTheorems {
  import opened Wrappers
  import opened SignalingTypes
  import opened RoomSpec
  import opened RoomInvariant
  import opened HubSpec
  import opened HubInvariant
  import opened HubSteps
  import opened RoomHistory
  import opened HubTheorems

  predicate Watches(h: HubState, c: ClientId, rid: RID) {
    rid in h.watchers && c in h.watchers[rid]
  }

  /** Registrations, subscriptions, waiting takeovers and the transports' own fields stay. */
  predicate SameTransports(h: HubState, k: HubState) {
    && k.clients == h.clients && k.bySID == h.bySID && k.pending == h.pending
    && k.watchers == h.watchers && k.info == h.info
  }

  /** `c` is registered no more; every other transport and subscription stays. */
  ghost predicate Deregistered(h: HubState, k: HubState, c: ClientId) {
    && k.clients == h.clients - {c}
    && (forall s :: s in k.bySID <==> s in h.bySID && h.bySID[s] != c)
    && (forall s :: s in k.bySID ==> k.bySID[s] == h.bySID[s])
    && (forall d, rid :: Watches(k, d, rid) <==> d != c && Watches(h, d, rid))
    && k.pending == h.pending
  }

  // ----- departures --------------------------------------------------------------------------------

  /** A leave removes the participant that the transport is attached as; the transport
      stays registered. */
  lemma Leaves(h: HubState, c: ClientId, rid: RID, cid: CID, pick: CID, at: int)
    requires Core(h) && Enabled(h, Leave(c, pick), at) && rid in h.rooms && AttachedTo(h.rooms[rid], cid, c)
    ensures
      var k := Step(h, Leave(c, pick), at);
      && RemovedFrom(h.(now := at), k, rid, cid)
      && SameTransports(h, k) && k.tombstones == h.tombstones && k.now == at
  {
    hide Core, RoomInv, RemovedFrom, Settle, Remove;
    var n := h.(now := at);
    ClockKeeps(h, at);
    TransportsOff(n, rid, cid, c);
    RoomOf(n, rid);
    RemovalRefines(n, TakeOut(n, rid, cid, pick), rid, cid, pick);
    SettleIs(TakeOut(n, rid, cid, pick), rid);
  }

  /** A transport that is attached nowhere, say because another one took its seat, leaves nothing. */
  lemma LeavesNothing(h: HubState, c: ClientId, pick: CID, at: int)
    requires Core(h) && Enabled(h, Leave(c, pick), at) && Unattached(h, c)
    ensures Step(h, Leave(c, pick), at) == h.(now := at)
  {
    hide Core, RoomInv, Settle, TakeOut;
    var n := h.(now := at);
    ClockKeeps(h, at);
    var rid, cid := Info(n, c).rid, Info(n, c).cid;
    if rid in n.rooms && AttachedTo(n.rooms[rid], cid, c) {
      TransportsOff(n, rid, cid, c);
    }
  }

  /** An HTTP leave removes the participant and deregisters the transport it has, if any. */
  lemma PostedLeave(h: HubState, rid: RID, cid: CID, pick: CID, at: int)
    requires Core(h) && Enabled(h, HttpLeave(rid, cid, pick), at)
    ensures
      var k := Step(h, HttpLeave(rid, cid, pick), at);
      && k.tombstones == h.tombstones && k.now == at
      && if rid in h.rooms && cid in h.rooms[rid].byCID then
           && RemovedFrom(h.(now := at), k, rid, cid)
           && match h.rooms[rid].byCID[cid].client
              case None => SameTransports(h, k)
              case Some(c) => Deregistered(h, k, c) && k.info == h.info
         else k == h.(now := at)
  {
    hide Core, RoomInv, RemovedFrom, Settle, Remove, Deregister, Deregistered;
    var n := h.(now := at);
    ClockKeeps(h, at);
    if rid in n.rooms && cid in n.rooms[rid].byCID {
      var out := TakeOut(n, rid, cid, pick);
      RemovalRefines(n, out, rid, cid, pick);
      SettleIs(out, rid);
      match n.rooms[rid].byCID[cid].client
      case None =>
      case Some(c) =>
        TransportsOff(n, rid, cid, c);
        Deregisters(out, h, c);
        DeregisterFields(out, c);
        RemovalRefines(n, Deregister(out, c), rid, cid, pick);
        SettleIs(Deregister(out, c), rid);
        SameAfter(h, Deregister(out, c), Settle(Deregister(out, c), rid), c);
    }
  }

  lemma SameAfter(h: HubState, x: HubState, k: HubState, c: ClientId)
    requires Deregistered(h, x, c) && SameTransports(x, k)
    ensures Deregistered(h, k, c) && k.info == x.info
  {}

  lemma Deregisters(x: HubState, h: HubState, c: ClientId)
    requires Core(h) && c in h.clients && Info(x, c).sid == Info(h, c).sid
    requires x.clients == h.clients && x.bySID == h.bySID && x.pending == h.pending && x.watchers == h.watchers
    ensures Deregistered(h, Deregister(x, c), c) && Deregister(x, c).info == x.info
  {
    hide RoomsSound, AttachmentsAgree, Waiting;
    var k := Deregister(x, c);
    forall d, rid
      ensures Watches(k, d, rid) <==> d != c && Watches(h, d, rid)
    {
      if d != c && Watches(h, d, rid) {
        assert d in h.watchers[rid] - {c};
      }
    }
  }

  // ----- timers ----------------------------------------------------------------------------------------

  /** The eviction timer of an incarnation of a room harms nobody who is attached, gone, or
      in another incarnation; while peers still see media it gives another 30 seconds; else
      it removes the participant. */
  lemma EvictionTimerFires(h: HubState, rid: RID, id: nat, cid: CID, pick: CID, at: int)
    requires Core(h) && Enabled(h, EvictTimer(rid, id, cid, pick), at)
    ensures
      var k := Step(h, EvictTimer(rid, id, cid, pick), at);
      if && rid in h.rooms && h.rooms[rid].id == id
         && cid in h.rooms[rid].byCID && h.rooms[rid].byCID[cid].client.None?
      then
        var r := h.rooms[rid];
        if cid in r.liveness && at - r.liveness[cid] * 1_000_000 <= 30_000_000_000
        then
          var deferred := r.byCID[cid].(evictAt := Some(at + 30_000_000_000));
          k == h.(now := at, rooms := h.rooms[rid := r.(byCID := r.byCID[cid := deferred])])
        else
          && RemovedFrom(h.(now := at), k, rid, cid)
          && SameTransports(h, k) && k.tombstones == h.tombstones && k.now == at
      else k == h.(now := at)
  {
    hide Core, RoomInv, RemovedFrom, Settle, Remove;
    var n := h.(now := at);
    ClockKeeps(h, at);
    if rid in n.rooms && cid in n.rooms[rid].byCID {
      RemovalRefines(n, TakeOut(n, rid, cid, pick), rid, cid, pick);
      SettleIs(TakeOut(n, rid, cid, pick), rid);
    }
  }

  lemma StatusOnly(h: HubState, rid: RID)
    ensures OnlySent(h, Status(h, rid))
  {}

  /** The no-active timer of an incarnation of a room deletes the room exactly if it has no
      transport. */
  lemma IdleTimerFires(h: HubState, rid: RID, id: nat, at: int)
    requires Core(h) && Enabled(h, IdleTimer(rid, id), at)
    ensures
      var k := Step(h, IdleTimer(rid, id), at);
      && SameTransports(h, k) && k.tombstones == h.tombstones && k.now == at
      && k.rooms == if rid in h.rooms && h.rooms[rid].id == id && h.rooms[rid].byClient == map[]
                    then h.rooms - {rid} else h.rooms
  {
    hide Core, RoomInv, Indexed, Populated, CapacitySafe, Negotiated, Bounded, Status;
    var n := h.(now := at);
    StatusOnly(DropRoom(n, rid), rid);
    if rid in n.rooms && n.rooms[rid].id == id {
      RoomOf(h, rid);
      Parts(h.rooms[rid], h.limit, h.now);
      assert n.rooms[rid := n.rooms[rid]] == n.rooms;
    }
  }

  // ----- transports --------------------------------------------------------------------------------------

  /** A transport drop deregisters it and keeps the member and its place: it becomes
      suspended now, with ten minutes to return, and the room has ten seconds if this was
      its last transport. */
  lemma DropSuspends(h: HubState, rid: RID, cid: CID, c: ClientId, at: int)
    requires Core(h) && Enabled(h, Drop(c), at) && rid in h.rooms && AttachedTo(h.rooms[rid], cid, c)
    ensures
      var r, k := h.rooms[rid], Step(h, Drop(c), at);
      && rid in k.rooms && k.rooms - {rid} == h.rooms - {rid}
      && Deregistered(h, k, c) && k.info == h.info && k.tombstones == h.tombstones && k.now == at
      && var s := k.rooms[rid];
         && s == r.(byCID := s.byCID, byClient := s.byClient, epoch := r.epoch + 1, idleAt := s.idleAt)
         && s.byCID == r.byCID[cid := Participant(None, at, Some(at + 600_000_000_000), r.byCID[cid].cap)]
         && s.byClient == r.byClient - {c}
         && s.idleAt == (if r.byClient.Keys == {c} then Some(at + 10_000_000_000) else None)
  {
    hide Core, RoomInv, CapacitySafe, Negotiated, Bounded, Suspend, Deregister, Disconnect, Deregistered;
    var n := h.(now := at);
    ClockKeeps(h, at);
    RoomOf(h, rid);
    Parts(h.rooms[rid], h.limit, h.now);
    NoNullCid(h, rid);
    TransportsOff(n, rid, cid, c);
    DropOnly(n, c);
    DropDeregisters(n, h, c);
    SuspendedNow(h.rooms[rid], cid, c, at);
  }

  /** A transport that is attached nowhere is only deregistered; one that is not registered
      any more is nothing to drop. */
  lemma DropElsewhere(h: HubState, c: ClientId, at: int)
    requires Core(h) && Enabled(h, Drop(c), at) && Unattached(h, c)
    ensures
      var k := Step(h, Drop(c), at);
      && k.rooms == h.rooms && k.tombstones == h.tombstones && k.now == at
      && (if c in h.clients then Deregistered(h, k, c) && k.info == h.info else k == h.(now := at))
  {
    hide Core, RoomInv, Deregister, Deregistered, Suspend;
    var n := h.(now := at);
    ClockKeeps(h, at);
    var rid, cid := Info(n, c).rid, Info(n, c).cid;
    if rid in n.rooms && AttachedTo(n.rooms[rid], cid, c) {
      TransportsOff(n, rid, cid, c);
    }
    DeregisterFields(n, c);
    if c in h.clients {
      DropDeregisters(n, h, c);
    }
  }

  lemma DropDeregisters(n: HubState, h: HubState, c: ClientId)
    requires Core(h) && c in h.clients && SameTransports(h, n)
    ensures Deregistered(h, Disconnect(n, c), c) && Disconnect(n, c).info == h.info
  {
    hide Core, Deregister, Deregistered, SuspendInRoom;
    Deregisters(n, h, c);
    SuspendsOnly(Deregister(n, c), c);
    SameAfter(h, Deregister(n, c), Disconnect(n, c), c);
  }

  lemma SuspendsOnly(x: HubState, c: ClientId)
    ensures SameTransports(x, SuspendInRoom(x, c))
  {
    hide Suspend, Status, BroadcastState;
    var rid, cid := Info(x, c).rid, Info(x, c).cid;
    if rid in x.rooms && AttachedTo(x.rooms[rid], cid, c) {
      TellOnly(PutRoom(x, rid, Suspend(x.rooms[rid], cid, x.now)), rid);
    }
  }

  lemma SuspendedNow(r: RoomState, cid: CID, c: ClientId, now: int)
    requires Indexed(r) && Timed(r) && AttachedTo(r, cid, c)
    ensures
      var s := Suspend(r, cid, now);
      && s == r.(byCID := s.byCID, byClient := s.byClient, epoch := r.epoch + 1, idleAt := s.idleAt)
      && s.byCID == r.byCID[cid := Participant(None, now, Some(now + 600_000_000_000), r.byCID[cid].cap)]
      && s.byClient == r.byClient - {c}
      && s.idleAt == (if r.byClient.Keys == {c} then Some(now + 10_000_000_000) else None)
  {
    var s := Suspend(r, cid, now);
    assert c in r.byClient && s.byClient == r.byClient - {c} && cid in s.byCID;
    if r.byClient.Keys == {c} {
      assert s.byClient == map[];
    } else {
      var d :| d in r.byClient.Keys && d != c;
      assert d in s.byClient;
    }
  }

  /** A new WebSocket transport is registered under its session, and that is all. */
  lemma Connects(h: HubState, c: ClientId, sid: SID, at: int)
    requires Enabled(h, WsConnect(c, sid), at)
    ensures Step(h, WsConnect(c, sid), at)
         == h.(now := at, clients := h.clients + {c}, bySID := h.bySID[sid := c],
               info := h.info[c := ClientInfo(sid, NO_CID, NO_RID, false)])
  {}

  /** `next` has the registration and the subscriptions of `prev`. */
  ghost predicate Succeeded(h: HubState, k: HubState, sid: SID, prev: ClientId, next: ClientId) {
    && k.clients == h.clients - {prev} + {next} && k.bySID == h.bySID[sid := next]
    && (forall c, rid :: Watches(k, c, rid) <==>
          if c == prev then false else if c == next then Watches(h, prev, rid) else Watches(h, c, rid))
  }

  /** A new event stream is registered if its session is unknown.  If the session belongs to
      a transport that was ever in a room, the new one waits and nothing else changes;
      otherwise it takes over at once, and no room changes. */
  lemma StreamOpens(h: HubState, c: ClientId, sid: SID, at: int)
    requires Core(h) && Enabled(h, SseConnect(c, sid), at)
    ensures
      var k, known := Step(h, SseConnect(c, sid), at), h.info[c := ClientInfo(sid, NO_CID, NO_RID, false)];
      && (sid !in h.bySID ==>
            k == h.(now := at, clients := h.clients + {c}, bySID := h.bySID[sid := c], info := known))
      && (sid in h.bySID && Info(h, h.bySID[sid]).rid != NO_RID ==>
            k == h.(now := at, pending := h.pending[sid := c], info := known))
      && (sid in h.bySID && Info(h, h.bySID[sid]).rid == NO_RID ==>
            && Succeeded(h, k, sid, h.bySID[sid], c) && k.rooms == h.rooms
            && k.pending == h.pending && k.tombstones == h.tombstones && k.now == at)
  {
    hide Core, RoomInv, Replace, SwapTransport, Rewatch, Succeeded;
    ClockKeeps(h, at);
    var known := h.(now := at, info := h.info[c := ClientInfo(sid, NO_CID, NO_RID, false)]);
    if sid in h.bySID && Info(h, h.bySID[sid]).rid == NO_RID {
      var prev := h.bySID[sid];
      RegisteredPair(h, sid);
      NewTransport(h, c);
      ReplaceFields(known, prev, c);
      Succeeds(h, known, sid, prev, c);
    }
  }

  lemma NewTransport(h: HubState, c: ClientId)
    requires Core(h) && c !in h.info
    ensures c !in h.clients && forall rid :: rid in h.watchers ==> c !in h.watchers[rid]
  {
    hide RoomsSound, AttachmentsAgree, Waiting;
  }

  lemma Succeeds(h: HubState, x: HubState, sid: SID, prev: ClientId, next: ClientId)
    requires prev != next && prev in x.info && next in x.info && x.info[next].sid == sid
    requires x.clients == h.clients && x.bySID == h.bySID && x.watchers == h.watchers
    requires forall rid :: rid in h.watchers ==> next !in h.watchers[rid]
    ensures Succeeded(h, Replace(x, prev, next), sid, prev, next)
  {
    hide Replace, SwapTransport, Rewatch;
    ReplaceFields(x, prev, next);
    Resubscribed(h, prev, next);
  }

  /** The first half of an authorized takeover moves the seat: the member and its room stay
      as others see them; the new transport has the registration, the subscriptions and
      the seat.  The join of the same request follows: see TakeoverTheorems. */
  lemma TakeoverMovesSeat(h: HubState, sid: SID, at: int)
    requires Core(h) && Enabled(h, SseTakeover(sid), at) && sid in h.pending && sid in h.bySID
    ensures
      var k, prev, next := Step(h, SseTakeover(sid), at), h.bySID[sid], h.pending[sid];
      && Succeeded(h, k, sid, prev, next) && k.pending == h.pending - {sid}
      && k.tombstones == h.tombstones && k.now == at && k.rooms.Keys == h.rooms.Keys
      && (forall rid :: rid in h.rooms ==> SeatMoved(h.rooms[rid], k.rooms[rid], prev, next))
  {
    hide Core, RoomInv, Replace, SwapTransport, AttachedTo, Rewatch, SeatMoved, Step, Succeeded;
    var n, prev, next := h.(now := at), h.bySID[sid], h.pending[sid];
    Promised(h, SseTakeover(sid), at);
    ClockKeeps(h, at);
    Promotes(h, sid, at);
    RegisteredPair(h, sid);
    WaitingOne(h, sid);
    Unsubscribed(h, next);
    RoomsStay(n, prev, next);
    ReplaceFields(n, prev, next);
    Succeeds(h, n, sid, prev, next);
    StillSucceeded(h, Replace(n, prev, next), sid, prev, next, h.pending - {sid});
    forall rid | rid in h.rooms
      ensures SeatMoved(h.rooms[rid], Replace(n, prev, next).rooms[rid], prev, next)
    {
      SeatMoves(n, rid, prev, next);
    }
  }

  lemma Promotes(h: HubState, sid: SID, at: int)
    requires Enabled(h, SseTakeover(sid), at) && sid in h.pending && sid in h.bySID
    ensures
      var r := Replace(h.(now := at), h.bySID[sid], h.pending[sid]);
      Step(h, SseTakeover(sid), at) == r.(pending := r.pending - {sid})
  {
    hide Replace;
  }

  lemma StillSucceeded(h: HubState, k: HubState, sid: SID, prev: ClientId, next: ClientId, pending: map<SID, ClientId>)
    requires Succeeded(h, k, sid, prev, next)
    ensures Succeeded(h, k.(pending := pending), sid, prev, next)
  {
    assert forall c, rid :: Watches(k.(pending := pending), c, rid) == Watches(k, c, rid);
  }

  /** Without a waiting transport or without a registered one there is nothing to take over. */
  lemma NothingToTakeOver(h: HubState, sid: SID, at: int)
    requires Enabled(h, SseTakeover(sid), at) && (sid !in h.pending || sid !in h.bySID)
    ensures Step(h, SseTakeover(sid), at) == h.(now := at)
  {}

  /** A stream that ends while it waits is forgotten; any other one stays for its drop. */
  lemma StreamAbandoned(h: HubState, c: ClientId, at: int)
    requires Core(h) && Enabled(h, SseAbandon(c), at)
    ensures
      var sid := Info(h, c).sid;
      Step(h, SseAbandon(c), at)
      == h.(now := at, pending := if sid in h.pending && h.pending[sid] == c then h.pending - {sid} else h.pending)
  {
    hide RoomsSound, AttachmentsAgree;
    if Info(h, c).replaced {
      assert c !in h.clients && h.clients - {c} == h.clients;
      assert forall s :: s in h.pending ==> h.pending[s] != c;
    }
  }

  /** The record of `prev`, if it has one here, and its place in the index are those of
      `next`; nothing else of the room changes. */
  ghost predicate SeatMoved(r: RoomState, s: RoomState, prev: ClientId, next: ClientId) {
    && s == r.(byCID := s.byCID, byClient := s.byClient)
    && s.byCID.Keys == r.byCID.Keys
    && (forall cid :: cid in r.byCID ==>
          s.byCID[cid] == if r.byCID[cid].client == Some(prev) then r.byCID[cid].(client := Some(next))
                          else r.byCID[cid])
    && s.byClient == if prev in r.byClient then (r.byClient - {prev})[next := r.byClient[prev]] else r.byClient
  }

  lemma Resubscribed(h: HubState, prev: ClientId, next: ClientId)
    requires prev != next && forall rid :: rid in h.watchers ==> next !in h.watchers[rid]
    ensures forall k: HubState, c, rid :: k.watchers == Rewatch(h.watchers, prev, next) ==>
              (Watches(k, c, rid) <==>
                 if c == prev then false else if c == next then Watches(h, prev, rid) else Watches(h, c, rid))
  {}

  lemma RoomsStay(h: HubState, prev: ClientId, next: ClientId)
    requires prev in h.info && next in h.info && prev != next
    ensures Replace(h, prev, next).rooms.Keys == h.rooms.Keys
  {
    hide Replace, SwapTransport, Rewatch;
    ReplaceFields(h, prev, next);
  }

  lemma SeatMoves(h: HubState, rid: RID, prev: ClientId, next: ClientId)
    requires Core(h) && rid in h.rooms && prev in h.info && next in h.info && prev != next
    ensures rid in Replace(h, prev, next).rooms
    ensures SeatMoved(h.rooms[rid], Replace(h, prev, next).rooms[rid], prev, next)
  {
    hide Core, RoomInv, Replace, SwapTransport, Timed, Populated, CapacitySafe, Negotiated, Bounded;
    ReplaceFields(h, prev, next);
    RoomOf(h, rid);
    Parts(h.rooms[rid], h.limit, h.now);
    if prev in h.rooms[rid].byClient {
      AttachedRecord(h, rid, prev);
      SwappedSeat(h.rooms[rid], prev, next);
    } else {
      assert forall cid :: cid in h.rooms[rid].byCID ==> h.rooms[rid].byCID[cid].client != Some(prev);
    }
  }

  lemma SwappedSeat(r: RoomState, prev: ClientId, next: ClientId)
    requires Indexed(r) && prev in r.byClient
    ensures SeatMoved(r, SwapTransport(r, prev, next), prev, next)
  {
    assert AttachedTo(r, r.byClient[prev], prev);
  }
}
