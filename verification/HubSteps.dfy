/** Every handler and timer callback keeps the hub invariant. */
module HubSteps {
  import opened Wrappers
  import opened SignalingTypes
  import opened RoomSpec
  import opened RoomInvariant
  import opened HubSpec
  import opened HubInvariant

  /** Only messages were sent. */
  predicate OnlySent(h: HubState, k: HubState) {
    k == h.(sent := k.sent)
  }

  lemma SendingKeeps(h: HubState, k: HubState)
    requires Core(h) && OnlySent(h, k)
    ensures Core(k)
  {
    hide RoomsSound, Registered, Waiting, AttachmentsAgree;
  }

  lemma RoomOf(h: HubState, rid: RID)
    requires Core(h) && rid in h.rooms
    ensures RoomInv(h.rooms[rid], h.limit, h.now) && h.rooms[rid].id < h.nextRoom && rid != NO_RID
    ensures rid !in h.tombstones
  {
    hide RoomInv, Registered, Waiting, AttachmentsAgree;
  }

  lemma RoomFits(h: HubState, rid: RID)
    requires Core(h) && rid in h.rooms
    ensures Fits(h, rid, h.rooms[rid])
  {
    hide RoomInv, Registered, Waiting;
  }

  // ----- removals ----------------------------------------------------------------

  /** A room with one record left becomes empty; a larger one stays sound. */
  lemma TakeOutRoom(h: HubState, rid: RID, cid: CID, pick: CID)
    requires Core(h) && rid in h.rooms && cid in h.rooms[rid].byCID
    ensures
      var v := Remove(h.rooms[rid], cid, pick, h.now);
      && (v.byCID == map[] <==> |h.rooms[rid].byCID| == 1)
      && (v.byCID != map[] ==> Fits(h, rid, v))
      && v.byClient.Keys == h.rooms[rid].byClient.Keys - (match h.rooms[rid].byCID[cid].client
                                                          case None => {} case Some(c) => {c})
  {
    hide RoomInv, Core, Indexed, Timed, Populated, CapacitySafe, Negotiated, Bounded;
    var r := h.rooms[rid];
    RoomFits(h, rid);
    Parts(r, h.limit, h.now);
    RemovedClients(r, cid, pick, h.now);
    hide Remove;
    RemoveIndex(r, cid, pick, h.now);
    if |r.byCID| > 1 {
      RemoveKeeps(r, cid, pick, h.limit, h.now);
    } else {
      assert r.byCID.Keys >= {cid} && |r.byCID.Keys| == |r.byCID|;
    }
  }

  lemma RemovedClients(r: RoomState, cid: CID, pick: CID, now: int)
    requires cid in r.byCID
    ensures Remove(r, cid, pick, now).byClient.Keys
         == r.byClient.Keys - (match r.byCID[cid].client case None => {} case Some(c) => {c})
  {}

  lemma TransportsOff(h: HubState, rid: RID, cid: CID, c: ClientId)
    requires Core(h) && rid in h.rooms && AttachedTo(h.rooms[rid], cid, c)
    ensures c in h.rooms[rid].byClient && h.rooms[rid].byClient[c] == cid
    ensures c in h.clients && c in h.info && Info(h, c).rid == rid && Info(h, c).cid == cid
  {
    hide RoomInv, Registered, Waiting, RoomsSound, Timed, Populated, CapacitySafe, Negotiated, Bounded;
    RoomOf(h, rid);
    Parts(h.rooms[rid], h.limit, h.now);
  }

  lemma OnlyRoom(h: HubState, rid: RID, c: ClientId)
    requires Core(h) && rid in h.rooms && c in h.rooms[rid].byClient
    ensures forall o :: o in h.rooms && o != rid ==> c !in h.rooms[o].byClient
  {
    Agreed(h);
    hide Core, AttachmentsAgree;
    AttachedInfo(h, rid, c);
    forall o | o in h.rooms && o != rid
      ensures c !in h.rooms[o].byClient
    {
      if c in h.rooms[o].byClient {
        AttachedInfo(h, o, c);
      }
    }
  }

  /** A settled removal either drops the empty room or keeps the smaller one. */
  lemma SettleIs(x: HubState, rid: RID)
    requires rid in x.rooms
    ensures OnlySent(if x.rooms[rid].byCID == map[] then DropRoom(x, rid) else x, Settle(x, rid))
  {}

  /** The common tail of a removal. */
  lemma RemovalKeeps(h: HubState, rid: RID, cid: CID, pick: CID)
    requires Core(h) && rid in h.rooms && cid in h.rooms[rid].byCID
    ensures Core(Settle(TakeOut(h, rid, cid, pick), rid))
  {
    hide Core, RoomInv, Remove, Fits, Settle;
    TakeOutRoom(h, rid, cid, pick);
    RoomOf(h, rid);
    var out := TakeOut(h, rid, cid, pick);
    SettleIs(out, rid);
    if out.rooms[rid].byCID == map[] {
      DropKeeps(h, rid);
      assert DropRoom(out, rid) == DropRoom(h, rid);
      SendingKeeps(DropRoom(out, rid), Settle(out, rid));
    } else {
      PutKeeps(h, rid, Remove(h.rooms[rid], cid, pick, h.now));
      SendingKeeps(out, Settle(out, rid));
    }
  }

  /** The removal of an attached record whose transport is cleaned up as well. */
  lemma CleanRemovalKeeps(h: HubState, rid: RID, cid: CID, pick: CID, c: ClientId)
    requires Core(h) && rid in h.rooms && AttachedTo(h.rooms[rid], cid, c)
    ensures Core(Settle(Deregister(TakeOut(h, rid, cid, pick), c), rid))
  {
    hide Core, RoomInv, Remove, Fits, Settle;
    TakeOutRoom(h, rid, cid, pick);
    RoomOf(h, rid);
    TransportsOff(h, rid, cid, c);
    OnlyRoom(h, rid, c);
    var out := TakeOut(h, rid, cid, pick);
    var clean := Deregister(out, c);
    CleanedRooms(out, c);
    SettleIs(clean, rid);
    if out.rooms[rid].byCID == map[] {
      DropKeeps(h, rid);
      DeregisterKeeps(DropRoom(h, rid), c);
      CleanedDrop(h, rid, out.rooms[rid], c);
      hide Deregister, DropRoom, TakeOut;
      SendingKeeps(DropRoom(clean, rid), Settle(clean, rid));
    } else {
      PutKeeps(h, rid, Remove(h.rooms[rid], cid, pick, h.now));
      DeregisterKeeps(out, c);
      SendingKeeps(clean, Settle(clean, rid));
    }
  }

  lemma CleanedRooms(h: HubState, c: ClientId)
    ensures Deregister(h, c).rooms == h.rooms
  {}

  lemma CleanedDrop(h: HubState, rid: RID, r: RoomState, c: ClientId)
    ensures DropRoom(Deregister(PutRoom(h, rid, r), c), rid) == Deregister(DropRoom(h, rid), c)
  {}

  lemma LeaveKeeps(h: HubState, c: ClientId, pick: CID)
    requires Core(h)
    ensures Core(LeaveRoom(h, c, pick)) && Unattached(LeaveRoom(h, c, pick), c)
    ensures LeaveRoom(h, c, pick).clients == h.clients && LeaveRoom(h, c, pick).info == h.info
  {
    var rid, cid := Info(h, c).rid, Info(h, c).cid;
    Agreed(h);
    if rid in h.rooms && AttachedTo(h.rooms[rid], cid, c) {
      RemovalKeeps(h, rid, cid, pick);
      TakeOutRoom(h, rid, cid, pick);
      OnlyRoom(h, rid, c) by { TransportsOff(h, rid, cid, c); }
      SettleIs(TakeOut(h, rid, cid, pick), rid);
      hide Core, Remove, Settle, Fits, RoomInv, AttachmentsAgree, Registered;
    } else {
      NotAttached(h, c);
      hide Core;
    }
  }

  lemma AttachedRecord(h: HubState, rid: RID, c: ClientId)
    requires Core(h) && rid in h.rooms && c in h.rooms[rid].byClient
    ensures AttachedTo(h.rooms[rid], h.rooms[rid].byClient[c], c)
    ensures Info(h, c).rid == rid && Info(h, c).cid == h.rooms[rid].byClient[c]
    ensures h.rooms[rid].byClient[c] != NO_CID && c in h.clients
  {
    RoomOf(h, rid);
    Parts(h.rooms[rid], h.limit, h.now);
    hide RoomInv, Registered, Waiting, RoomsSound, Timed, CapacitySafe, Negotiated, Bounded;
    AttachedInfo(h, rid, c);
  }

  lemma ExpiredKeeps(h: HubState, rid: RID, cid: CID, pick: CID)
    requires Core(h)
    ensures Core(EvictExpired(h, rid, cid, pick))
  {
    hide Core, Settle, TakeOut;
    if rid in h.rooms && Suspended(h.rooms[rid], cid) {
      RemovalKeeps(h, rid, cid, pick);
    }
  }

  lemma HttpLeaveKeeps(h: HubState, rid: RID, cid: CID, pick: CID)
    requires Core(h)
    ensures Core(EvictByLeave(h, rid, cid, pick))
  {
    hide Core, Settle, TakeOut;
    if rid in h.rooms && cid in h.rooms[rid].byCID {
      match h.rooms[rid].byCID[cid].client {
        case None => RemovalKeeps(h, rid, cid, pick);
        case Some(c) => CleanRemovalKeeps(h, rid, cid, pick, c);
      }
    }
  }

  // ----- timers ------------------------------------------------------------------

  lemma DeferFits(h: HubState, rid: RID, cid: CID)
    requires Core(h) && rid in h.rooms && Suspended(h.rooms[rid], cid) && RecentMedia(h.rooms[rid], cid, h.now)
    ensures Fits(h, rid, Defer(h.rooms[rid], cid, h.now))
  {
    RoomFits(h, rid);
    RoomOf(h, rid);
    DeferKeeps(h.rooms[rid], cid, h.limit, h.now);
    hide RoomInv, Core;
  }

  lemma HardEvictKeeps(h: HubState, rid: RID, cid: CID, pick: CID)
    requires Core(h) && rid in h.rooms
    ensures Core(HardEvict(h, rid, cid, pick))
  {
    hide Core, Settle, TakeOut, Fits, Defer;
    var r := h.rooms[rid];
    RoomOf(h, rid);
    hide RoomInv;
    if Suspended(r, cid) {
      if RecentMedia(r, cid, h.now) {
        DeferFits(h, rid, cid);
        PutKeeps(h, rid, Defer(r, cid, h.now));
      } else {
        RemovalKeeps(h, rid, cid, pick);
      }
    }
  }

  lemma EvictionFiresKeeps(h: HubState, rid: RID, id: nat, cid: CID, pick: CID)
    requires Core(h)
    ensures Core(EvictionFires(h, rid, id, cid, pick))
  {
    hide Core, HardEvict;
    if rid in h.rooms {
      HardEvictKeeps(h, rid, cid, pick);
    }
  }

  /** In a sound room the no-active timer is off as long as a transport is attached. */
  lemma IdleOff(h: HubState, rid: RID)
    requires Core(h) && rid in h.rooms && h.rooms[rid].byClient != map[]
    ensures h.rooms[rid].idleAt.None?
  {
    RoomOf(h, rid);
    Parts(h.rooms[rid], h.limit, h.now);
    hide RoomInv, Core;
  }

  lemma IdleFiresKeeps(h: HubState, rid: RID, id: nat)
    requires Core(h)
    ensures Core(IdleFires(h, rid, id))
  {
    hide Core;
    if rid in h.rooms && h.rooms[rid].id == id {
      if h.rooms[rid].byClient != map[] {
        IdleOff(h, rid);
        assert h.rooms[rid := h.rooms[rid].(idleAt := None)] == h.rooms;
      } else {
        DropKeeps(h, rid);
        SendingKeeps(DropRoom(h, rid), Status(DropRoom(h, rid), rid));
      }
    }
  }

  // ----- transport drops -----------------------------------------------------------

  lemma SuspendFits(h: HubState, rid: RID, cid: CID, c: ClientId)
    requires Core(h) && rid in h.rooms && AttachedTo(h.rooms[rid], cid, c)
    ensures
      var s := Suspend(h.rooms[rid], cid, h.now);
      Fits(h, rid, s) && c !in s.byClient
  {
    RoomFits(h, rid);
    RoomOf(h, rid);
    SuspendKeeps(h.rooms[rid], cid, h.limit, h.now);
    hide RoomInv, Registered, Waiting, RoomsSound, AttachmentsAgree;
  }

  /** Deregistering and suspending commute: the record goes first in the proof. */
  lemma DropAttachedKeeps(h: HubState, rid: RID, cid: CID, c: ClientId)
    requires Core(h) && rid in h.rooms && AttachedTo(h.rooms[rid], cid, c)
    ensures Core(PutRoom(Deregister(h, c), rid, Suspend(h.rooms[rid], cid, h.now)))
  {
    var s := Suspend(h.rooms[rid], cid, h.now);
    SuspendFits(h, rid, cid, c);
    RoomOf(h, rid);
    TransportsOff(h, rid, cid, c);
    OnlyRoom(h, rid, c);
    hide Core, RoomInv, Fits, Suspend;
    PutKeeps(h, rid, s);
    DeregisterKeeps(PutRoom(h, rid, s), c);
    assert PutRoom(Deregister(h, c), rid, s) == Deregister(PutRoom(h, rid, s), c);
  }

  lemma NotAttached(h: HubState, c: ClientId)
    requires Core(h)
    requires var rid := Info(h, c).rid; rid in h.rooms ==> !AttachedTo(h.rooms[rid], Info(h, c).cid, c)
    ensures Unattached(h, c)
  {
    var rid := Info(h, c).rid;
    Agreed(h);
    if rid in h.rooms && c in h.rooms[rid].byClient {
      AttachedRecord(h, rid, c);
    }
    hide Core, Registered;
    ElsewhereUnattached(h, c);
  }

  lemma DisconnectKeeps(h: HubState, c: ClientId)
    requires Core(h)
    ensures Core(Disconnect(h, c))
  {
    hide Core, RoomInv, Suspend;
    var rid, cid := Info(h, c).rid, Info(h, c).cid;
    if c in h.clients {
      var d := Deregister(h, c);
      if rid in h.rooms && AttachedTo(h.rooms[rid], cid, c) {
        RoomOf(h, rid);
        AttachedRecord(h, rid, c) by { TransportsOff(h, rid, cid, c); }
        DropAttachedKeeps(h, rid, cid, c);
        SendingKeeps(PutRoom(d, rid, Suspend(h.rooms[rid], cid, h.now)), SuspendInRoom(d, c));
      } else {
        NotAttached(h, c);
        DeregisterKeeps(h, c);
      }
    }
  }

  lemma Agreed(h: HubState)
    requires Core(h)
    ensures AttachmentsAgree(h.rooms, h.clients, h.info) && Registered(h.clients, h.bySID, h.info, h.watchers)
    ensures h.now >= 1 && h.limit >= 2
  {
    hide RoomsSound, Registered, Waiting, AttachmentsAgree;
  }

  // ----- join ----------------------------------------------------------------------

  /** A room that just admitted or gave back `cid` for transport `c` fits a hub in
      which `c` claims that participant. */
  lemma ClaimedFits(h: HubState, rid: RID, cid: CID, c: ClientId, r: RoomState)
    requires Core(h) && Unattached(h, c) && c in h.clients && rid != NO_RID
    requires RoomInv(r, h.limit, h.now) && r.id < h.nextRoom
    requires forall o :: o in r.byClient ==>
               (o == c && r.byClient[o] == cid)
               || (o != c && rid in h.rooms && o in h.rooms[rid].byClient && r.byClient[o] == h.rooms[rid].byClient[o])
    ensures Fits(Claim(h, c, cid, rid), rid, r)
  {
    hide RoomInv, Registered, Waiting, RoomsSound;
  }

  lemma FewerTombs(h: HubState, k: HubState)
    requires Core(h) && k == h.(tombstones := k.tombstones) && k.tombstones.Keys <= h.tombstones.Keys
    ensures Core(k)
  {
    hide RoomsSound, Registered, Waiting, AttachmentsAgree;
  }

  lemma TakenClients(r: RoomState, cid: CID, c: ClientId)
    requires cid in r.byCID
    ensures forall o :: o in TakeSlot(r, cid, c).byClient ==>
              (o == c && TakeSlot(r, cid, c).byClient[o] == cid)
              || (o != c && o in r.byClient && TakeSlot(r, cid, c).byClient[o] == r.byClient[o])
    ensures cid in TakeSlot(r, cid, c).byCID
    ensures
      var done := Complete(TakeSlot(r, cid, c), cid);
      done.id == r.id && done.byClient == TakeSlot(r, cid, c).byClient
  {}

  lemma ParkedClients(r: RoomState, cid: CID, c: ClientId, now: int)
    requires Indexed(r) && cid in r.byCID && c !in r.byClient
    ensures
      var back := Park(TakeSlot(r, cid, c), cid, now);
      && (forall o :: o in back.byClient ==> o != c && o in r.byClient && back.byClient[o] == r.byClient[o])
      && (r.byCID[cid].client.Some? ==> r.byCID[cid].client.value !in back.byClient)
      && back.id == r.id
  {
    RollbackIsPark(r, cid, c, now);
  }

  /** The refused reconnect, up to the messages. */
  lemma RefusedKeeps(h: HubState, c: ClientId, rid: RID, cid: CID)
    requires Core(h) && Unattached(h, c) && c in h.clients && rid in h.rooms && cid in h.rooms[rid].byCID
    ensures
      var back := PutRoom(Claim(h, c, cid, rid), rid, Park(TakeSlot(h.rooms[rid], cid, c), cid, h.now));
      Core(EvictGhost(back, h.rooms[rid].byCID[cid].client))
  {
    hide Core, RoomInv, Fits, Timed, Populated, CapacitySafe, Negotiated, Bounded;
    var r := h.rooms[rid];
    RoomOf(h, rid);
    Agreed(h);
    Parts(r, h.limit, h.now);
    ParkedClients(r, cid, c, h.now);
    RollbackKeeps(r, cid, c, h.limit, h.now);
    hide Park, TakeSlot, Indexed;
    var parked := Park(TakeSlot(r, cid, c), cid, h.now);
    ClaimedFits(h, rid, cid, c, parked);
    ClaimKeeps(h, c, cid, rid);
    var claimed := Claim(h, c, cid, rid);
    PutKeeps(claimed, rid, parked);
    if r.byCID[cid].client.Some? {
      var g := r.byCID[cid].client.value;
      TransportsOff(h, rid, cid, g);
      OnlyRoom(h, rid, g);
      DeregisterKeeps(PutRoom(claimed, rid, parked), g);
    }
  }

  lemma TakenDirect(h: HubState, c: ClientId, rid: RID, cid: CID)
    requires Core(h) && Unattached(h, c) && c in h.clients && rid in h.rooms && cid in h.rooms[rid].byCID
    ensures Core(PutRoom(Claim(h, c, cid, rid), rid, Complete(TakeSlot(h.rooms[rid], cid, c), cid)))
  {
    hide Core, RoomInv, Fits, TakeSlot, Complete;
    var r := h.rooms[rid];
    RoomOf(h, rid);
    TakenClients(r, cid, c);
    ReattachKeeps(r, cid, c, h.limit, h.now);
    var done := Complete(TakeSlot(r, cid, c), cid);
    ClaimedFits(h, rid, cid, c, done);
    ClaimKeeps(h, c, cid, rid);
    PutKeeps(Claim(h, c, cid, rid), rid, done);
  }

  /** The accepted reconnect, up to the messages. */
  lemma TakenKeeps(h: HubState, c: ClientId, rid: RID, cid: CID)
    requires Core(h) && Unattached(h, c) && c in h.clients && rid in h.rooms && cid in h.rooms[rid].byCID
    ensures
      var taken := TakeSlot(h.rooms[rid], cid, c);
      var x := EvictGhost(PutRoom(Claim(h, c, cid, rid), rid, taken), h.rooms[rid].byCID[cid].client);
      Core(PutRoom(x, rid, Complete(taken, cid)))
  {
    hide Core, TakeSlot, Complete, Unattached;
    var r := h.rooms[rid];
    var taken := TakeSlot(r, cid, c);
    var direct := PutRoom(Claim(h, c, cid, rid), rid, Complete(taken, cid));
    TakenDirect(h, c, rid, cid);
    match r.byCID[cid].client
    case None =>
      assert PutRoom(PutRoom(Claim(h, c, cid, rid), rid, taken), rid, Complete(taken, cid)) == direct;
    case Some(g) =>
      GhostCommutes(Claim(h, c, cid, rid), rid, taken, Complete(taken, cid), g);
      GhostGone(h, c, rid, cid, g);
      hide Claim, Deregister;
      DeregisterKeeps(direct, g);
  }

  lemma GhostGone(h: HubState, c: ClientId, rid: RID, cid: CID, g: ClientId)
    requires Core(h) && Unattached(h, c) && rid in h.rooms && AttachedTo(h.rooms[rid], cid, g)
    ensures
      var k := PutRoom(Claim(h, c, cid, rid), rid, Complete(TakeSlot(h.rooms[rid], cid, c), cid));
      Unattached(k, g) && g in k.clients
  {
    hide Core, TakeSlot, Complete;
    TransportsOff(h, rid, cid, g);
    OnlyRoom(h, rid, g);
    TakenClients(h.rooms[rid], cid, c);
    TakenDropsGhost(h.rooms[rid], cid, c);
  }

  lemma GhostCommutes(h: HubState, rid: RID, first: RoomState, second: RoomState, g: ClientId)
    ensures PutRoom(Deregister(PutRoom(h, rid, first), g), rid, second) == Deregister(PutRoom(h, rid, second), g)
  {}

  lemma TakenDropsGhost(r: RoomState, cid: CID, c: ClientId)
    requires cid in r.byCID && r.byCID[cid].client.Some? && r.byCID[cid].client.value != c
    ensures r.byCID[cid].client.value !in TakeSlot(r, cid, c).byClient
  {}

  lemma JoinExistingKeeps(h: HubState, c: ClientId, req: JoinRequest)
    requires Core(h) && Unattached(h, c) && c in h.clients
    requires req.rid in h.rooms && req.reconnectCid in h.rooms[req.rid].byCID
    ensures Core(JoinExisting(h, c, req))
  {
    hide Core, TakeSlot, Park, Complete, RoomInv;
    var rid, cid, r := req.rid, req.reconnectCid, h.rooms[req.rid];
    RoomOf(h, rid);
    TakenClients(r, cid, c);
    var claimed, taken := Claim(h, c, cid, rid), TakeSlot(r, cid, c);
    if ClientMax(req) < r.maxParticipants {
      RefusedKeeps(h, c, rid, cid);
      SendingKeeps(EvictGhost(PutRoom(claimed, rid, Park(taken, cid, h.now)), r.byCID[cid].client),
          JoinExisting(h, c, req));
    } else {
      TakenKeeps(h, c, rid, cid);
      AdmitIs(EvictGhost(PutRoom(claimed, rid, taken), r.byCID[cid].client), c, rid, taken, cid, Reattached);
    }
  }

  /** Where the room has no tombstone, admitting is completing the join and sending. */
  lemma AdmitIs(h: HubState, c: ClientId, rid: RID, r: RoomState, cid: CID, outcome: Outcome)
    requires rid !in h.tombstones && Core(PutRoom(h, rid, Complete(r, cid)))
    ensures Core(Admit(h, c, rid, r, cid, outcome))
  {
    hide Core, Complete, Admit;
    assert h.tombstones - {rid} == h.tombstones;
    AdmitOnly(h, c, rid, r, cid, outcome);
    SendingKeeps(PutRoom(h, rid, Complete(r, cid)), Admit(h, c, rid, r, cid, outcome));
  }

  /** What an accepted join without a former record leaves behind. */
  function JoinDone(h: HubState, c: ClientId, rid: RID, r: RoomState, cid: CID): HubState {
    PutRoom(Claim(h, c, cid, rid), rid, Complete(r, cid)).(tombstones := h.tombstones - {rid})
  }

  lemma AdmittedKeeps(h: HubState, c: ClientId, rid: RID, first: RoomState, r: RoomState, cid: CID, outcome: Outcome)
    requires Core(JoinDone(h, c, rid, r, cid))
    ensures Core(Admit(Claim(PutRoom(h, rid, first), c, cid, rid), c, rid, r, cid, outcome))
  {
    hide Core, Complete, Admit;
    var x := Claim(PutRoom(h, rid, first), c, cid, rid);
    AdmitOnly(x, c, rid, r, cid, outcome);
    assert Admitted(x, rid, r, cid) == JoinDone(h, c, rid, r, cid);
    SendingKeeps(JoinDone(h, c, rid, r, cid), Admit(x, c, rid, r, cid, outcome));
  }

  function Admitted(h: HubState, rid: RID, r: RoomState, cid: CID): HubState {
    PutRoom(h, rid, Complete(r, cid)).(tombstones := h.tombstones - {rid})
  }

  lemma AdmitOnly(h: HubState, c: ClientId, rid: RID, r: RoomState, cid: CID, outcome: Outcome)
    ensures OnlySent(Admitted(h, rid, r, cid), Admit(h, c, rid, r, cid, outcome))
  {
    hide Complete;
  }

  lemma JoinedKeeps(h: HubState, c: ClientId, rid: RID, r: RoomState, cid: CID)
    requires Core(h) && Unattached(h, c) && c in h.clients && rid != NO_RID
    requires RoomInv(Complete(r, cid), h.limit, h.now) && r.id < h.nextRoom
    requires forall o :: o in r.byClient ==>
               (o == c && r.byClient[o] == cid)
               || (o != c && rid in h.rooms && o in h.rooms[rid].byClient && r.byClient[o] == h.rooms[rid].byClient[o])
    ensures Core(JoinDone(h, c, rid, r, cid))
  {
    hide Core, RoomInv, Fits;
    var t := h.(tombstones := h.tombstones - {rid});
    FewerTombs(h, t);
    CompletedSame(r, cid);
    hide Complete;
    ClaimedFits(t, rid, cid, c, Complete(r, cid));
    ClaimKeeps(t, c, cid, rid);
    PutKeeps(Claim(t, c, cid, rid), rid, Complete(r, cid));
    assert PutRoom(Claim(t, c, cid, rid), rid, Complete(r, cid)) == JoinDone(h, c, rid, r, cid);
  }

  lemma CompletedSame(r: RoomState, cid: CID)
    ensures Complete(r, cid).byClient == r.byClient && Complete(r, cid).id == r.id
  {}

  /** A join that creates its room is accepted, whatever it asks for. */
  lemma FoundingKeeps(h: HubState, c: ClientId, req: JoinRequest, newCid: CID)
    requires Core(h) && Unattached(h, c) && c in h.clients
    requires req.rid != NO_RID && req.rid !in h.rooms && newCid != NO_CID
    ensures Core(JoinRoom(h, c, req, newCid))
  {
    hide Core, Complete, RoomInv, JoinRoom, Admit, CreateMax, ClientMax;
    var rid, m := req.rid, CreateMax(req, h.limit);
    var cid := if Proven(req) then req.reconnectCid else newCid;
    var n := NewRoom(h.nextRoom, m);
    var a := Attach(n, cid, c, req.capability);
    var up := h.(nextRoom := h.nextRoom + 1);
    Numbered(h);
    Agreed(h);
    Clamped(req, h.limit);
    DeclaredSize(req, m);
    FoundKeeps(h.nextRoom, m, cid, c, req.capability, h.limit, h.now);
    FoundingIs(h, c, req, newCid);
    JoinedKeeps(up, c, rid, a, cid);
    AdmittedKeeps(up, c, rid, n, a, cid, if Proven(req) then Recovered else Fresh);
  }

  /** What the clamped capability says about the declared one. */
  lemma DeclaredSize(req: JoinRequest, size: int)
    ensures size <= ClientMax(req) <==> Supports(req.capability, size)
  {}

  lemma Clamped(req: JoinRequest, limit: int)
    requires limit >= 2
    ensures 2 <= CreateMax(req, limit) <= limit && CreateMax(req, limit) <= ClientMax(req)
  {}

  lemma FoundingIs(h: HubState, c: ClientId, req: JoinRequest, newCid: CID)
    requires req.rid !in h.rooms && h.limit >= 2
    ensures
      var n := NewRoom(h.nextRoom, CreateMax(req, h.limit));
      var cid := if Proven(req) then req.reconnectCid else newCid;
      JoinRoom(h, c, req, newCid)
      == Admit(Claim(PutRoom(h.(nextRoom := h.nextRoom + 1), req.rid, n), c, cid, req.rid), c, req.rid,
               Attach(n, cid, c, req.capability), cid, if Proven(req) then Recovered else Fresh)
  {
    hide Admit, Attach;
    var e, n := EnsureRoom(h, req.rid, CreateMax(req, h.limit)), NewRoom(h.nextRoom, CreateMax(req, h.limit));
    assert e.rooms[req.rid] == n && |n.byCID| == 0 && n.maxParticipants <= ClientMax(req);
    assert PutRoom(e, req.rid, n) == PutRoom(h.(nextRoom := h.nextRoom + 1), req.rid, n);
  }

  lemma Numbered(h: HubState)
    requires Core(h)
    ensures Core(h.(nextRoom := h.nextRoom + 1))
  {
    hide Registered, Waiting, AttachmentsAgree, RoomInv;
  }

  /** The room a newcomer meets, after the capacity was locked if it had to be. */
  function Met(r: RoomState, clientMax: int): RoomState {
    if !r.locked && |r.byCID| == 1 then LockCapacity(r, clientMax) else r
  }

  lemma LockedSame(r: RoomState, clientMax: int)
    ensures
      var l := LockCapacity(r, clientMax);
      l.byCID == r.byCID && l.byClient == r.byClient && l.id == r.id && l.locked
  {}

  lemma MetKeeps(h: HubState, rid: RID, clientMax: int)
    requires Core(h) && rid in h.rooms && clientMax >= 2
    ensures
      var r := Met(h.rooms[rid], clientMax);
      && Fits(h, rid, r) && r.locked
      && r.byCID == h.rooms[rid].byCID && r.byClient == h.rooms[rid].byClient && r.id == h.rooms[rid].id
      && (!h.rooms[rid].locked ==> |r.byCID| < r.maxParticipants <= clientMax)
  {
    hide Core, Indexed, Timed, Populated, Negotiated, Bounded, RoomInv, LockCapacity;
    var r := h.rooms[rid];
    RoomFits(h, rid);
    RoomOf(h, rid);
    Parts(r, h.limit, h.now);
    if !r.locked {
      LockKeeps(r, clientMax, h.limit, h.now);
      LockedSame(r, clientMax);
    }
  }

  lemma JoinNewKeeps(h: HubState, c: ClientId, req: JoinRequest, newCid: CID)
    requires Core(h) && Unattached(h, c) && c in h.clients && req.rid in h.rooms
    requires req.reconnectCid != NO_CID ==> req.reconnectCid !in h.rooms[req.rid].byCID
    requires newCid != NO_CID && newCid !in h.rooms[req.rid].byCID
    ensures Core(JoinNew(h, c, req, newCid))
  {
    hide Core, RoomInv, LockCapacity, Complete, Attach;
    var rid := req.rid;
    RoomOf(h, rid);
    MetKeeps(h, rid, ClientMax(req));
    var r := Met(h.rooms[rid], ClientMax(req));
    if ClientMax(req) < r.maxParticipants || |r.byCID| >= r.maxParticipants {
      PutKeeps(h, rid, r);
      SendingKeeps(PutRoom(h, rid, r), JoinNew(h, c, req, newCid));
    } else {
      var cid := if Proven(req) then req.reconnectCid else newCid;
      DeclaredSize(req, r.maxParticipants);
      JoinKeeps(r, cid, c, req.capability, h.limit, h.now);
      var a := Attach(r, cid, c, req.capability);
      AttachedClients(r, cid, c, req.capability);
      JoinedKeeps(h, c, rid, a, cid);
      AdmittedKeeps(h, c, rid, r, a, cid, if Proven(req) then Recovered else Fresh);
    }
  }

  lemma AttachedClients(r: RoomState, cid: CID, c: ClientId, cap: Option<int>)
    requires c !in r.byClient
    ensures Attach(r, cid, c, cap).byClient == r.byClient[c := cid] && Attach(r, cid, c, cap).id == r.id
  {}

  lemma JoinRoomKeeps(h: HubState, c: ClientId, req: JoinRequest, newCid: CID)
    requires Core(h) && Unattached(h, c) && c in h.clients && req.rid != NO_RID && newCid != NO_CID
    requires req.rid in h.rooms ==> newCid !in h.rooms[req.rid].byCID
    ensures Core(JoinRoom(h, c, req, newCid))
  {
    hide Core, RoomInv, JoinNew, JoinExisting;
    if req.rid !in h.rooms {
      FoundingKeeps(h, c, req, newCid);
    } else if req.reconnectCid != NO_CID && req.reconnectCid in h.rooms[req.rid].byCID {
      JoinExistingKeeps(h, c, req);
    } else {
      JoinNewKeeps(h, c, req, newCid);
    }
  }

  /** A removal creates no room and no record. */
  lemma LeaveShrinks(h: HubState, c: ClientId, pick: CID, rid: RID)
    requires rid in LeaveRoom(h, c, pick).rooms
    ensures rid in h.rooms && LeaveRoom(h, c, pick).rooms[rid].byCID.Keys <= h.rooms[rid].byCID.Keys
  {
    var r := Info(h, c).rid;
    if r in h.rooms && AttachedTo(h.rooms[r], Info(h, c).cid, c) {
      SettleIs(TakeOut(h, r, Info(h, c).cid, pick), r);
      hide Settle;
    }
  }

  lemma SweepKeeps(h: HubState, rid: RID)
    requires Core(h)
    ensures Core(SweepTombstone(h, rid))
  {
    hide Core;
    FewerTombs(h, SweepTombstone(h, rid));
  }

  lemma SweepSame(h: HubState, rid: RID, c: ClientId)
    ensures SweepTombstone(h, rid).rooms == h.rooms && SweepTombstone(h, rid).clients == h.clients
    ensures Unattached(SweepTombstone(h, rid), c) <==> Unattached(h, c)
  {}

  lemma HandleJoinKeeps(h: HubState, c: ClientId, req: JoinRequest, newCid: CID, pick: CID)
    requires Core(h) && Unattached(h, c) && c in h.clients && newCid != NO_CID
    requires req.rid in h.rooms ==> newCid !in h.rooms[req.rid].byCID
    ensures Core(HandleJoin(h, c, req, newCid, pick))
  {
    hide Core, JoinRoom, EvictExpired, SweepTombstone, TombstoneActive, SendError, Unattached;
    forall code
      ensures Core(SendError(h, c, code))
    {
      ErrorKeeps(h, c, code);
    }
    ExpiredKeeps(h, req.rid, req.reconnectCid, pick);
    ErrorKeeps(EvictExpired(h, req.rid, req.reconnectCid, pick), c, InvalidReconnectToken);
    if req.rid != NO_RID {
      JoinRoomKeeps(h, c, req, newCid);
      SweepKeeps(h, req.rid);
      SweepSame(h, req.rid, c);
      JoinRoomKeeps(SweepTombstone(h, req.rid), c, req, newCid);
    }
  }

  lemma ErrorKeeps(h: HubState, c: ClientId, code: ErrorCode)
    requires Core(h)
    ensures Core(SendError(h, c, code))
  {
    hide Core;
    SendingKeeps(h, SendError(h, c, code));
  }

  lemma JoinMessageKeeps(h: HubState, c: ClientId, req: JoinRequest, newCid: CID, pick: CID, pick2: CID)
    requires Core(h) && c in h.clients && newCid != NO_CID
    requires req.rid in h.rooms ==> newCid !in h.rooms[req.rid].byCID
    ensures Core(JoinMessage(h, c, req, newCid, pick, pick2))
  {
    if Info(h, c).rid != NO_RID {
      LeaveKeeps(h, c, pick);
      if req.rid in LeaveRoom(h, c, pick).rooms {
        LeaveShrinks(h, c, pick, req.rid);
      }
      hide Core, LeaveRoom, HandleJoin;
      HandleJoinKeeps(LeaveRoom(h, c, pick), c, req, newCid, pick2);
    } else {
      NoNullRoom(h);
      NotAttached(h, c);
      hide Core, HandleJoin;
      HandleJoinKeeps(h, c, req, newCid, pick2);
    }
  }

  // ----- the other messages ----------------------------------------------------------

  lemma EndRoomKeeps(h: HubState, c: ClientId)
    requires Core(h)
    ensures Core(EndRoom(h, c))
  {
    hide Core, EndRoom;
    NoNullRoom(h);
    EndingIs(h, c);
    var rid := Info(h, c).rid;
    if rid in h.rooms && c in h.rooms[rid].byClient && h.rooms[rid].byClient[c] == h.rooms[rid].host {
      DropKeeps(h, rid);
      var tombs := GcTombstones(h.tombstones[rid := h.now + ROOM_TOMBSTONE_TTL], h.now);
      EntombKeeps(DropRoom(h, rid), rid, tombs);
      SendingKeeps(DropRoom(h, rid).(tombstones := tombs), EndRoom(h, c));
    } else {
      SendingKeeps(h, EndRoom(h, c));
    }
  }

  /** Apart from messages, ending a room removes it and records its tombstone. */
  lemma EndingIs(h: HubState, c: ClientId)
    ensures
      var rid := Info(h, c).rid;
      OnlySent(if && rid != NO_RID && rid in h.rooms
                  && c in h.rooms[rid].byClient && h.rooms[rid].byClient[c] == h.rooms[rid].host
               then DropRoom(h, rid).(
                 tombstones := GcTombstones(h.tombstones[rid := h.now + ROOM_TOMBSTONE_TTL], h.now))
               else h,
               EndRoom(h, c))
  {
    hide GcTombstones;
  }

  lemma EntombKeeps(h: HubState, rid: RID, tombs: map<RID, int>)
    requires Core(h) && rid !in h.rooms && tombs.Keys <= h.tombstones.Keys + {rid}
    ensures Core(h.(tombstones := tombs))
  {
    hide RoomsSound, Registered, Waiting, AttachmentsAgree;
  }

  lemma MarkFits(h: HubState, rid: RID, c: ClientId, targets: set<CID>)
    requires Core(h) && rid in h.rooms && c in h.rooms[rid].byClient
    requires forall t :: t in targets ==> t != h.rooms[rid].byClient[c] && Suspended(h.rooms[rid], t)
    ensures Fits(h, rid, MarkMissed(h.rooms[rid], h.rooms[rid].byClient[c], targets))
  {
    RoomFits(h, rid);
    AttachedRecord(h, rid, c);
    hide Core, RoomInv;
    MarkMissedKeeps(h.rooms[rid], h.rooms[rid].byClient[c], targets, h.limit, h.now);
  }

  lemma RelayKeeps(h: HubState, c: ClientId, kind: Kind, to: CID)
    requires Core(h)
    ensures Core(RelayMessage(h, c, kind, to))
  {
    hide Core, MarkMissed, Fits, RoomInv;
    var rid := Info(h, c).rid;
    if rid in h.rooms && c in h.rooms[rid].byClient {
      var r := h.rooms[rid];
      var missed := if Negotiates(kind) then SuspendedAudience(r, r.byClient[c], to) else {};
      MarkFits(h, rid, c, missed);
      RoomOf(h, rid);
      PutKeeps(h, rid, MarkMissed(r, r.byClient[c], missed));
      SendingKeeps(PutRoom(h, rid, MarkMissed(r, r.byClient[c], missed)), RelayMessage(h, c, kind, to));
    }
  }

  lemma ReportFits(h: HubState, c: ClientId, reports: seq<CID>)
    requires Core(h) && LivenessAccepted(h, c)
    ensures Fits(h, Info(h, c).rid, Reported(h, c, reports))
  {
    var rid := Info(h, c).rid;
    RoomFits(h, rid);
    AttachedRecord(h, rid, c);
    hide Core, RoomInv;
    RecordKeeps(h.rooms[rid], h.rooms[rid].byClient[c], reports, h.limit, h.now);
  }

  lemma {:induction false} EvictAllKeeps(h: HubState, rid: RID, id: nat, order: seq<CID>, picks: seq<CID>)
    requires Core(h) && |picks| == |order|
    ensures Core(EvictAll(h, rid, id, order, picks))
    decreases |order|
  {
    hide Core, EvictionFires;
    if order != [] {
      EvictionFiresKeeps(h, rid, id, order[0], picks[0]);
      EvictAllKeeps(EvictionFires(h, rid, id, order[0], picks[0]), rid, id, order[1..], picks[1..]);
    }
  }

  lemma LivenessKeeps(h: HubState, c: ClientId, reports: seq<CID>, order: seq<CID>, picks: seq<CID>)
    requires Core(h) && |picks| == |order|
    ensures Core(LivenessMessage(h, c, reports, order, picks))
  {
    hide Core, Fits, RoomInv, Reported, EvictAll;
    if LivenessAccepted(h, c) {
      var rid, r := Info(h, c).rid, Reported(h, c, reports);
      ReportFits(h, c, reports);
      RoomOf(h, rid);
      PutKeeps(h, rid, r);
      EvictAllKeeps(PutRoom(h, rid, r), rid, r.id, order, picks);
    }
  }

  lemma WatchKeeps(h: HubState, c: ClientId, rids: set<RID>)
    requires Core(h) && c in h.clients
    ensures Core(WatchRooms(h, c, rids))
  {
    hide RoomsSound, Waiting, AttachmentsAgree;
    var k := WatchRooms(h, c, rids);
    forall rid | rid in k.watchers
      ensures k.watchers[rid] <= k.clients
    {
      assert rid in h.watchers ==> h.watchers[rid] <= h.clients;
    }
  }

  // ----- all steps, all runs ------------------------------------------------------------

  /** What the handlers rely on of an enabled event. */
  lemma Promised(h: HubState, e: Event, at: int)
    requires Enabled(h, e, at)
    ensures h.now <= at
    ensures e.WsConnect? ==> e.c !in h.info && e.sid !in h.bySID
    ensures e.SseConnect? ==> e.c !in h.info
    ensures e.Join? ==> e.newCid != NO_CID && (e.req.rid in h.rooms ==> e.newCid !in h.rooms[e.req.rid].byCID)
    ensures e.Liveness? ==> |e.picks| == |e.order|
  {
    hide Ghosts, Reported;
  }

  lemma StepKeeps(h: HubState, e: Event, at: int)
    requires Core(h) && Enabled(h, e, at)
    ensures Core(Step(h, e, at))
  {
    hide Core, Enabled;
    var k := h.(now := at);
    Promised(h, e, at);
    ClockKeeps(h, at);
    match e
    case WsConnect(c, sid) => RegisterKeeps(k, c, sid);
    case SseConnect(c, sid) => ServeSSEKeeps(k, c, sid);
    case SseTakeover(sid) => PromoteKeeps(k, sid);
    case SseAbandon(c) => AbandonKeeps(k, c);
    case Drop(c) => DisconnectKeeps(k, c);
    case Join(c, req, newCid, pick, pick2) =>
      if c in k.clients { JoinMessageKeeps(k, c, req, newCid, pick, pick2); }
    case Leave(c, pick) =>
      LeaveKeeps(k, c, pick);
    case End(c) => EndRoomKeeps(k, c);
    case RelayEvent(c, kind, to) => RelayKeeps(k, c, kind, to);
    case Liveness(c, reports, order, picks) => LivenessKeeps(k, c, reports, order, picks);
    case WatchEvent(c, rids) =>
      if c in k.clients { WatchKeeps(k, c, rids); }
    case HttpLeave(rid, cid, pick) => HttpLeaveKeeps(k, rid, cid, pick);
    case EvictTimer(rid, id, cid, pick) => EvictionFiresKeeps(k, rid, id, cid, pick);
    case IdleTimer(rid, id) => IdleFiresKeeps(k, rid, id);
  }

  /** A run: events with their times, each enabled where it happens. */
  ghost predicate Run(h: HubState, events: seq<(Event, int)>)
    decreases |events|
  {
    events == [] || (Enabled(h, events[0].0, events[0].1) && Run(Step(h, events[0].0, events[0].1), events[1..]))
  }

  ghost function After(h: HubState, events: seq<(Event, int)>): HubState
    requires Run(h, events)
    decreases |events|
  {
    if events == [] then h else After(Step(h, events[0].0, events[0].1), events[1..])
  }

  lemma InitKeeps(limit: int)
    ensures Core(Init(limit))
  {}

  /** The hub invariant holds in every reachable state. */
  lemma {:induction false} RunKeeps(h: HubState, events: seq<(Event, int)>)
    requires Core(h) && Run(h, events)
    ensures Core(After(h, events))
    decreases |events|
  {
    hide Core, Step, Enabled;
    if events != [] {
      StepKeeps(h, events[0].0, events[0].1);
      RunKeeps(Step(h, events[0].0, events[0].1), events[1..]);
    }
  }
}
