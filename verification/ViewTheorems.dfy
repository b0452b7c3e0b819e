/** What attached members were last told of their room is the room as it is. */
module ViewTheorems {
  import opened Wrappers
  import opened SignalingTypes
  import opened RoomSpec
  import opened RoomInvariant
  import opened HubSpec
  import opened HubInvariant
  import opened HubSteps
  import opened RoomHistory
  import opened HubTheorems

  /** The state of the room that a transport was last sent.  A transport that took over
      another one counts as the same member. */
  function LastState(sent: seq<Sent>, c: ClientId, rid: RID): Option<Snapshot>
    decreases |sent|
  {
    if sent == [] then None
    else
      var last, before := sent[|sent| - 1], sent[..|sent| - 1];
      match last
      case TookOver(prev, next) => LastState(before, if c == next then prev else c, rid)
      case Sent(to, Joined(r, _, s, _, _)) => if c in to && r == rid then Some(s) else LastState(before, c, rid)
      case Sent(to, RoomStateMsg(r, _, s)) => if c in to && r == rid then Some(s) else LastState(before, c, rid)
      case Sent(_, _) => LastState(before, c, rid)
  }

  ghost predicate UpToDate(h: HubState, rid: RID) {
    rid in h.rooms ==>
      forall c :: c in h.rooms[rid].byClient ==> LastState(h.sent, c, rid) == Some(Snap(h.rooms[rid]))
  }

  ghost predicate AllUpToDate(h: HubState) {
    forall rid :: UpToDate(h, rid)
  }

  // ----- growing logs -----------------------------------------------------------------------

  /** The message carries the state of no room but `rid`; with NO_RID, of no room. */
  predicate About(s: Sent, rid: RID) {
    s.Sent? && (s.body.Joined? || s.body.RoomStateMsg? ==> rid != NO_RID && s.body.rid == rid)
  }

  ghost predicate Longer(a: seq<Sent>, b: seq<Sent>, rid: RID) {
    a <= b && forall i :: |a| <= i < |b| ==> About(b[i], rid)
  }

  lemma {:induction false} LongerState(a: seq<Sent>, b: seq<Sent>, rid: RID, c: ClientId, o: RID)
    requires Longer(a, b, rid) && (o != rid || rid == NO_RID)
    ensures LastState(b, c, o) == LastState(a, c, o)
    decreases |b|
  {
    if |a| < |b| {
      LongerState(a, b[..|b| - 1], rid, c, o);
    } else {
      assert a == b;
    }
  }

  /** Only room `rid` changed, and only its state was sent. */
  ghost predicate Touched(h: HubState, k: HubState, rid: RID) {
    && Longer(h.sent, k.sent, rid)
    && (forall o :: o in k.rooms && o != rid ==> o in h.rooms && k.rooms[o] == h.rooms[o])
  }

  lemma OthersUpToDate(h: HubState, k: HubState, rid: RID)
    requires AllUpToDate(h) && Touched(h, k, rid)
    ensures forall o :: o != rid ==> UpToDate(k, o)
  {
    forall o | o != rid
      ensures UpToDate(k, o)
    {
      assert UpToDate(h, o);
      forall c
        ensures LastState(k.sent, c, o) == LastState(h.sent, c, o)
      {
        LongerState(h.sent, k.sent, rid, c, o);
      }
    }
  }

  /** A change of one room that ends with its broadcast. */
  lemma BroadcastUpdates(h: HubState, x: HubState, rid: RID)
    requires AllUpToDate(h) && Touched(h, x, rid) && rid in x.rooms && rid != NO_RID
    ensures AllUpToDate(BroadcastState(x, rid))
  {
    hide Snap;
    var k := BroadcastState(x, rid);
    assert Touched(h, k, rid) by { TouchedState(h, x, rid, x.rooms[rid].byClient.Keys); }
    OthersUpToDate(h, k, rid);
    assert k.sent[..|k.sent| - 1] == x.sent;
    assert UpToDate(k, rid);
  }

  /** A room that vanishes, or that looks the same to no more transports, needs no broadcast. */
  lemma QuietlyUpToDate(h: HubState, k: HubState, rid: RID)
    requires AllUpToDate(h) && Longer(h.sent, k.sent, NO_RID)
    requires forall o :: o in k.rooms && o != rid ==> o in h.rooms && k.rooms[o] == h.rooms[o]
    requires rid in k.rooms && k.rooms[rid].byClient != map[] ==>
               && rid in h.rooms && Snap(k.rooms[rid]) == Snap(h.rooms[rid])
               && k.rooms[rid].byClient.Keys <= h.rooms[rid].byClient.Keys
    ensures AllUpToDate(k)
  {
    hide Snap;
    forall o
      ensures UpToDate(k, o)
    {
      assert UpToDate(h, o);
      forall c
        ensures LastState(k.sent, c, o) == LastState(h.sent, c, o)
      {
        LongerState(h.sent, k.sent, NO_RID, c, o);
      }
    }
  }

  /** Messages without room state, and changes outside of the rooms. */
  lemma PlainlyUpToDate(h: HubState, k: HubState)
    requires AllUpToDate(h) && Longer(h.sent, k.sent, NO_RID) && k.rooms == h.rooms
    ensures AllUpToDate(k)
  {
    QuietlyUpToDate(h, k, NO_RID);
  }

  // ----- the building blocks ---------------------------------------------------------------------

  lemma TouchedRefl(h: HubState, k: HubState, rid: RID)
    requires k.sent == h.sent && forall o :: o in k.rooms && o != rid ==> o in h.rooms && k.rooms[o] == h.rooms[o]
    ensures Touched(h, k, rid) && Longer(h.sent, k.sent, NO_RID)
  {}

  lemma TouchedPut(h: HubState, k: HubState, rid: RID, r: RoomState)
    requires Touched(h, k, rid)
    ensures Touched(h, PutRoom(k, rid, r), rid) && PutRoom(k, rid, r).sent == k.sent
  {}

  lemma TouchedSend(h: HubState, k: HubState, rid: RID, to: set<ClientId>, body: Body)
    requires Touched(h, k, rid) && About(Sent(to, body), rid)
    ensures Touched(h, Send(k, to, body), rid) && Send(k, to, body).rooms == k.rooms
  {}

  lemma TouchedState(h: HubState, k: HubState, rid: RID, to: set<ClientId>)
    requires Touched(h, k, rid) && rid in k.rooms && rid != NO_RID
    ensures Touched(h, StateTo(k, rid, to), rid) && StateTo(k, rid, to).rooms == k.rooms
  {
    hide Snap;
    TouchedSend(h, k, rid, to, RoomStateMsg(rid, k.rooms[rid].id, Snap(k.rooms[rid])));
  }

  lemma LongerSend(a: seq<Sent>, k: HubState, to: set<ClientId>, body: Body)
    requires Longer(a, k.sent, NO_RID) && !body.Joined? && !body.RoomStateMsg?
    ensures Longer(a, Send(k, to, body).sent, NO_RID) && Send(k, to, body).rooms == k.rooms
  {}

  lemma StatusUpToDate(h: HubState, rid: RID)
    requires AllUpToDate(h)
    ensures AllUpToDate(Status(h, rid))
  {
    if rid in h.watchers {
      LongerSend(h.sent, h, h.watchers[rid], StatusUpdate(rid, Count(h, rid)));
    }
    PlainlyUpToDate(h, Status(h, rid));
  }

  lemma SendUpToDate(h: HubState, to: set<ClientId>, body: Body)
    requires AllUpToDate(h) && !body.Joined? && !body.RoomStateMsg?
    ensures AllUpToDate(Send(h, to, body))
  {
    LongerSend(h.sent, h, to, body);
    PlainlyUpToDate(h, Send(h, to, body));
  }

  lemma SameUpToDate(h: HubState, k: HubState)
    requires AllUpToDate(h) && k.sent == h.sent && k.rooms == h.rooms
    ensures AllUpToDate(k)
  {
    PlainlyUpToDate(h, k);
  }

  // ----- departures -----------------------------------------------------------------------------------

  lemma SettleUpToDate(h: HubState, x: HubState, rid: RID)
    requires AllUpToDate(h) && x.sent == h.sent && rid in x.rooms && rid != NO_RID
    requires forall o :: o in x.rooms && o != rid ==> o in h.rooms && x.rooms[o] == h.rooms[o]
    ensures AllUpToDate(Settle(x, rid))
  {
    hide AllUpToDate, Status, BroadcastState;
    if x.rooms[rid].byCID == map[] {
      QuietlyUpToDate(h, DropRoom(x, rid), rid);
      StatusUpToDate(DropRoom(x, rid), rid);
    } else {
      TouchedRefl(h, x, rid);
      BroadcastUpdates(h, x, rid);
      StatusUpToDate(BroadcastState(x, rid), rid);
    }
  }

  lemma TakeOutUpToDate(h: HubState, rid: RID, cid: CID, pick: CID)
    requires AllUpToDate(h) && rid in h.rooms && cid in h.rooms[rid].byCID && rid != NO_RID
    ensures AllUpToDate(Settle(TakeOut(h, rid, cid, pick), rid))
  {
    hide AllUpToDate, Settle, Remove;
    SettleUpToDate(h, TakeOut(h, rid, cid, pick), rid);
  }

  lemma LeaveUpToDate(h: HubState, c: ClientId, pick: CID)
    requires AllUpToDate(h) && NO_RID !in h.rooms
    ensures AllUpToDate(LeaveRoom(h, c, pick))
  {
    hide AllUpToDate, Settle, TakeOut;
    var rid, cid := Info(h, c).rid, Info(h, c).cid;
    if rid in h.rooms && AttachedTo(h.rooms[rid], cid, c) {
      TakeOutUpToDate(h, rid, cid, pick);
    }
  }

  lemma ExpiredUpToDate(h: HubState, rid: RID, cid: CID, pick: CID)
    requires AllUpToDate(h)
    ensures AllUpToDate(EvictExpired(h, rid, cid, pick))
  {
    hide AllUpToDate, Settle, TakeOut;
    if rid != NO_RID && rid in h.rooms && Suspended(h.rooms[rid], cid) {
      TakeOutUpToDate(h, rid, cid, pick);
    }
  }

  lemma HttpLeaveUpToDate(h: HubState, rid: RID, cid: CID, pick: CID)
    requires AllUpToDate(h) && NO_RID !in h.rooms
    ensures AllUpToDate(EvictByLeave(h, rid, cid, pick))
  {
    hide AllUpToDate, Settle, Remove, Deregister;
    if rid in h.rooms && cid in h.rooms[rid].byCID {
      var out := TakeOut(h, rid, cid, pick);
      match h.rooms[rid].byCID[cid].client {
        case None => TakeOutUpToDate(h, rid, cid, pick);
        case Some(c) =>
          DeregisterFields(out, c);
          SettleUpToDate(h, Deregister(out, c), rid);
      }
    }
  }

  lemma DeferredLooksSame(r: RoomState, cid: CID, now: int)
    requires Suspended(r, cid)
    ensures Snap(Defer(r, cid, now)) == Snap(r) && Defer(r, cid, now).byClient == r.byClient
  {
    assert Defer(r, cid, now).byCID.Keys == r.byCID.Keys;
    assert SuspendedCIDs(Defer(r, cid, now)) == SuspendedCIDs(r);
  }

  lemma EvictionUpToDate(h: HubState, rid: RID, id: nat, cid: CID, pick: CID)
    requires AllUpToDate(h) && NO_RID !in h.rooms
    ensures AllUpToDate(EvictionFires(h, rid, id, cid, pick))
  {
    hide AllUpToDate, Settle, TakeOut, Defer, Snap;
    if rid in h.rooms && Suspended(h.rooms[rid], cid) {
      TakeOutUpToDate(h, rid, cid, pick);
      DeferredLooksSame(h.rooms[rid], cid, h.now);
      TouchedRefl(h, PutRoom(h, rid, Defer(h.rooms[rid], cid, h.now)), rid);
      QuietlyUpToDate(h, PutRoom(h, rid, Defer(h.rooms[rid], cid, h.now)), rid);
    }
  }

  lemma IdleUpToDate(h: HubState, rid: RID, id: nat)
    requires AllUpToDate(h)
    ensures AllUpToDate(IdleFires(h, rid, id))
  {
    hide AllUpToDate, Status;
    if rid in h.rooms {
      var off := PutRoom(h, rid, h.rooms[rid].(idleAt := None));
      TouchedRefl(h, off, rid);
      QuietlyUpToDate(h, off, rid);
      TouchedRefl(h, DropRoom(h, rid), rid);
      QuietlyUpToDate(h, DropRoom(h, rid), rid);
      StatusUpToDate(DropRoom(h, rid), rid);
    }
  }

  lemma DropUpToDate(h: HubState, c: ClientId)
    requires AllUpToDate(h)
    ensures AllUpToDate(Disconnect(h, c))
  {
    hide AllUpToDate, Status, BroadcastState, Suspend, Deregister;
    if c in h.clients {
      var rid, d := Info(h, c).rid, Deregister(h, c);
      DeregisterFields(h, c);
      SameUpToDate(h, d);
      if SuspendInRoom(d, c) != d {
        var s := PutRoom(d, rid, Suspend(d.rooms[rid], Info(d, c).cid, d.now));
        TouchedRefl(d, s, rid);
        if s.rooms[rid].byClient != map[] {
          BroadcastUpdates(d, s, rid);
          StatusUpToDate(BroadcastState(s, rid), rid);
        } else {
          QuietlyUpToDate(d, s, rid);
          StatusUpToDate(s, rid);
        }
      }
    }
  }

  // ----- join --------------------------------------------------------------------------------------------

  lemma AdmitUpToDate(h: HubState, x: HubState, c: ClientId, rid: RID, r: RoomState, cid: CID, outcome: Outcome)
    requires AllUpToDate(h) && Touched(h, x, rid) && rid != NO_RID
    ensures AllUpToDate(Admit(x, c, rid, r, cid, outcome))
  {
    hide AllUpToDate, Touched, Status, Complete, Snap, Send, TransportsOf, StateTo;
    var done, partners := Complete(r, cid), DirtyPartners(r.dirty, cid);
    var h1 := PutRoom(x, rid, done).(tombstones := x.tombstones - {rid});
    TouchedPut(h, x, rid, done);
    TouchedSame(h, PutRoom(x, rid, done), h1, rid);
    var joined := Joined(rid, done.id, Snap(done), cid, outcome);
    var h2 := Send(h1, {c}, joined);
    TouchedSend(h, h1, rid, {c}, joined);
    TouchedState(h, h2, rid, {c});
    var t := StateTo(h2, rid, {c});
    BroadcastUpdates(h, t, rid);
    var h3 := BroadcastState(t, rid);
    SendUpToDate(h3, TransportsOf(done, partners), NegotiationDirty(cid));
    StatusUpToDate(if partners != {} then Send(h3, TransportsOf(done, partners), NegotiationDirty(cid)) else h3, rid);
  }

  lemma TouchedSame(h: HubState, k: HubState, l: HubState, rid: RID)
    requires Touched(h, k, rid) && l.sent == k.sent && l.rooms == k.rooms
    ensures Touched(h, l, rid)
  {}

  /** A refused reconnect to a suspended member leaves the room looking as it did. */
  lemma ParkedLooksSame(r: RoomState, cid: CID, c: ClientId, now: int)
    requires Suspended(r, cid) && c !in r.byClient
    ensures
      var s := Park(TakeSlot(r, cid, c), cid, now);
      Snap(s) == Snap(r) && s.byClient == r.byClient
  {
    var s := Park(TakeSlot(r, cid, c), cid, now);
    assert s.byCID.Keys == r.byCID.Keys;
    assert SuspendedCIDs(s) == SuspendedCIDs(r);
    assert s.byClient == r.byClient;
  }

  lemma RefusedUpToDate(h: HubState, c: ClientId, req: JoinRequest)
    requires AllUpToDate(h) && req.rid != NO_RID && req.rid in h.rooms && c !in h.rooms[req.rid].byClient
    requires req.reconnectCid in h.rooms[req.rid].byCID && ClientMax(req) < h.rooms[req.rid].maxParticipants
    ensures AllUpToDate(JoinExisting(h, c, req))
  {
    hide AllUpToDate, Touched, Admit, TakeSlot, Park, EvictGhost, BroadcastState, SendError, Claim, Snap, Send;
    var rid, cid, r := req.rid, req.reconnectCid, h.rooms[req.rid];
    TakenClients(r, cid, c);
    ClaimFields(h, c, cid, rid);
    var former, s := r.byCID[cid].client, Park(TakeSlot(r, cid, c), cid, h.now);
    var parked := PutRoom(Claim(h, c, cid, rid), rid, s);
    var back := EvictGhost(parked, former);
    GhostRooms(parked, former);
    TouchedRefl(h, back, rid);
    if former.Some? && s.byClient != map[] {
      BroadcastUpdates(h, back, rid);
      ErrorUpToDate(BroadcastState(back, rid), c, RoomCapacityUnsupported);
    } else {
      if former.None? {
        ParkedLooksSame(r, cid, c, h.now);
      }
      QuietlyUpToDate(h, back, rid);
      ErrorUpToDate(back, c, RoomCapacityUnsupported);
    }
  }

  lemma ErrorUpToDate(h: HubState, c: ClientId, code: ErrorCode)
    requires AllUpToDate(h)
    ensures AllUpToDate(SendError(h, c, code))
  {
    hide AllUpToDate;
    SendUpToDate(h, {c}, Error(code));
  }

  lemma RejoinedUpToDate(h: HubState, c: ClientId, req: JoinRequest)
    requires AllUpToDate(h) && req.rid != NO_RID && req.rid in h.rooms
    requires req.reconnectCid in h.rooms[req.rid].byCID && ClientMax(req) >= h.rooms[req.rid].maxParticipants
    ensures AllUpToDate(JoinExisting(h, c, req))
  {
    hide AllUpToDate, Touched, Admit, TakeSlot, Park, EvictGhost, BroadcastState, SendError, Claim;
    var rid, cid, r := req.rid, req.reconnectCid, h.rooms[req.rid];
    TakenClients(r, cid, c);
    ClaimFields(h, c, cid, rid);
    var taken := PutRoom(Claim(h, c, cid, rid), rid, TakeSlot(r, cid, c));
    GhostRooms(taken, r.byCID[cid].client);
    var x := EvictGhost(taken, r.byCID[cid].client);
    TouchedRefl(h, x, rid);
    AdmitUpToDate(h, x, c, rid, TakeSlot(r, cid, c), cid, Reattached);
  }

  lemma NewcomerUpToDate(h: HubState, c: ClientId, req: JoinRequest, newCid: CID)
    requires AllUpToDate(h) && Core(h) && req.rid in h.rooms && req.rid != NO_RID
    requires req.reconnectCid != NO_CID ==> req.reconnectCid !in h.rooms[req.rid].byCID
    ensures AllUpToDate(JoinNew(h, c, req, newCid))
  {
    hide AllUpToDate, Touched, Core, Admit, Attach, SendError, Met, JoinNew, FateOf, Claim;
    NewcomerIs(h, c, req, newCid);
    var rid, r := req.rid, Met(h.rooms[req.rid], ClientMax(req));
    var cid := if Proven(req) then req.reconnectCid else newCid;
    if FateOf(h, req).Rejected? {
      RejectedUnlocked(h, req);
      PutSame(h, rid);
      ErrorUpToDate(h, c, if ClientMax(req) < r.maxParticipants then RoomCapacityUnsupported else RoomFull);
    } else {
      var x := Claim(PutRoom(h, rid, r), c, cid, rid);
      ClaimFields(PutRoom(h, rid, r), c, cid, rid);
      TouchedRefl(h, x, rid);
      AdmitUpToDate(h, x, c, rid, Attach(r, cid, c, req.capability), cid, if Proven(req) then Recovered else Fresh);
    }
  }

  lemma FoundingUpToDate(h: HubState, c: ClientId, req: JoinRequest, newCid: CID)
    requires AllUpToDate(h) && req.rid !in h.rooms && h.limit >= 2 && req.rid != NO_RID
    ensures AllUpToDate(JoinRoom(h, c, req, newCid))
  {
    hide AllUpToDate, Touched, Admit, Attach, JoinRoom, Claim, CreateMax;
    FoundingIs(h, c, req, newCid);
    var rid, n := req.rid, NewRoom(h.nextRoom, CreateMax(req, h.limit));
    var cid := if Proven(req) then req.reconnectCid else newCid;
    var put := PutRoom(h.(nextRoom := h.nextRoom + 1), rid, n);
    ClaimFields(put, c, cid, rid);
    TouchedRefl(h, Claim(put, c, cid, rid), rid);
    AdmitUpToDate(h, Claim(put, c, cid, rid), c, rid, Attach(n, cid, c, req.capability), cid,
                  if Proven(req) then Recovered else Fresh);
  }

  lemma JoinRoomUpToDate(h: HubState, c: ClientId, req: JoinRequest, newCid: CID)
    requires AllUpToDate(h) && Core(h) && Unattached(h, c) && req.rid != NO_RID
    ensures AllUpToDate(JoinRoom(h, c, req, newCid))
  {
    hide AllUpToDate, Core, JoinExisting, JoinNew;
    Agreed(h);
    if req.rid !in h.rooms {
      FoundingUpToDate(h, c, req, newCid);
    } else if req.reconnectCid != NO_CID && req.reconnectCid in h.rooms[req.rid].byCID {
      if ClientMax(req) < h.rooms[req.rid].maxParticipants {
        RefusedUpToDate(h, c, req);
      } else {
        RejoinedUpToDate(h, c, req);
      }
    } else {
      NewcomerUpToDate(h, c, req, newCid);
    }
  }

  lemma HandleJoinUpToDate(h: HubState, c: ClientId, req: JoinRequest, newCid: CID, pick: CID)
    requires AllUpToDate(h) && Core(h) && Unattached(h, c)
    ensures AllUpToDate(HandleJoin(h, c, req, newCid, pick))
  {
    hide AllUpToDate, Core, JoinRoom, EvictExpired, SendError, SweepTombstone, TombstoneActive, Unattached;
    forall code
      ensures AllUpToDate(SendError(h, c, code))
    {
      ErrorUpToDate(h, c, code);
    }
    ExpiredUpToDate(h, req.rid, req.reconnectCid, pick);
    ErrorUpToDate(EvictExpired(h, req.rid, req.reconnectCid, pick), c, InvalidReconnectToken);
    if req.rid != NO_RID {
      JoinRoomUpToDate(h, c, req, newCid);
      SweepKeeps(h, req.rid);
      SweptUnattached(h, req.rid, c);
      SweptSame(h, req.rid);
      SameUpToDate(h, SweepTombstone(h, req.rid));
      JoinRoomUpToDate(SweepTombstone(h, req.rid), c, req, newCid);
    }
  }

  lemma SweptSame(h: HubState, rid: RID)
    ensures SweepTombstone(h, rid).sent == h.sent && SweepTombstone(h, rid).rooms == h.rooms
  {}

  lemma JoinUpToDate(h: HubState, c: ClientId, req: JoinRequest, newCid: CID, pick: CID, pick2: CID)
    requires AllUpToDate(h) && Core(h) && c in h.clients
    ensures AllUpToDate(JoinMessage(h, c, req, newCid, pick, pick2))
  {
    hide AllUpToDate, Core, LeaveRoom, HandleJoin, Unattached, HubQuiet;
    NoNullRoom(h);
    LeaveUpToDate(h, c, pick);
    LeavingFirst(h, c, pick);
    HandleJoinUpToDate(AfterLeave(h, c, pick), c, req, newCid, pick2);
  }

  // ----- the other messages --------------------------------------------------------------------------------

  lemma EndUpToDate(h: HubState, c: ClientId)
    requires AllUpToDate(h)
    ensures AllUpToDate(EndRoom(h, c))
  {
    hide AllUpToDate, Status, SendError, Send, GcTombstones;
    var rid := Info(h, c).rid;
    ErrorUpToDate(h, c, NotHost);
    if rid in h.rooms {
      var told := Send(h, h.rooms[rid].byClient.Keys, RoomEnded(rid));
      var buried := GcTombstones(h.tombstones[rid := h.now + ROOM_TOMBSTONE_TTL], h.now);
      var gone := DropRoom(told.(tombstones := buried), rid);
      TouchedRefl(h, h, NO_RID);
      LongerSend(h.sent, h, h.rooms[rid].byClient.Keys, RoomEnded(rid));
      QuietlyUpToDate(h, gone, rid);
      StatusUpToDate(gone, rid);
    }
  }

  lemma RelayUpToDate(h: HubState, c: ClientId, kind: Kind, to: CID)
    requires AllUpToDate(h)
    ensures AllUpToDate(RelayMessage(h, c, kind, to))
  {
    hide AllUpToDate, Send, MarkMissed, TransportsOf, Audience, SuspendedAudience, Snap;
    var rid := Info(h, c).rid;
    if rid in h.rooms && c in h.rooms[rid].byClient {
      var r := h.rooms[rid];
      var sender := r.byClient[c];
      var told := Send(h, TransportsOf(r, Audience(r, sender, to)), Relay(sender, kind));
      var missed := if Negotiates(kind) then SuspendedAudience(r, sender, to) else {};
      var marked := PutRoom(told, rid, MarkMissed(r, sender, missed));
      MarkedLooksSame(r, sender, missed);
      TouchedRefl(h, h, NO_RID);
      LongerSend(h.sent, h, TransportsOf(r, Audience(r, sender, to)), Relay(sender, kind));
      QuietlyUpToDate(h, marked, rid);
      SendUpToDate(marked, {c}, RelayFailed(missed));
    }
  }

  lemma MarkedLooksSame(r: RoomState, from: CID, targets: set<CID>)
    ensures Snap(MarkMissed(r, from, targets)) == Snap(r) && MarkMissed(r, from, targets).byClient == r.byClient
  {}

  lemma {:induction false} EvictAllUpToDate(h: HubState, rid: RID, id: nat, order: seq<CID>, picks: seq<CID>)
    requires AllUpToDate(h) && Core(h) && |picks| == |order|
    ensures AllUpToDate(EvictAll(h, rid, id, order, picks))
    decreases |order|
  {
    hide AllUpToDate, Core, EvictionFires;
    if order != [] {
      NoNullRoom(h);
      EvictionUpToDate(h, rid, id, order[0], picks[0]);
      EvictionFiresKeeps(h, rid, id, order[0], picks[0]);
      EvictAllUpToDate(EvictionFires(h, rid, id, order[0], picks[0]), rid, id, order[1..], picks[1..]);
    }
  }

  lemma LivenessUpToDate(h: HubState, c: ClientId, reports: seq<CID>, order: seq<CID>, picks: seq<CID>)
    requires AllUpToDate(h) && Core(h) && |picks| == |order|
    ensures AllUpToDate(LivenessMessage(h, c, reports, order, picks))
  {
    hide AllUpToDate, Core, EvictAll, Fits, RoomInv;
    if LivenessAccepted(h, c) {
      var rid, r := Info(h, c).rid, Reported(h, c, reports);
      TouchedRefl(h, PutRoom(h, rid, r), rid);
      QuietlyUpToDate(h, PutRoom(h, rid, r), rid);
      ReportFits(h, c, reports);
      RoomOf(h, rid);
      PutKeeps(h, rid, r);
      EvictAllUpToDate(PutRoom(h, rid, r), rid, r.id, order, picks);
    }
  }

  lemma WatchUpToDate(h: HubState, c: ClientId, rids: set<RID>)
    requires AllUpToDate(h)
    ensures AllUpToDate(WatchRooms(h, c, rids))
  {
    hide AllUpToDate, Watch, Unwatch;
    var w := h.(watchers := Watch(Unwatch(h.watchers, c), c, rids));
    SameUpToDate(h, w);
    SendUpToDate(w, {c}, RoomStatuses(map rid | rid in rids :: Count(h, rid)));
  }

  // ----- takeovers -------------------------------------------------------------------------------------------

  lemma ReplaceUpToDate(h: HubState, prev: ClientId, next: ClientId)
    requires AllUpToDate(h) && Core(h) && prev in h.info && next in h.info && prev != next && Unattached(h, next)
    ensures AllUpToDate(Replace(h, prev, next))
  {
    hide Replace, SwapTransport, Core, Snap, RoomInv, Timed, Populated, CapacitySafe, Negotiated, Bounded;
    ReplaceFields(h, prev, next);
    ReplaceSent(h, prev, next);
    var k := Replace(h, prev, next);
    assert k.sent[..|k.sent| - 1] == h.sent;
    forall o
      ensures UpToDate(k, o)
    {
      assert UpToDate(h, o);
      if o in k.rooms {
        SeatOnlyMoves(h, o, prev, next);
        forall c | c in k.rooms[o].byClient
          ensures LastState(k.sent, c, o) == Some(Snap(k.rooms[o]))
        {
          assert LastState(k.sent, c, o) == LastState(h.sent, if c == next then prev else c, o);
        }
      }
    }
  }

  lemma SeatOnlyMoves(h: HubState, rid: RID, prev: ClientId, next: ClientId)
    requires Core(h) && rid in h.rooms && prev in h.info && next in h.info && prev != next && Unattached(h, next)
    ensures
      var k, r := Replace(h, prev, next), h.rooms[rid];
      && rid in k.rooms && Snap(k.rooms[rid]) == Snap(r)
      && forall c :: c in k.rooms[rid].byClient ==> (if c == next then prev else c) in r.byClient
  {
    hide Core, Replace, SwapTransport, RoomInv, Timed, Populated, CapacitySafe, Negotiated, Bounded;
    ReplaceFields(h, prev, next);
    RoomOf(h, rid);
    Parts(h.rooms[rid], h.limit, h.now);
    if Moves(h, prev) && h.info[prev].rid == rid {
      SwappedLooksSame(h.rooms[rid], prev, next);
      SwappedIndex(h.rooms[rid], prev, next);
    }
  }

  lemma StrangerUnattached(h: HubState, c: ClientId)
    requires Core(h) && c !in h.clients
    ensures Unattached(h, c)
  {
    hide Core, Registered, AttachmentsAgree;
    Agreed(h);
    forall rid | rid in h.rooms
      ensures c !in h.rooms[rid].byClient
    {
      if c in h.rooms[rid].byClient {
        AttachedInfo(h, rid, c);
      }
    }
  }

  lemma ServeUpToDate(h: HubState, c: ClientId, sid: SID)
    requires AllUpToDate(h) && Core(h) && c !in h.info
    ensures AllUpToDate(ServeSSE(h, c, sid))
  {
    hide AllUpToDate, Replace, Core, Unattached;
    var known := h.(info := h.info[c := ClientInfo(sid, NO_CID, NO_RID, false)]);
    SameUpToDate(h, known);
    KnownKeeps(h, c, sid);
    Newborn(h, c);
    StrangerUnattached(known, c);
    var k := ServeSSE(h, c, sid);
    if sid in h.bySID && Info(h, h.bySID[sid]).rid == NO_RID {
      RegisteredPair(h, sid);
      ReplaceUpToDate(known, h.bySID[sid], c);
    } else {
      SameUpToDate(h, k);
    }
  }

  lemma PromoteUpToDate(h: HubState, sid: SID)
    requires AllUpToDate(h) && Core(h)
    ensures AllUpToDate(PromotePending(h, sid))
  {
    hide AllUpToDate, Replace, Core, Unattached;
    if sid in h.pending && sid in h.bySID {
      var prev, next := h.bySID[sid], h.pending[sid];
      WaitingOne(h, sid);
      RegisteredPair(h, sid);
      StrangerUnattached(h, next);
      ReplaceUpToDate(h, prev, next);
      SameUpToDate(Replace(h, prev, next), PromotePending(h, sid));
    }
  }

  // ----- all runs --------------------------------------------------------------------------------------------

  lemma StepUpToDate(h: HubState, e: Event, at: int)
    requires AllUpToDate(h) && Core(h) && Enabled(h, e, at)
    ensures AllUpToDate(Step(h, e, at))
  {
    hide AllUpToDate, Core, Enabled;
    var k := h.(now := at);
    Promised(h, e, at);
    ClockKeeps(h, at);
    SameUpToDate(h, k);
    NoNullRoom(k);
    match e
    case WsConnect(c, sid) => SameUpToDate(k, Register(k, c, sid));
    case SseConnect(c, sid) => ServeUpToDate(k, c, sid);
    case SseTakeover(sid) => PromoteUpToDate(k, sid);
    case SseAbandon(c) => SameUpToDate(k, AbandonSSE(k, c));
    case Drop(c) => DropUpToDate(k, c);
    case Join(c, req, newCid, pick, pick2) =>
      if c in k.clients { JoinUpToDate(k, c, req, newCid, pick, pick2); }
    case Leave(c, pick) => LeaveUpToDate(k, c, pick);
    case End(c) => EndUpToDate(k, c);
    case RelayEvent(c, kind, to) => RelayUpToDate(k, c, kind, to);
    case Liveness(c, reports, order, picks) => LivenessUpToDate(k, c, reports, order, picks);
    case WatchEvent(c, rids) => WatchUpToDate(k, c, rids);
    case HttpLeave(rid, cid, pick) => HttpLeaveUpToDate(k, rid, cid, pick);
    case EvictTimer(rid, id, cid, pick) => EvictionUpToDate(k, rid, id, cid, pick);
    case IdleTimer(rid, id) => IdleUpToDate(k, rid, id);
  }

  lemma {:induction false} RunUpToDate(h: HubState, events: seq<(Event, int)>)
    requires AllUpToDate(h) && Core(h) && Run(h, events)
    ensures AllUpToDate(After(h, events))
    decreases |events|
  {
    hide AllUpToDate, Core, Step, Enabled;
    if events != [] {
      StepKeeps(h, events[0].0, events[0].1);
      StepUpToDate(h, events[0].0, events[0].1);
      RunUpToDate(Step(h, events[0].0, events[0].1), events[1..]);
    }
  }

  /** After every step of every run, each attached transport was last told the present
      members, host, capacity, epoch and suspensions of its room. */
  lemma MembersUpToDate(h: HubState, limit: int, rid: RID, c: ClientId)
    requires Reachable(h, limit) && rid in h.rooms && c in h.rooms[rid].byClient
    ensures
      var r := h.rooms[rid];
      LastState(h.sent, c, rid)
      == Some(Snapshot(r.epoch, r.host, r.maxParticipants, r.byCID.Keys,
                       set cid | cid in r.byCID && r.byCID[cid].client.None?))
  {
    hide Core, Run, After;
    var events: seq<(Event, int)> :| Run(Init(limit), events) && h == After(Init(limit), events);
    InitKeeps(limit);
    RunUpToDate(Init(limit), events);
    assert UpToDate(h, rid);
  }
}
