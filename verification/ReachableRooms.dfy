/** Small rooms that are reachable for every choice of names: where the witnesses of
    the other theorems start from. */
module ReachableRooms {
  import opened Wrappers
  import opened SignalingTypes
  import opened RoomSpec
  import opened RoomInvariant
  import opened HubSpec
  import opened HubInvariant
  import opened HubSteps
  import opened RoomHistory
  import opened HubTheorems

  // ----- single steps ----------------------------------------------------------------------------

  lemma {:induction false} RunThen(h: HubState, events: seq<(Event, int)>, e: Event, at: int)
    requires Run(h, events) && Enabled(After(h, events), e, at)
    ensures Run(h, events + [(e, at)])
    ensures After(h, events + [(e, at)]) == Step(After(h, events), e, at)
    decreases |events|
  {
    hide Enabled, Step;
    var longer := events + [(e, at)];
    if events == [] {
      assert longer[1..] == [];
    } else {
      assert longer[0] == events[0] && longer[1..] == events[1..] + [(e, at)];
      RunThen(Step(h, events[0].0, events[0].1), events[1..], e, at);
    }
  }

  lemma ReachableStep(h: HubState, limit: int, e: Event, at: int)
    requires Reachable(h, limit) && Enabled(h, e, at)
    ensures Reachable(Step(h, e, at), limit)
  {
    hide Enabled, Step, Run, After;
    var events: seq<(Event, int)> :| Run(Init(limit), events) && h == After(Init(limit), events);
    RunThen(Init(limit), events, e, at);
  }

  lemma ReachableInit(limit: int)
    ensures Reachable(Init(limit), limit)
  {
    assert Run(Init(limit), []) && After(Init(limit), []) == Init(limit);
  }

  lemma AlwaysEnabled(h: HubState, e: Event)
    requires e.Leave? || e.Drop?
    ensures Enabled(h, e, h.now)
  {}

  lemma DropHandled(h: HubState, c: ClientId)
    ensures Handle(h, Drop(c)) == Disconnect(h, c)
  {
    hide Disconnect;
  }

  /** The step of a transport drop. */
  lemma DropStep(h: HubState, rid: RID, cid: CID, c: ClientId)
    requires Reachable(h, 4) && rid in h.rooms && c in h.rooms[rid].byClient && h.rooms[rid].byClient[c] == cid
    ensures AttachedTo(h.rooms[rid], cid, c) && Enabled(h, Drop(c), h.now)
    ensures
      var k := Step(h, Drop(c), h.now);
      && Reachable(k, 4) && k.now == h.now && k.clients == h.clients - {c}
      && k.rooms == h.rooms[rid := Suspend(h.rooms[rid], cid, h.now)]
  {
    hide Core, Reachable, Enabled, Disconnect, Suspend;
    ReachableCore(h, 4);
    AttachedRecord(h, rid, c);
    RoomOf(h, rid);
    assert h.(now := h.now) == h;
    AlwaysEnabled(h, Drop(c));
    ReachableStep(h, 4, Drop(c), h.now);
    DropHandled(h, c);
    DropOnly(h, c);
  }

  /** The step of a negotiation message to everybody. */
  lemma OfferStep(h: HubState, rid: RID, cid: CID, c: ClientId)
    requires Reachable(h, 4) && rid in h.rooms && c in h.rooms[rid].byClient && h.rooms[rid].byClient[c] == cid
    ensures Enabled(h, RelayEvent(c, Offer, NO_CID), h.now)
    ensures
      var k, r := Step(h, RelayEvent(c, Offer, NO_CID), h.now), h.rooms[rid];
      && Reachable(k, 4) && k.now == h.now && k.clients == h.clients
      && k.rooms == h.rooms[rid := MarkMissed(r, cid, SuspendedAudience(r, cid, NO_CID))]
  {
    hide Core, Reachable, MarkMissed, SuspendedAudience, RelayMessage;
    ReachableCore(h, 4);
    AttachedRecord(h, rid, c);
    RoomOf(h, rid);
    assert h.(now := h.now) == h;
    ReachableStep(h, 4, RelayEvent(c, Offer, NO_CID), h.now);
    RelayIs(h, c, Offer, NO_CID);
  }

  /** The step of a join. */
  lemma JoinStep(h: HubState, c: ClientId, req: JoinRequest, newCid: CID)
    requires c in h.clients && newCid != NO_CID && (req.rid in h.rooms ==> newCid !in h.rooms[req.rid].byCID)
    ensures
      var e := Join(c, req, newCid, NO_CID, NO_CID);
      Enabled(h, e, h.now) && Step(h, e, h.now) == JoinMessage(h, c, req, newCid, NO_CID, NO_CID)
  {
    hide JoinMessage;
    assert h.(now := h.now) == h;
  }

  lemma NobodysTransport(h: HubState, rid: RID, c: ClientId)
    requires h.rooms.Keys == {rid} && c !in h.rooms[rid].byClient
    ensures Unattached(h, c)
  {}

  /** A name that none of the two has. */
  lemma NewName(a: CID, b: CID)
    requires a != NO_CID && b != NO_CID
    ensures CID("x" + a.name + b.name) !in {a, b, NO_CID}
  {
    assert |"x" + a.name + b.name| == 1 + |a.name| + |b.name|;
  }

  // ----- joins without a token --------------------------------------------------------------------

  /** The reconnect, if it is one, goes to a member without a transport. */
  predicate PushesNobodyOut(h: HubState, req: JoinRequest) {
    (req.rid in h.rooms && Suspended(h.rooms[req.rid], req.reconnectCid)) || req.reconnectCid == NO_CID
  }

  /** A join without a token by a transport in no room. */
  lemma PlainJoin(h: HubState, c: ClientId, req: JoinRequest, newCid: CID)
    requires JoinReady(h, c, req, newCid) && req.check == ValidId && !PresentsToken(req)
    ensures
      var k := JoinMessage(h, c, req, newCid, NO_CID, NO_CID);
      && k.rooms == h.rooms[req.rid := FateRoom(h, c, req, newCid)]
      && k.now == h.now && k.limit == h.limit && k == JoinRoom(h, c, req, newCid)
      && (PushesNobodyOut(h, req) ==> k.clients == h.clients)
  {
    hide Core, RoomInv, JoinRoom, JoinMessage, AfterLeave, FateRoom, FateOf, HubQuiet, Unattached, PushesNobodyOut;
    NothingLeft(h, c, NO_CID);
    JoinSplit(h, c, req, newCid, NO_CID, NO_CID);
    JoinRooms(h, c, req, newCid);
    Agreed(h);
    if PushesNobodyOut(h, req) {
      PlainClients(h, c, req, newCid);
    }
  }

  lemma NothingLeft(h: HubState, c: ClientId, pick: CID)
    requires Core(h) && Unattached(h, c)
    ensures AfterLeave(h, c, pick) == h
  {
    hide Core, Settle, TakeOut;
    var rid := Info(h, c).rid;
    if rid in h.rooms && AttachedTo(h.rooms[rid], Info(h, c).cid, c) {
      TransportsOff(h, rid, Info(h, c).cid, c);
    }
  }

  lemma PlainClients(h: HubState, c: ClientId, req: JoinRequest, newCid: CID)
    requires h.limit >= 2 && PushesNobodyOut(h, req)
    ensures JoinRoom(h, c, req, newCid).clients == h.clients
  {
    hide Park, TakeSlot, Attach, Admit, Complete, CreateMax;
    var rid := req.rid;
    if rid !in h.rooms {
      FoundingIs(h, c, req, newCid);
      var cid, n := Seat(h, req, newCid), NewRoom(h.nextRoom, CreateMax(req, h.limit));
      AdmitOnly(Claim(PutRoom(h.(nextRoom := h.nextRoom + 1), rid, n), c, cid, rid), c, rid,
                Attach(n, cid, c, req.capability), cid, if Proven(req) then Recovered else Fresh);
    } else if req.reconnectCid == NO_CID || req.reconnectCid !in h.rooms[rid].byCID {
      NewcomerIs(h, c, req, newCid);
      var r, cid := Met(h.rooms[rid], ClientMax(req)), if Proven(req) then req.reconnectCid else newCid;
      AdmitOnly(Claim(PutRoom(h, rid, r), c, cid, rid), c, rid, Attach(r, cid, c, req.capability), cid,
                if Proven(req) then Recovered else Fresh);
    } else {
      var r, cid := h.rooms[rid], req.reconnectCid;
      AdmitOnly(PutRoom(Claim(h, c, cid, rid), rid, TakeSlot(r, cid, c)), c, rid, TakeSlot(r, cid, c), cid, Reattached);
    }
  }

  // ----- rooms of one and of two -----------------------------------------------------------------

  function Newcomer(rid: RID): JoinRequest {
    JoinRequest(rid, ValidId, NO_CID, false, TokenBad, 4, Some(4))
  }

  function Arrives(c: ClientId, rid: RID, cid: CID): Event {
    Join(c, Newcomer(rid), cid, NO_CID, NO_CID)
  }

  /** Three transports that sit in no room of an empty hub. */
  ghost predicate Lobby(h: HubState) {
    Core(h) && h.now == 1 && h.limit == 4 && h.rooms == map[] && h.clients == {0, 1, 2}
  }

  lemma LobbyReached() returns (h: HubState)
    ensures Reachable(h, 4) && Lobby(h)
  {
    hide Core, Reachable;
    var first, second, third := SseConnect(0, SID("a")), WsConnect(1, SID("b")), WsConnect(2, SID("c"));
    assert SID("a") != SID("b") && SID("a") != SID("c") && SID("b") != SID("c") by {
      assert "a"[0] != "b"[0] && "a"[0] != "c"[0] && "b"[0] != "c"[0];
    }
    ReachableInit(4);
    assert Enabled(Init(4), first, 1);
    ReachableStep(Init(4), 4, first, 1);
    var k := Step(Init(4), first, 1);
    assert Enabled(k, second, 1);
    ReachableStep(k, 4, second, 1);
    var l := Step(k, second, 1);
    assert Enabled(l, third, 1);
    ReachableStep(l, 4, third, 1);
    h := Step(l, third, 1);
    ReachableCore(h, 4);
  }

  /** The step of a newcomer to `rid`. */
  lemma NewcomerStep(h: HubState, c: ClientId, rid: RID, cid: CID)
    requires Reachable(h, 4) && c in h.clients && Unattached(h, c) && rid != NO_RID && cid != NO_CID
    requires rid in h.rooms ==> cid !in h.rooms[rid].byCID
    ensures
      var k := Step(h, Arrives(c, rid, cid), h.now);
      && Enabled(h, Arrives(c, rid, cid), h.now) && Reachable(k, 4)
      && k.rooms == h.rooms[rid := FateRoom(h, c, Newcomer(rid), cid)]
      && k.now == h.now && k.clients == h.clients
  {
    hide Core, Reachable, JoinMessage, JoinRoom, FateRoom, Unattached, Step, Enabled;
    ReachableCore(h, 4);
    JoinStep(h, c, Newcomer(rid), cid);
    ReachableStep(h, 4, Arrives(c, rid, cid), h.now);
    PlainJoin(h, c, Newcomer(rid), cid);
  }

  /** `a` founded the room, with room for four. */
  ghost predicate OneIn(h: HubState, rid: RID, a: CID) {
    && h.now == 1 && h.clients == {0, 1, 2} && h.rooms.Keys == {rid}
    && var r := h.rooms[rid];
       r.byClient == map[0 := a] && r.byCID.Keys == {a} && !r.locked && r.requestedMax == 4 && r.host == a
  }

  lemma OneInReached(rid: RID, a: CID) returns (h: HubState)
    requires rid != NO_RID && a != NO_CID
    ensures Reachable(h, 4) && OneIn(h, rid, a)
  {
    hide Core, Reachable, FateRoom, Step, Enabled;
    var l := LobbyReached();
    NewcomerStep(l, 0, rid, a);
    h := Step(l, Arrives(0, rid, a), 1);
    FoundedBy(l, 0, Newcomer(rid), a);
  }

  lemma FoundedBy(h: HubState, c: ClientId, req: JoinRequest, newCid: CID)
    requires req.rid !in h.rooms && !Proven(req)
    ensures
      var s := FateRoom(h, c, req, newCid);
      && s.byClient == map[c := newCid] && s.byCID.Keys == {newCid} && s.host == newCid
      && s.requestedMax == CreateMax(req, h.limit)
      && (s.locked <==> CreateMax(req, h.limit) <= 2)
  {}

  /** `b` joined, which locked the capacity at four. */
  ghost predicate TwoIn(h: HubState, rid: RID, a: CID, b: CID) {
    && h.now == 1 && h.clients == {0, 1, 2} && h.rooms.Keys == {rid}
    && var r := h.rooms[rid];
       r.byClient == map[0 := a, 1 := b] && r.byCID.Keys == {a, b} && r.maxParticipants == 4 && r.host == a
  }

  lemma TwoInReached(rid: RID, a: CID, b: CID) returns (h: HubState)
    requires rid != NO_RID && a != NO_CID && b != NO_CID && a != b
    ensures Reachable(h, 4) && TwoIn(h, rid, a, b)
  {
    hide Core, Reachable, FateRoom, Step, Enabled;
    var l := OneInReached(rid, a);
    NewcomerStep(l, 1, rid, b);
    h := Step(l, Arrives(1, rid, b), 1);
    JoinedBy(l, 1, Newcomer(rid), b);
  }

  lemma JoinedBy(h: HubState, c: ClientId, req: JoinRequest, newCid: CID)
    requires req.rid in h.rooms && !Proven(req) && req.reconnectCid == NO_CID
    requires |h.rooms[req.rid].byCID.Keys| == 1 && !h.rooms[req.rid].locked && ClientMax(req) >= 2
    ensures
      var r, s := h.rooms[req.rid], FateRoom(h, c, req, newCid);
      && s.byClient == r.byClient[c := newCid] && s.byCID.Keys == r.byCID.Keys + {newCid}
      && s.maxParticipants == Min(ClientMax(req), Max(2, r.requestedMax)) && (r.host != NO_CID ==> s.host == r.host)
  {
    assert |h.rooms[req.rid].byCID| == |h.rooms[req.rid].byCID.Keys|;
  }
}
