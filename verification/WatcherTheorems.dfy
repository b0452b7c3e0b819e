/** What room watchers were last told agrees with the hub after every step. */
module WatcherTheorems {
  import opened Wrappers
  import opened SignalingTypes
  import opened RoomSpec
  import opened RoomInvariant
  import opened HubSpec
  import opened HubInvariant
  import opened HubSteps
  import opened RoomHistory
  import opened HubTheorems
  import opened EventTheorems
  import opened MessageTheorems
  import opened JoinTheorems
  import N = NegotiationTheorems

  /** The count a subscriber was last sent for a room.  A transport that took over
      another one counts as the same subscriber. */
  function LastCount(sent: seq<Sent>, c: ClientId, rid: RID): Option<nat>
    decreases |sent|
  {
    if sent == [] then None
    else
      var last, before := sent[|sent| - 1], sent[..|sent| - 1];
      match last
      case TookOver(prev, next) => LastCount(before, if c == next then prev else c, rid)
      case Sent(to, StatusUpdate(r, n)) => if c in to && r == rid then Some(n) else LastCount(before, c, rid)
      case Sent(to, RoomStatuses(counts)) =>
        if c in to && rid in counts then Some(counts[rid]) else LastCount(before, c, rid)
      case Sent(_, _) => LastCount(before, c, rid)
  }

  ghost predicate Told(h: HubState, rid: RID) {
    rid in h.watchers ==> forall c :: c in h.watchers[rid] ==> LastCount(h.sent, c, rid) == Some(Count(h, rid))
  }

  ghost predicate AllTold(h: HubState) {
    forall rid :: Told(h, rid)
  }

  // ----- logs that grow without counts -------------------------------------------------

  predicate Plain(s: Sent) {
    s.Sent? && !s.body.StatusUpdate? && !s.body.RoomStatuses?
  }

  ghost predicate PlainlyLonger(a: seq<Sent>, b: seq<Sent>) {
    a <= b && forall i :: |a| <= i < |b| ==> Plain(b[i])
  }

  lemma {:induction false} PlainCount(a: seq<Sent>, b: seq<Sent>, c: ClientId, rid: RID)
    requires PlainlyLonger(a, b)
    ensures LastCount(b, c, rid) == LastCount(a, c, rid)
    decreases |b|
  {
    if |a| < |b| {
      PlainCount(a, b[..|b| - 1], c, rid);
    } else {
      assert a == b;
    }
  }

  /** Only room `rid` changed, subscriptions only lapsed, and no counts were sent. */
  ghost predicate Uncounted(h: HubState, k: HubState, rid: RID) {
    && PlainlyLonger(h.sent, k.sent)
    && (forall o :: o != rid ==> Count(k, o) == Count(h, o))
    && (forall o :: o in k.watchers ==> o in h.watchers && k.watchers[o] <= h.watchers[o])
  }

  lemma UncountedTold(h: HubState, k: HubState, rid: RID)
    requires AllTold(h) && Uncounted(h, k, rid)
    ensures forall o :: o != rid ==> Told(k, o)
    ensures Count(k, rid) == Count(h, rid) ==> AllTold(k)
  {
    forall o, c
      ensures LastCount(k.sent, c, o) == LastCount(h.sent, c, o)
    {
      PlainCount(h.sent, k.sent, c, o);
    }
    forall o | Count(k, o) == Count(h, o)
      ensures Told(k, o)
    {
      assert Told(h, o);
    }
  }

  lemma StatusTold(h: HubState, rid: RID)
    requires forall o :: o != rid ==> Told(h, o)
    ensures AllTold(Status(h, rid))
  {
    var k := Status(h, rid);
    if rid in h.watchers {
      assert k.sent[..|k.sent| - 1] == h.sent;
      forall o | o != rid
        ensures Told(k, o)
      {
        assert Told(h, o);
        assert forall c :: LastCount(k.sent, c, o) == LastCount(h.sent, c, o);
      }
    }
    assert Told(k, rid);
  }

  /** A change of one room that ends with the count of that room. */
  lemma CountedAfter(h: HubState, x: HubState, rid: RID)
    requires AllTold(h) && Uncounted(h, x, rid)
    ensures AllTold(Status(x, rid))
  {
    UncountedTold(h, x, rid);
    StatusTold(x, rid);
  }

  // ----- the building blocks --------------------------------------------------------------

  lemma UncountedRefl(h: HubState, k: HubState, rid: RID)
    requires k.sent == h.sent && k.watchers == h.watchers
    requires forall o :: o != rid ==> Count(k, o) == Count(h, o)
    ensures Uncounted(h, k, rid)
  {}

  lemma UncountedSend(h: HubState, k: HubState, rid: RID, to: set<ClientId>, body: Body)
    requires Uncounted(h, k, rid) && Plain(Sent(to, body))
    ensures Uncounted(h, Send(k, to, body), rid) && Count(Send(k, to, body), rid) == Count(k, rid)
  {}

  lemma UncountedState(h: HubState, k: HubState, rid: RID)
    requires Uncounted(h, k, rid) && rid in k.rooms
    ensures Uncounted(h, BroadcastState(k, rid), rid) && Count(BroadcastState(k, rid), rid) == Count(k, rid)
  {}

  lemma UncountedPut(h: HubState, k: HubState, rid: RID, r: RoomState)
    requires Uncounted(h, k, rid)
    ensures Uncounted(h, PutRoom(k, rid, r), rid) && Uncounted(h, DropRoom(k, rid), rid)
  {}

  lemma UncountedDeregister(h: HubState, k: HubState, rid: RID, c: ClientId)
    requires Uncounted(h, k, rid)
    ensures Uncounted(h, Deregister(k, c), rid) && Count(Deregister(k, c), rid) == Count(k, rid)
  {}

  lemma UncountedGhost(h: HubState, k: HubState, rid: RID, former: Option<ClientId>)
    requires Uncounted(h, k, rid)
    ensures Uncounted(h, EvictGhost(k, former), rid) && Count(EvictGhost(k, former), rid) == Count(k, rid)
  {
    match former
    case None =>
    case Some(g) => UncountedDeregister(h, k, rid, g);
  }

  /** Fields that neither subscribers nor counts depend on may differ. */
  lemma UncountedSame(h: HubState, k: HubState, l: HubState, rid: RID)
    requires Uncounted(h, k, rid) && l.sent == k.sent && l.watchers == k.watchers && l.rooms == k.rooms
    ensures Uncounted(h, l, rid)
  {}

  lemma ErrorTold(h: HubState, c: ClientId, code: ErrorCode)
    requires AllTold(h)
    ensures AllTold(SendError(h, c, code))
  {
    UncountedRefl(h, h, NO_RID);
    UncountedSend(h, h, NO_RID, {c}, Error(code));
    UncountedTold(h, SendError(h, c, code), NO_RID);
  }

  // ----- departures --------------------------------------------------------------------------

  lemma SettleTold(h: HubState, x: HubState, rid: RID)
    requires AllTold(h) && Uncounted(h, x, rid) && rid in x.rooms
    ensures AllTold(Settle(x, rid))
  {
    hide AllTold, Uncounted, Status, BroadcastState;
    if x.rooms[rid].byCID == map[] {
      UncountedPut(h, x, rid, x.rooms[rid]);
      CountedAfter(h, DropRoom(x, rid), rid);
    } else {
      UncountedState(h, x, rid);
      CountedAfter(h, BroadcastState(x, rid), rid);
    }
  }

  lemma TakeOutTold(h: HubState, rid: RID, cid: CID, pick: CID)
    requires AllTold(h) && rid in h.rooms && cid in h.rooms[rid].byCID
    ensures Uncounted(h, TakeOut(h, rid, cid, pick), rid)
    ensures AllTold(Settle(TakeOut(h, rid, cid, pick), rid))
  {
    hide AllTold, Uncounted, Settle, Remove;
    UncountedRefl(h, h, rid);
    UncountedPut(h, h, rid, Remove(h.rooms[rid], cid, pick, h.now));
    SettleTold(h, TakeOut(h, rid, cid, pick), rid);
  }

  lemma LeaveTold(h: HubState, c: ClientId, pick: CID)
    requires AllTold(h)
    ensures AllTold(LeaveRoom(h, c, pick))
  {
    hide AllTold, Settle, TakeOut;
    var rid, cid := Info(h, c).rid, Info(h, c).cid;
    if rid in h.rooms && AttachedTo(h.rooms[rid], cid, c) {
      TakeOutTold(h, rid, cid, pick);
    }
  }

  lemma ExpiredTold(h: HubState, rid: RID, cid: CID, pick: CID)
    requires AllTold(h)
    ensures AllTold(EvictExpired(h, rid, cid, pick))
  {
    hide AllTold, Settle, TakeOut;
    if rid in h.rooms && Suspended(h.rooms[rid], cid) {
      TakeOutTold(h, rid, cid, pick);
    }
  }

  lemma HttpLeaveTold(h: HubState, rid: RID, cid: CID, pick: CID)
    requires AllTold(h)
    ensures AllTold(EvictByLeave(h, rid, cid, pick))
  {
    hide AllTold, Uncounted, Settle, Remove, Deregister;
    if rid in h.rooms && cid in h.rooms[rid].byCID {
      var out := TakeOut(h, rid, cid, pick);
      TakeOutTold(h, rid, cid, pick);
      match h.rooms[rid].byCID[cid].client {
        case None =>
        case Some(c) =>
          UncountedDeregister(h, out, rid, c);
          assert Deregister(out, c).rooms == out.rooms by { DeregisterFields(out, c); }
          SettleTold(h, Deregister(out, c), rid);
      }
    }
  }

  lemma SameCount(h: HubState, rid: RID, r: RoomState)
    requires AllTold(h) && rid in h.rooms && r.byCID.Keys == h.rooms[rid].byCID.Keys
    ensures Uncounted(h, PutRoom(h, rid, r), rid) && AllTold(PutRoom(h, rid, r))
  {
    hide AllTold, Uncounted;
    SameSize(r, h.rooms[rid]);
    UncountedRefl(h, h, rid);
    UncountedPut(h, h, rid, r);
    UncountedTold(h, PutRoom(h, rid, r), rid);
  }

  lemma EvictionTold(h: HubState, rid: RID, id: nat, cid: CID, pick: CID)
    requires AllTold(h)
    ensures AllTold(EvictionFires(h, rid, id, cid, pick))
  {
    hide AllTold, Uncounted, Settle, TakeOut;
    if rid in h.rooms && Suspended(h.rooms[rid], cid) {
      TakeOutTold(h, rid, cid, pick);
      assert Defer(h.rooms[rid], cid, h.now).byCID.Keys == h.rooms[rid].byCID.Keys;
      SameCount(h, rid, Defer(h.rooms[rid], cid, h.now));
    }
  }

  lemma IdleTold(h: HubState, rid: RID, id: nat)
    requires AllTold(h)
    ensures AllTold(IdleFires(h, rid, id))
  {
    hide AllTold, Uncounted, Status;
    if rid in h.rooms {
      SameCount(h, rid, h.rooms[rid].(idleAt := None));
      UncountedRefl(h, h, rid);
      UncountedPut(h, h, rid, h.rooms[rid]);
      CountedAfter(h, DropRoom(h, rid), rid);
    }
  }

  lemma DropTold(h: HubState, c: ClientId)
    requires AllTold(h)
    ensures AllTold(Disconnect(h, c))
  {
    hide AllTold, Uncounted, Status, BroadcastState, Suspend, Deregister;
    if c in h.clients {
      var rid, d := Info(h, c).rid, Deregister(h, c);
      DeregisterFields(h, c);
      UncountedRefl(h, h, rid);
      UncountedDeregister(h, h, rid, c);
      UncountedTold(h, d, rid);
      if SuspendInRoom(d, c) != d {
        var s := PutRoom(d, rid, Suspend(d.rooms[rid], Info(d, c).cid, d.now));
        UncountedPut(h, d, rid, s.rooms[rid]);
        UncountedState(h, s, rid);
        CountedAfter(h, s, rid);
        CountedAfter(h, BroadcastState(s, rid), rid);
      }
    }
  }

  // ----- join ------------------------------------------------------------------------------------

  lemma AdmitTold(h: HubState, x: HubState, c: ClientId, rid: RID, r: RoomState, cid: CID, outcome: Outcome)
    requires AllTold(h) && Uncounted(h, x, rid)
    ensures AllTold(Admit(x, c, rid, r, cid, outcome))
  {
    hide AllTold, Uncounted, Status, Complete, Snap, Send, TransportsOf;
    var done, partners := Complete(r, cid), DirtyPartners(r.dirty, cid);
    UncountedPut(h, x, rid, done);
    var h1 := PutRoom(x, rid, done).(tombstones := x.tombstones - {rid});
    UncountedSame(h, PutRoom(x, rid, done), h1, rid);
    var h2 := Send(h1, {c}, Joined(rid, done.id, Snap(done), cid, outcome));
    UncountedSend(h, h1, rid, {c}, Joined(rid, done.id, Snap(done), cid, outcome));
    assert h1.rooms == h2.rooms by { SendRooms(h1, {c}, Joined(rid, done.id, Snap(done), cid, outcome)); }
    UncountedSend(h, h2, rid, {c}, RoomStateMsg(rid, h2.rooms[rid].id, Snap(h2.rooms[rid])));
    SendRooms(h2, {c}, RoomStateMsg(rid, h2.rooms[rid].id, Snap(h2.rooms[rid])));
    UncountedState(h, StateTo(h2, rid, {c}), rid);
    var h3 := BroadcastState(StateTo(h2, rid, {c}), rid);
    UncountedSend(h, h3, rid, TransportsOf(done, partners), NegotiationDirty(cid));
    var h4 := if partners != {} then Send(h3, TransportsOf(done, partners), NegotiationDirty(cid)) else h3;
    CountedAfter(h, h4, rid);
  }

  lemma SendRooms(h: HubState, to: set<ClientId>, body: Body)
    ensures Send(h, to, body).rooms == h.rooms
  {}

  lemma ExistingTold(h: HubState, c: ClientId, req: JoinRequest)
    requires AllTold(h) && req.rid in h.rooms && req.reconnectCid in h.rooms[req.rid].byCID
    ensures AllTold(JoinExisting(h, c, req))
  {
    hide AllTold, Uncounted, Admit, TakeSlot, Park, EvictGhost, BroadcastState, SendError;
    var rid, cid, r := req.rid, req.reconnectCid, h.rooms[req.rid];
    var former, taken, claimed := r.byCID[cid].client, TakeSlot(r, cid, c), Claim(h, c, cid, rid);
    TakenClients(r, cid, c);
    UncountedRefl(h, claimed, rid);
    if ClientMax(req) < r.maxParticipants {
      var parked := PutRoom(claimed, rid, Park(taken, cid, h.now));
      var back := EvictGhost(parked, former);
      assert Park(taken, cid, h.now).byCID.Keys == r.byCID.Keys by { ParkedKeys(r, cid, c, h.now); }
      SameSize(Park(taken, cid, h.now), r);
      UncountedPut(h, claimed, rid, Park(taken, cid, h.now));
      UncountedGhost(h, parked, rid, former);
      GhostRooms(parked, former);
      UncountedTold(h, back, rid);
      UncountedState(h, back, rid);
      UncountedTold(h, BroadcastState(back, rid), rid);
      ErrorTold(back, c, RoomCapacityUnsupported);
      ErrorTold(BroadcastState(back, rid), c, RoomCapacityUnsupported);
    } else {
      UncountedPut(h, claimed, rid, taken);
      UncountedGhost(h, PutRoom(claimed, rid, taken), rid, former);
      AdmitTold(h, EvictGhost(PutRoom(claimed, rid, taken), former), c, rid, taken, cid, Reattached);
    }
  }

  lemma ParkedKeys(r: RoomState, cid: CID, c: ClientId, now: int)
    requires cid in r.byCID
    ensures Park(TakeSlot(r, cid, c), cid, now).byCID.Keys == r.byCID.Keys
  {}

  lemma NewcomerTold(h: HubState, c: ClientId, req: JoinRequest, newCid: CID)
    requires AllTold(h) && req.rid in h.rooms
    requires req.reconnectCid != NO_CID ==> req.reconnectCid !in h.rooms[req.rid].byCID
    ensures AllTold(JoinNew(h, c, req, newCid))
  {
    hide AllTold, Uncounted, Admit, Attach, SendError, Met, JoinNew, FateOf, Claim;
    NewcomerIs(h, c, req, newCid);
    var rid, r := req.rid, Met(h.rooms[req.rid], ClientMax(req));
    var cid := if Proven(req) then req.reconnectCid else newCid;
    MetMembers(h.rooms[rid], ClientMax(req));
    SameCount(h, rid, r);
    if FateOf(h, req).Rejected? {
      ErrorTold(PutRoom(h, rid, r), c,
                if ClientMax(req) < r.maxParticipants then RoomCapacityUnsupported else RoomFull);
    } else {
      ClaimFields(PutRoom(h, rid, r), c, cid, rid);
      UncountedSame(h, PutRoom(h, rid, r), Claim(PutRoom(h, rid, r), c, cid, rid), rid);
      AdmitTold(h, Claim(PutRoom(h, rid, r), c, cid, rid), c, rid, Attach(r, cid, c, req.capability), cid,
                if Proven(req) then Recovered else Fresh);
    }
  }

  lemma MetMembers(r: RoomState, clientMax: int)
    ensures Met(r, clientMax).byCID == r.byCID
  {}

  lemma FoundingTold(h: HubState, c: ClientId, req: JoinRequest, newCid: CID)
    requires AllTold(h) && req.rid !in h.rooms && h.limit >= 2
    ensures AllTold(JoinRoom(h, c, req, newCid))
  {
    hide AllTold, Uncounted, Admit, Attach, JoinRoom, Claim, CreateMax;
    FoundingIs(h, c, req, newCid);
    var rid, n := req.rid, NewRoom(h.nextRoom, CreateMax(req, h.limit));
    var cid := if Proven(req) then req.reconnectCid else newCid;
    var up := h.(nextRoom := h.nextRoom + 1);
    UncountedRefl(h, up, rid);
    UncountedPut(h, up, rid, n);
    ClaimFields(PutRoom(up, rid, n), c, cid, rid);
    UncountedSame(h, PutRoom(up, rid, n), Claim(PutRoom(up, rid, n), c, cid, rid), rid);
    AdmitTold(h, Claim(PutRoom(up, rid, n), c, cid, rid), c, rid, Attach(n, cid, c, req.capability), cid,
              if Proven(req) then Recovered else Fresh);
  }

  lemma JoinRoomTold(h: HubState, c: ClientId, req: JoinRequest, newCid: CID)
    requires AllTold(h) && h.limit >= 2
    ensures AllTold(JoinRoom(h, c, req, newCid))
  {
    hide AllTold, JoinExisting, JoinNew;
    if req.rid !in h.rooms {
      FoundingTold(h, c, req, newCid);
    } else if req.reconnectCid != NO_CID && req.reconnectCid in h.rooms[req.rid].byCID {
      ExistingTold(h, c, req);
    } else {
      NewcomerTold(h, c, req, newCid);
    }
  }

  lemma HandleJoinTold(h: HubState, c: ClientId, req: JoinRequest, newCid: CID, pick: CID)
    requires AllTold(h) && h.limit >= 2
    ensures AllTold(HandleJoin(h, c, req, newCid, pick))
  {
    hide AllTold, JoinRoom, EvictExpired, SendError, SweepTombstone, TombstoneActive;
    forall code
      ensures AllTold(SendError(h, c, code))
    {
      ErrorTold(h, c, code);
    }
    ExpiredTold(h, req.rid, req.reconnectCid, pick);
    ErrorTold(EvictExpired(h, req.rid, req.reconnectCid, pick), c, InvalidReconnectToken);
    JoinRoomTold(h, c, req, newCid);
    SweptTold(h, req.rid);
    JoinRoomTold(SweepTombstone(h, req.rid), c, req, newCid);
  }

  lemma SweptTold(h: HubState, rid: RID)
    requires AllTold(h)
    ensures AllTold(SweepTombstone(h, rid)) && SweepTombstone(h, rid).limit == h.limit
  {
    var k := SweepTombstone(h, rid);
    UncountedRefl(h, k, rid);
    UncountedTold(h, k, rid);
  }

  lemma JoinTold(h: HubState, c: ClientId, req: JoinRequest, newCid: CID, pick: CID, pick2: CID)
    requires AllTold(h) && Core(h) && c in h.clients
    ensures AllTold(JoinMessage(h, c, req, newCid, pick, pick2))
  {
    hide AllTold, Core, LeaveRoom, HandleJoin;
    LeaveTold(h, c, pick);
    LeavingFirst(h, c, pick);
    Agreed(AfterLeave(h, c, pick));
    HandleJoinTold(AfterLeave(h, c, pick), c, req, newCid, pick2);
  }

  // ----- the other messages ------------------------------------------------------------------------

  lemma EndTold(h: HubState, c: ClientId)
    requires AllTold(h)
    ensures AllTold(EndRoom(h, c))
  {
    hide AllTold, Uncounted, Status, SendError, Send, GcTombstones, Info;
    var rid := Info(h, c).rid;
    ErrorTold(h, c, NotHost);
    if rid in h.rooms {
      var to := h.rooms[rid].byClient.Keys;
      var told := Send(h, to, RoomEnded(rid));
      var dead := told.(tombstones := GcTombstones(h.tombstones[rid := h.now + ROOM_TOMBSTONE_TTL], h.now));
      UncountedRefl(h, h, rid);
      UncountedSend(h, h, rid, to, RoomEnded(rid));
      UncountedSame(h, told, dead, rid);
      UncountedPut(h, dead, rid, h.rooms[rid]);
      CountedAfter(h, DropRoom(dead, rid), rid);
    }
  }

  lemma RelayTold(h: HubState, c: ClientId, kind: Kind, to: CID)
    requires AllTold(h)
    ensures AllTold(RelayMessage(h, c, kind, to))
  {
    hide AllTold, Uncounted, Send, MarkMissed, TransportsOf, Audience, SuspendedAudience;
    var rid := Info(h, c).rid;
    if rid in h.rooms && c in h.rooms[rid].byClient {
      var r := h.rooms[rid];
      var sender := r.byClient[c];
      var told := Send(h, TransportsOf(r, Audience(r, sender, to)), Relay(sender, kind));
      var missed := if Negotiates(kind) then SuspendedAudience(r, sender, to) else {};
      var marked := PutRoom(told, rid, MarkMissed(r, sender, missed));
      MarkedMembers(r, sender, missed);
      UncountedRefl(h, h, rid);
      UncountedSend(h, h, rid, TransportsOf(r, Audience(r, sender, to)), Relay(sender, kind));
      UncountedPut(h, told, rid, MarkMissed(r, sender, missed));
      UncountedTold(h, marked, rid);
      UncountedSend(h, marked, rid, {c}, RelayFailed(missed));
      UncountedTold(h, Send(marked, {c}, RelayFailed(missed)), rid);
    }
  }

  lemma MarkedMembers(r: RoomState, from: CID, targets: set<CID>)
    ensures MarkMissed(r, from, targets).byCID == r.byCID
  {}

  lemma {:induction false} EvictAllTold(h: HubState, rid: RID, id: nat, order: seq<CID>, picks: seq<CID>)
    requires AllTold(h) && |picks| == |order|
    ensures AllTold(EvictAll(h, rid, id, order, picks))
    decreases |order|
  {
    hide AllTold, EvictionFires;
    if order != [] {
      EvictionTold(h, rid, id, order[0], picks[0]);
      EvictAllTold(EvictionFires(h, rid, id, order[0], picks[0]), rid, id, order[1..], picks[1..]);
    }
  }

  lemma LivenessTold(h: HubState, c: ClientId, reports: seq<CID>, order: seq<CID>, picks: seq<CID>)
    requires AllTold(h) && |picks| == |order|
    ensures AllTold(LivenessMessage(h, c, reports, order, picks))
  {
    hide AllTold, EvictAll;
    if LivenessAccepted(h, c) {
      var rid, r := Info(h, c).rid, Reported(h, c, reports);
      SameCount(h, rid, r);
      EvictAllTold(PutRoom(h, rid, r), rid, r.id, order, picks);
    }
  }

  lemma WatchTold(h: HubState, c: ClientId, rids: set<RID>)
    requires AllTold(h)
    ensures AllTold(WatchRooms(h, c, rids))
  {
    var k := WatchRooms(h, c, rids);
    assert k.sent[..|k.sent| - 1] == h.sent;
    forall o
      ensures Told(k, o)
    {
      assert Told(h, o);
      if o in k.watchers {
        forall d | d in k.watchers[o]
          ensures LastCount(k.sent, d, o) == Some(Count(k, o))
        {
          if d == c {
            assert o in rids;
          } else {
            assert LastCount(k.sent, d, o) == LastCount(h.sent, d, o);
          }
        }
      }
    }
  }

  // ----- takeovers --------------------------------------------------------------------------------

  lemma ReplaceTold(h: HubState, prev: ClientId, next: ClientId)
    requires AllTold(h) && prev in h.info && next in h.info && prev != next
    requires forall o :: o in h.watchers ==> next !in h.watchers[o]
    ensures AllTold(Replace(h, prev, next))
  {
    hide Replace, SwapTransport;
    ReplaceFields(h, prev, next);
    ReplaceSent(h, prev, next);
    var k := Replace(h, prev, next);
    if Moves(h, prev) {
      SwappedMembers(h.rooms[h.info[prev].rid], prev, next);
    }
    assert k.sent[..|k.sent| - 1] == h.sent;
    forall o
      ensures Told(k, o)
    {
      assert Told(h, o);
      assert Count(k, o) == Count(h, o);
      assert forall c :: LastCount(k.sent, c, o) == LastCount(h.sent, if c == next then prev else c, o);
    }
  }

  lemma SwappedMembers(r: RoomState, prev: ClientId, next: ClientId)
    requires prev in r.byClient
    ensures |SwapTransport(r, prev, next).byCID| == |r.byCID|
  {
    assert SwapTransport(r, prev, next).byCID.Keys == r.byCID.Keys;
    SameSize(SwapTransport(r, prev, next), r);
  }

  lemma ServeTold(h: HubState, c: ClientId, sid: SID)
    requires AllTold(h) && Core(h) && c !in h.info
    ensures AllTold(ServeSSE(h, c, sid))
  {
    hide AllTold, Uncounted, Replace, Core, HubQuiet;
    var known := h.(info := h.info[c := ClientInfo(sid, NO_CID, NO_RID, false)]);
    UncountedRefl(h, known, NO_RID);
    UncountedTold(h, known, NO_RID);
    Newborn(h, c);
    Unsubscribed(h, c);
    var k := ServeSSE(h, c, sid);
    if sid in h.bySID && Info(h, h.bySID[sid]).rid == NO_RID {
      RegisteredPair(h, sid);
      ReplaceTold(known, h.bySID[sid], c);
    } else {
      UncountedRefl(h, k, NO_RID);
      UncountedTold(h, k, NO_RID);
    }
  }

  lemma PromoteTold(h: HubState, sid: SID)
    requires AllTold(h) && Core(h)
    ensures AllTold(PromotePending(h, sid))
  {
    hide AllTold, Uncounted, Replace, Core;
    if sid in h.pending && sid in h.bySID {
      var prev, next := h.bySID[sid], h.pending[sid];
      WaitingOne(h, sid);
      RegisteredPair(h, sid);
      Unsubscribed(h, next);
      ReplaceTold(h, prev, next);
      var p := Replace(h, prev, next);
      UncountedRefl(p, PromotePending(h, sid), NO_RID);
      UncountedTold(p, PromotePending(h, sid), NO_RID);
    }
  }

  // ----- all steps, all runs ----------------------------------------------------------------------------

  lemma UnwatchedTold(h: HubState, k: HubState)
    requires AllTold(h) && k.sent == h.sent && k.watchers == h.watchers && k.rooms == h.rooms
    ensures AllTold(k)
  {
    UncountedRefl(h, k, NO_RID);
    UncountedTold(h, k, NO_RID);
  }

  lemma StepTold(h: HubState, e: Event, at: int)
    requires AllTold(h) && Core(h) && Enabled(h, e, at)
    ensures AllTold(Step(h, e, at))
  {
    hide AllTold, Core, Enabled;
    var k := h.(now := at);
    Promised(h, e, at);
    ClockKeeps(h, at);
    UnwatchedTold(h, k);
    match e
    case WsConnect(c, sid) => UnwatchedTold(k, Register(k, c, sid));
    case SseConnect(c, sid) => ServeTold(k, c, sid);
    case SseTakeover(sid) => PromoteTold(k, sid);
    case SseAbandon(c) => UnwatchedTold(k, AbandonSSE(k, c));
    case Drop(c) => DropTold(k, c);
    case Join(c, req, newCid, pick, pick2) =>
      if c in k.clients { JoinTold(k, c, req, newCid, pick, pick2); }
    case Leave(c, pick) => LeaveTold(k, c, pick);
    case End(c) => EndTold(k, c);
    case RelayEvent(c, kind, to) => RelayTold(k, c, kind, to);
    case Liveness(c, reports, order, picks) => LivenessTold(k, c, reports, order, picks);
    case WatchEvent(c, rids) => WatchTold(k, c, rids);
    case HttpLeave(rid, cid, pick) => HttpLeaveTold(k, rid, cid, pick);
    case EvictTimer(rid, id, cid, pick) => EvictionTold(k, rid, id, cid, pick);
    case IdleTimer(rid, id) => IdleTold(k, rid, id);
  }

  lemma {:induction false} RunTold(h: HubState, events: seq<(Event, int)>)
    requires AllTold(h) && Core(h) && Run(h, events)
    ensures AllTold(After(h, events))
    decreases |events|
  {
    hide AllTold, Core, Step, Enabled;
    if events != [] {
      StepKeeps(h, events[0].0, events[0].1);
      StepTold(h, events[0].0, events[0].1);
      RunTold(Step(h, events[0].0, events[0].1), events[1..]);
    }
  }

  lemma AllToldAlways(h: HubState, limit: int)
    requires Reachable(h, limit)
    ensures AllTold(h)
  {
    hide Core, Run, After;
    var events: seq<(Event, int)> :| Run(Init(limit), events) && h == After(Init(limit), events);
    InitKeeps(limit);
    RunTold(Init(limit), events);
  }

  /** After every step of every run, each watcher was last told the present number
      of participants of each room it watches, 0 for a room that is not there. */
  lemma WatchersAgree(h: HubState, limit: int, rid: RID, c: ClientId)
    requires Reachable(h, limit) && rid in h.watchers && c in h.watchers[rid]
    ensures LastCount(h.sent, c, rid) == Some(if rid in h.rooms then |h.rooms[rid].byCID| else 0)
  {
    AllToldAlways(h, limit);
    assert Told(h, rid);
  }

  // ----- subscriptions last ----------------------------------------------------------------------------

  /** The event is a watch_rooms of `c`. */
  predicate WatchesAnew(e: Event, c: ClientId) {
    e.WatchEvent? && e.c == c
  }

  lemma LeaveSubscriptions(h: HubState, d: ClientId, pick: CID, at: int)
    requires Core(h) && Enabled(h, Leave(d, pick), at)
    ensures SameTransports(h, Step(h, Leave(d, pick), at))
  {
    hide Core, Enabled, Step, RemovedFrom;
    if Unattached(h, d) {
      LeavesNothing(h, d, pick, at);
    } else {
      var r :| r in h.rooms && d in h.rooms[r].byClient;
      AttachedRecord(h, r, d);
      Leaves(h, d, r, h.rooms[r].byClient[d], pick, at);
    }
  }

  lemma JoinSubscriptions(h: HubState, e: Event, at: int, c: ClientId, rid: RID)
    requires Core(h) && Enabled(h, e, at) && e.Join? && c in h.clients && c in Step(h, e, at).clients
    ensures Watches(Step(h, e, at), c, rid) <==> Watches(h, c, rid)
  {
    hide Core, Enabled, Step;
    if e.c !in h.clients {
      StrangersIgnored(h, e, at);
    } else {
      JoinLeavesFirst(h, e.c, e.req, e.newCid, e.pick, e.pick2, e.pick, at);
      LeaveSubscriptions(h, e.c, e.pick, at);
      StepKeeps(h, Leave(e.c, e.pick), at);
      SeatlessSubscriptions(Step(h, Leave(e.c, e.pick), at), e, at, c, rid);
    }
  }

  lemma SeatlessSubscriptions(h: HubState, e: Event, at: int, c: ClientId, rid: RID)
    requires Core(h) && Enabled(h, e, at) && e.Join? && e.c in h.clients && Unattached(h, e.c)
    requires c in Step(h, e, at).clients
    ensures Watches(Step(h, e, at), c, rid) <==> Watches(h, c, rid)
  {
    hide Core, Enabled, Step, Passes, Unattached, RemovedFrom, SeatTaken, SeatParked, SeatGiven, Shown, Claimed;
    if !Passes(h, e.req, at) {
      JoinTurnedAway(h, e.c, e.req, e.newCid, e.pick, e.pick2, at);
    } else if e.req.rid !in h.rooms {
      JoinFounds(h, e.c, e.req, e.newCid, e.pick, e.pick2, at);
    } else if e.req.reconnectCid == NO_CID || e.req.reconnectCid !in h.rooms[e.req.rid].byCID {
      JoinAdmits(h, e.c, e.req, e.newCid, e.pick, e.pick2, at);
    } else {
      JoinReturns(h, e.c, e.req, e.newCid, e.pick, e.pick2, at);
    }
  }

  lemma StreamSubscriptions(h: HubState, d: ClientId, sid: SID, at: int, c: ClientId, rid: RID)
    requires Core(h) && Enabled(h, SseConnect(d, sid), at)
    requires c in h.clients && c in Step(h, SseConnect(d, sid), at).clients
    ensures Watches(Step(h, SseConnect(d, sid), at), c, rid) <==> Watches(h, c, rid)
  {
    hide Core, Enabled, Step;
    StreamOpens(h, d, sid, at);
    Promised(h, SseConnect(d, sid), at);
    NewTransport(h, d);
  }

  lemma TakeoverSubscriptions(h: HubState, sid: SID, at: int, c: ClientId, rid: RID)
    requires Core(h) && Enabled(h, SseTakeover(sid), at) && c in h.clients && c in Step(h, SseTakeover(sid), at).clients
    ensures Watches(Step(h, SseTakeover(sid), at), c, rid) <==> Watches(h, c, rid)
  {
    hide Core, Enabled, Step, SeatMoved;
    if sid in h.pending && sid in h.bySID {
      TakeoverMovesSeat(h, sid, at);
      WaitingOne(h, sid);
    } else {
      NothingToTakeOver(h, sid, at);
    }
  }

  lemma DropSubscriptions(h: HubState, d: ClientId, at: int, c: ClientId, rid: RID)
    requires Core(h) && Enabled(h, Drop(d), at) && c in Step(h, Drop(d), at).clients
    ensures Watches(Step(h, Drop(d), at), c, rid) <==> Watches(h, c, rid)
  {
    hide Core, Enabled, Step;
    if Unattached(h, d) {
      DropElsewhere(h, d, at);
    } else {
      var r :| r in h.rooms && d in h.rooms[r].byClient;
      AttachedRecord(h, r, d);
      DropSuspends(h, r, h.rooms[r].byClient[d], d, at);
    }
  }

  lemma PostedSubscriptions(h: HubState, r: RID, cid: CID, pick: CID, at: int, c: ClientId, rid: RID)
    requires Core(h) && Enabled(h, HttpLeave(r, cid, pick), at) && c in Step(h, HttpLeave(r, cid, pick), at).clients
    ensures Watches(Step(h, HttpLeave(r, cid, pick), at), c, rid) <==> Watches(h, c, rid)
  {
    hide Core, Enabled, Step, RemovedFrom;
    PostedLeave(h, r, cid, pick, at);
  }

  lemma TimerSubscriptions(h: HubState, e: Event, at: int, c: ClientId, rid: RID)
    requires Core(h) && Enabled(h, e, at) && e.EvictTimer?
    ensures Watches(Step(h, e, at), c, rid) <==> Watches(h, c, rid)
  {
    hide Core, Enabled, Step, RemovedFrom;
    EvictionTimerFires(h, e.rid, e.id, e.cid, e.pick, at);
  }

  lemma MessageSubscriptions(h: HubState, e: Event, at: int, c: ClientId, rid: RID)
    requires Core(h) && Enabled(h, e, at) && !WatchesAnew(e, c)
    requires e.Leave? || e.End? || e.RelayEvent? || e.Liveness? || e.WatchEvent?
    ensures Watches(Step(h, e, at), c, rid) <==> Watches(h, c, rid)
  {
    hide Core, Enabled, Step, RemovedFrom, N.GivenUp, N.Later;
    if e.c !in h.clients {
      StrangersIgnored(h, e, at);
    } else if e.Leave? {
      LeaveSubscriptions(h, e.c, e.pick, at);
    } else if e.WatchEvent? {
      WatchSubscribes(h, e.c, e.rids, at);
    } else if e.End? {
      EndSubscriptions(h, e.c, at);
    } else if Unattached(h, e.c) {
      if e.RelayEvent? {
        RelaysNothing(h, e.c, e.kind, e.to, at);
      } else {
        ReportsNothing(h, e.c, e.reports, e.order, e.picks, at);
      }
    } else {
      var r :| r in h.rooms && e.c in h.rooms[r].byClient;
      AttachedRecord(h, r, e.c);
      if e.RelayEvent? {
        RelayDelivers(h, e.c, r, h.rooms[r].byClient[e.c], e.kind, e.to, at);
      } else {
        N.MediaReport(h, e.c, r, h.rooms[r].byClient[e.c], e.reports, e.order, e.picks, at);
      }
    }
  }

  lemma EndSubscriptions(h: HubState, c: ClientId, at: int)
    requires Core(h) && Enabled(h, End(c), at) && c in h.clients
    ensures SameTransports(h, Step(h, End(c), at))
  {
    hide Core, Enabled, Step;
    if r :| r in h.rooms && AttachedTo(h.rooms[r], h.rooms[r].host, c) {
      HostEndsRoom(h, c, r, at);
    } else {
      OthersEndNothing(h, c, at);
    }
  }

  /** The subscriptions of a registered transport change by its own watch_rooms and by
      nothing else, as long as it is registered. */
  lemma SubscriptionsLast(h: HubState, e: Event, at: int, c: ClientId, rid: RID)
    requires Core(h) && Enabled(h, e, at) && c in h.clients && c in Step(h, e, at).clients && !WatchesAnew(e, c)
    ensures Watches(Step(h, e, at), c, rid) <==> Watches(h, c, rid)
  {
    hide Core, Enabled, Step;
    Promised(h, e, at);
    match e
    case Join(_, _, _, _, _) => JoinSubscriptions(h, e, at, c, rid);
    case WsConnect(d, sid) => Connects(h, d, sid, at);
    case SseConnect(d, sid) => StreamSubscriptions(h, d, sid, at, c, rid);
    case SseTakeover(sid) => TakeoverSubscriptions(h, sid, at, c, rid);
    case SseAbandon(d) => StreamAbandoned(h, d, at);
    case Drop(d) => DropSubscriptions(h, d, at, c, rid);
    case HttpLeave(r, cid, pick) => PostedSubscriptions(h, r, cid, pick, at, c, rid);
    case EvictTimer(r, id, cid, pick) => TimerSubscriptions(h, e, at, c, rid);
    case IdleTimer(r, id) => IdleTimerFires(h, r, id, at);
    case _ => MessageSubscriptions(h, e, at, c, rid);
  }

  /** The transport stays registered throughout the run and asks for no other rooms. */
  ghost predicate Undisturbed(h: HubState, events: seq<(Event, int)>, c: ClientId)
    requires Run(h, events)
    decreases |events|
  {
    && c in h.clients
    && (events == [] || (!WatchesAnew(events[0].0, c)
                         && Undisturbed(Step(h, events[0].0, events[0].1), events[1..], c)))
  }

  lemma {:induction false} SubscriptionsLastRun(h: HubState, events: seq<(Event, int)>, c: ClientId, rid: RID)
    requires Core(h) && Run(h, events) && Undisturbed(h, events, c)
    ensures Watches(After(h, events), c, rid) <==> Watches(h, c, rid)
    decreases |events|
  {
    hide Core, Step, Enabled, Watches, WatchesAnew;
    if events != [] {
      var e, at := events[0].0, events[0].1;
      StepKeeps(h, e, at);
      StillThere(h, events, c);
      SubscriptionsLast(h, e, at, c, rid);
      SubscriptionsLastRun(Step(h, e, at), events[1..], c, rid);
    }
  }

  lemma StillThere(h: HubState, events: seq<(Event, int)>, c: ClientId)
    requires Run(h, events) && events != [] && Undisturbed(h, events, c)
    ensures c in Step(h, events[0].0, events[0].1).clients
  {
    hide Step, Enabled;
  }

  /** A watch_rooms is good for the whole run after it, until the transport asks anew, is
      taken over or is gone: it watches exactly the rooms it asked for, and was last told
      the present number of participants of each of them. */
  lemma WatchersHear(h: HubState, limit: int, c: ClientId, rids: set<RID>, at: int, events: seq<(Event, int)>, rid: RID)
    requires Reachable(h, limit) && c in h.clients && Enabled(h, WatchEvent(c, rids), at)
    requires Run(Step(h, WatchEvent(c, rids), at), events)
    requires Undisturbed(Step(h, WatchEvent(c, rids), at), events, c)
    ensures
      var l := After(Step(h, WatchEvent(c, rids), at), events);
      && (Watches(l, c, rid) <==> rid in rids)
      && (rid in rids ==> LastCount(l.sent, c, rid) == Some(if rid in l.rooms then |l.rooms[rid].byCID| else 0))
  {
    hide Core, Step, Enabled, Run, After, Undisturbed, Reachable, LastCount;
    var k := Step(h, WatchEvent(c, rids), at);
    ReachableCore(h, limit);
    WatchSubscribes(h, c, rids, at);
    StepKeeps(h, WatchEvent(c, rids), at);
    SubscriptionsLastRun(k, events, c, rid);
    AllToldAlways(h, limit);
    StepTold(h, WatchEvent(c, rids), at);
    RunTold(k, events);
    assert Told(After(k, events), rid);
  }
}
