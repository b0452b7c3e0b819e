/** How a room may change from step to step: what the epoch versions, what stays
    of its capacity, and which timers of a suspended room and participant move. */
module RoomHistory {
  import opened Wrappers
  import opened SignalingTypes
  import opened RoomSpec
  import opened RoomInvariant
  import opened HubSpec
  import opened HubInvariant
  import opened HubSteps

  /** Membership, host and capacity change only with a larger epoch; a locked capacity is final. */
  ghost predicate Grows(r: RoomState, s: RoomState) {
    && s.id == r.id && s.epoch >= r.epoch && s.requestedMax == r.requestedMax
    && (s.epoch == r.epoch ==>
          s.byCID.Keys == r.byCID.Keys && s.host == r.host
          && s.maxParticipants == r.maxParticipants && s.locked == r.locked)
    && (r.locked ==> s.locked && s.maxParticipants == r.maxParticipants)
  }

  /** Nobody enters, the capacity stays, and whoever is suspended stays so with
      the same time stamp; an idle room keeps its no-active deadline, and nobody
      becomes suspended without a larger epoch. */
  ghost predicate Quiet(r: RoomState, s: RoomState) {
    && Grows(r, s) && s.byCID.Keys <= r.byCID.Keys
    && (s.epoch == r.epoch ==> SuspendedCIDs(s) == SuspendedCIDs(r))
    && s.locked == r.locked && s.maxParticipants == r.maxParticipants
    && (r.byClient == map[] ==> s.byClient == map[] && s.idleAt == r.idleAt)
    && (forall cid :: cid in s.byCID && Suspended(r, cid) ==>
          Suspended(s, cid) && s.byCID[cid].suspendedAt == r.byCID[cid].suspendedAt)
  }

  /** Rooms change quietly and none is added; a tombstone that has not expired stays. */
  ghost predicate HubQuiet(h: HubState, k: HubState) {
    && k.nextRoom == h.nextRoom && k.limit == h.limit && k.now == h.now
    && (forall rid :: rid in h.tombstones && k.now <= h.tombstones[rid] ==>
          rid in k.tombstones && k.tombstones[rid] == h.tombstones[rid])
    && forall rid :: rid in k.rooms ==> rid in h.rooms && Quiet(h.rooms[rid], k.rooms[rid])
  }

  lemma QuietSame(h: HubState, k: HubState)
    requires k.rooms == h.rooms && k.nextRoom == h.nextRoom && k.limit == h.limit
    requires k.tombstones == h.tombstones && k.now == h.now
    ensures HubQuiet(h, k)
  {}

  lemma QuietTrans(h: HubState, k: HubState, l: HubState)
    requires HubQuiet(h, k) && HubQuiet(k, l)
    ensures HubQuiet(h, l)
  {
    forall rid | rid in l.rooms
      ensures rid in h.rooms && Quiet(h.rooms[rid], l.rooms[rid])
    {
      QuietThen(h.rooms[rid], k.rooms[rid], l.rooms[rid]);
    }
  }

  lemma QuietThen(r: RoomState, s: RoomState, t: RoomState)
    requires Quiet(r, s) && Quiet(s, t)
    ensures Quiet(r, t)
  {}

  lemma QuietPut(h: HubState, rid: RID, r: RoomState)
    requires rid in h.rooms && Quiet(h.rooms[rid], r)
    ensures HubQuiet(h, PutRoom(h, rid, r))
  {
    forall o | o in h.rooms
      ensures Quiet(h.rooms[o], PutRoom(h, rid, r).rooms[o])
    {}
  }

  // ----- the room operations ----------------------------------------------------

  lemma RemoveQuiet(r: RoomState, cid: CID, pick: CID, now: int)
    requires Indexed(r) && Timed(r) && cid in r.byCID
    ensures Quiet(r, Remove(r, cid, pick, now))
  {
    RemoveIndex(r, cid, pick, now);
    hide Indexed;
  }

  lemma SuspendQuiet(r: RoomState, cid: CID, c: ClientId, now: int)
    requires Indexed(r) && AttachedTo(r, cid, c)
    ensures Quiet(r, Suspend(r, cid, now))
  {
    assert c in r.byClient;
    assert Suspend(r, cid, now).byCID.Keys == r.byCID.Keys;
  }

  lemma SwapQuiet(r: RoomState, prev: ClientId, next: ClientId)
    requires Indexed(r) && prev in r.byClient
    ensures Quiet(r, SwapTransport(r, prev, next))
  {
    assert SwapTransport(r, prev, next).byCID.Keys == r.byCID.Keys;
  }

  lemma SwappedLooksSame(r: RoomState, prev: ClientId, next: ClientId)
    requires Indexed(r) && prev in r.byClient
    ensures Snap(SwapTransport(r, prev, next)) == Snap(r)
  {
    var s := SwapTransport(r, prev, next);
    assert AttachedTo(r, r.byClient[prev], prev);
    assert s.byCID.Keys == r.byCID.Keys;
    assert SuspendedCIDs(s) == SuspendedCIDs(r);
  }

  lemma DeferQuiet(r: RoomState, cid: CID, now: int)
    requires cid in r.byCID
    ensures Quiet(r, Defer(r, cid, now))
  {
    assert Defer(r, cid, now).byCID.Keys == r.byCID.Keys;
  }

  // ----- the handlers other than join ---------------------------------------------

  lemma SettleQuiet(h: HubState, x: HubState, rid: RID, v: RoomState)
    requires rid in h.rooms && Quiet(h.rooms[rid], v)
    requires x.rooms == h.rooms[rid := v] && x.nextRoom == h.nextRoom && x.limit == h.limit
    requires x.tombstones == h.tombstones && x.now == h.now
    ensures HubQuiet(h, Settle(x, rid))
  {
    hide Quiet, Settle;
    SettleIs(x, rid);
    forall o | o in h.rooms && o != rid
      ensures Quiet(h.rooms[o], h.rooms[o])
    {
      QuietRefl(h.rooms[o]);
    }
  }

  lemma QuietRefl(r: RoomState)
    ensures Quiet(r, r)
  {}

  lemma TakeOutQuiet(h: HubState, rid: RID, cid: CID, pick: CID)
    requires Core(h) && rid in h.rooms && cid in h.rooms[rid].byCID
    ensures Quiet(h.rooms[rid], Remove(h.rooms[rid], cid, pick, h.now))
  {
    hide Core, Quiet, RoomInv, Indexed, Timed, Populated, CapacitySafe, Negotiated, Bounded;
    RoomOf(h, rid);
    Parts(h.rooms[rid], h.limit, h.now);
    RemoveQuiet(h.rooms[rid], cid, pick, h.now);
  }

  lemma LeaveQuiet(h: HubState, c: ClientId, pick: CID)
    requires Core(h)
    ensures HubQuiet(h, LeaveRoom(h, c, pick))
  {
    hide Core, Quiet, Settle, Remove;
    var rid, cid := Info(h, c).rid, Info(h, c).cid;
    if rid in h.rooms && AttachedTo(h.rooms[rid], cid, c) {
      TakeOutQuiet(h, rid, cid, pick);
      SettleQuiet(h, TakeOut(h, rid, cid, pick), rid, Remove(h.rooms[rid], cid, pick, h.now));
    } else {
      QuietSame(h, h);
    }
  }

  lemma ExpiredQuiet(h: HubState, rid: RID, cid: CID, pick: CID)
    requires Core(h)
    ensures HubQuiet(h, EvictExpired(h, rid, cid, pick))
  {
    hide Core, Quiet, Settle, Remove;
    if rid in h.rooms && Suspended(h.rooms[rid], cid) {
      TakeOutQuiet(h, rid, cid, pick);
      SettleQuiet(h, TakeOut(h, rid, cid, pick), rid, Remove(h.rooms[rid], cid, pick, h.now));
    }
    QuietSame(h, h);
  }

  lemma HttpLeaveQuiet(h: HubState, rid: RID, cid: CID, pick: CID)
    requires Core(h)
    ensures HubQuiet(h, EvictByLeave(h, rid, cid, pick))
  {
    hide Core, Quiet, Settle, Remove;
    if rid in h.rooms && cid in h.rooms[rid].byCID {
      TakeOutQuiet(h, rid, cid, pick);
      var out := TakeOut(h, rid, cid, pick);
      SettleQuiet(h, out, rid, Remove(h.rooms[rid], cid, pick, h.now));
      match h.rooms[rid].byCID[cid].client {
        case None =>
        case Some(c) => SettleQuiet(h, Deregister(out, c), rid, Remove(h.rooms[rid], cid, pick, h.now));
      }
    } else {
      QuietSame(h, h);
    }
  }

  lemma EvictionFiresQuiet(h: HubState, rid: RID, id: nat, cid: CID, pick: CID)
    requires Core(h)
    ensures HubQuiet(h, EvictionFires(h, rid, id, cid, pick))
  {
    hide Core, Quiet, Settle, Remove, Defer;
    QuietSame(h, h);
    if rid in h.rooms && Suspended(h.rooms[rid], cid) {
      TakeOutQuiet(h, rid, cid, pick);
      SettleQuiet(h, TakeOut(h, rid, cid, pick), rid, Remove(h.rooms[rid], cid, pick, h.now));
      DeferQuiet(h.rooms[rid], cid, h.now);
      QuietPut(h, rid, Defer(h.rooms[rid], cid, h.now));
    }
  }

  lemma IdleFiresQuiet(h: HubState, rid: RID, id: nat)
    requires Core(h)
    ensures HubQuiet(h, IdleFires(h, rid, id))
  {
    hide Core, HubQuiet, Status;
    QuietSame(h, h);
    if rid in h.rooms && h.rooms[rid].byClient != map[] {
      IdleOff(h, rid);
      PutSame(h, rid);
    } else {
      DroppedQuiet(h, rid);
    }
  }

  lemma DroppedQuiet(h: HubState, rid: RID)
    ensures HubQuiet(h, Status(DropRoom(h, rid), rid))
  {
    hide Quiet;
    forall o | o in h.rooms
      ensures Quiet(h.rooms[o], h.rooms[o])
    {
      QuietRefl(h.rooms[o]);
    }
  }

  lemma DropQuiet(h: HubState, c: ClientId)
    requires Core(h)
    ensures HubQuiet(h, Disconnect(h, c))
  {
    hide Core, HubQuiet, Quiet, RoomInv, Indexed, Timed, Populated, CapacitySafe, Negotiated, Bounded, Suspend;
    var rid, cid := Info(h, c).rid, Info(h, c).cid;
    var k := Disconnect(h, c);
    if c in h.clients && rid != NO_RID && cid != NO_CID && rid in h.rooms && AttachedTo(h.rooms[rid], cid, c) {
      RoomOf(h, rid);
      Parts(h.rooms[rid], h.limit, h.now);
      SuspendQuiet(h.rooms[rid], cid, c, h.now);
      var s := PutRoom(h, rid, Suspend(h.rooms[rid], cid, h.now));
      QuietPut(h, rid, s.rooms[rid]);
      DropOnly(h, c);
      QuietSame(s, k);
      QuietTrans(h, s, k);
    } else {
      QuietSame(h, k);
    }
  }

  lemma DropOnly(h: HubState, c: ClientId)
    requires
      var rid, cid := Info(h, c).rid, Info(h, c).cid;
      c in h.clients && rid != NO_RID && cid != NO_CID && rid in h.rooms && AttachedTo(h.rooms[rid], cid, c)
    ensures
      var rid, k := Info(h, c).rid, Disconnect(h, c);
      && k.rooms == h.rooms[rid := Suspend(h.rooms[rid], Info(h, c).cid, h.now)]
      && k.nextRoom == h.nextRoom && k.limit == h.limit && k.tombstones == h.tombstones && k.now == h.now
      && k.clients == h.clients - {c}
  {
    hide Suspend, Status, BroadcastState, Deregister;
    var rid := Info(h, c).rid;
    var d := Deregister(h, c);
    DeregisterFields(h, c);
    var s := PutRoom(d, rid, Suspend(h.rooms[rid], Info(h, c).cid, h.now));
    TellOnly(s, rid);
  }

  lemma DeregisterFields(h: HubState, c: ClientId)
    ensures
      var d := Deregister(h, c);
      && d == h.(clients := h.clients - {c}, bySID := d.bySID, watchers := d.watchers)
      && Info(d, c) == Info(h, c)
  {}

  lemma TellOnly(h: HubState, rid: RID)
    requires rid in h.rooms
    ensures OnlySent(h, Status(h, rid)) && OnlySent(h, Status(BroadcastState(h, rid), rid))
  {}

  lemma ReplaceQuiet(h: HubState, prev: ClientId, next: ClientId)
    requires Core(h) && prev in h.info && next in h.info && prev != next
    ensures HubQuiet(h, Replace(h, prev, next))
  {
    hide Core, Quiet, RoomInv, Indexed, Timed, Populated, CapacitySafe, Negotiated, Bounded, SwapTransport, Replace;
    ReplaceFields(h, prev, next);
    QuietSame(h, h);
    var rid := h.info[prev].rid;
    if Moves(h, prev) {
      RoomOf(h, rid);
      Parts(h.rooms[rid], h.limit, h.now);
      SwapQuiet(h.rooms[rid], prev, next);
      QuietPut(h, rid, SwapTransport(h.rooms[rid], prev, next));
    }
  }

  lemma RelayQuiet(h: HubState, c: ClientId, kind: Kind, to: CID)
    ensures HubQuiet(h, RelayMessage(h, c, kind, to))
  {
    hide Quiet, HubQuiet, MarkMissed, RelayMessage;
    QuietSame(h, h);
    RelayIs(h, c, kind, to);
    var rid := Info(h, c).rid;
    if rid != NO_RID && rid in h.rooms && c in h.rooms[rid].byClient {
      var r := h.rooms[rid];
      var missed := if Negotiates(kind) then SuspendedAudience(r, r.byClient[c], to) else {};
      var put := PutRoom(h, rid, MarkMissed(r, r.byClient[c], missed));
      MarkQuiet(r, r.byClient[c], missed);
      QuietPut(h, rid, MarkMissed(r, r.byClient[c], missed));
      QuietSame(put, RelayMessage(h, c, kind, to));
      QuietTrans(h, put, RelayMessage(h, c, kind, to));
    }
  }

  /** Apart from messages, a relay marks what the suspended members missed. */
  lemma RelayIs(h: HubState, c: ClientId, kind: Kind, to: CID)
    ensures
      var rid := Info(h, c).rid;
      if rid != NO_RID && rid in h.rooms && c in h.rooms[rid].byClient then
        var r := h.rooms[rid];
        var missed := if Negotiates(kind) then SuspendedAudience(r, r.byClient[c], to) else {};
        OnlySent(PutRoom(h, rid, MarkMissed(r, r.byClient[c], missed)), RelayMessage(h, c, kind, to))
      else RelayMessage(h, c, kind, to) == h
  {
    hide MarkMissed, Audience, SuspendedAudience, TransportsOf;
  }

  lemma MarkQuiet(r: RoomState, from: CID, targets: set<CID>)
    ensures Quiet(r, MarkMissed(r, from, targets))
  {}

  lemma {:induction false} EvictAllQuiet(h: HubState, rid: RID, id: nat, order: seq<CID>, picks: seq<CID>)
    requires Core(h) && |picks| == |order|
    ensures HubQuiet(h, EvictAll(h, rid, id, order, picks))
    decreases |order|
  {
    hide Core, Quiet, EvictionFires;
    if order == [] {
      QuietSame(h, h);
    } else {
      var k := EvictionFires(h, rid, id, order[0], picks[0]);
      EvictionFiresKeeps(h, rid, id, order[0], picks[0]);
      EvictionFiresQuiet(h, rid, id, order[0], picks[0]);
      EvictAllQuiet(k, rid, id, order[1..], picks[1..]);
      QuietTrans(h, k, EvictAll(k, rid, id, order[1..], picks[1..]));
    }
  }

  lemma LivenessQuiet(h: HubState, c: ClientId, reports: seq<CID>, order: seq<CID>, picks: seq<CID>)
    requires Core(h) && |picks| == |order|
    ensures HubQuiet(h, LivenessMessage(h, c, reports, order, picks))
  {
    hide Core, Quiet, EvictAll, Fits, RoomInv;
    QuietSame(h, h);
    if LivenessAccepted(h, c) {
      var rid, r := Info(h, c).rid, Reported(h, c, reports);
      ReportQuiet(h.rooms[rid], h.rooms[rid].byClient[c], reports, h.now / MILLISECOND);
      QuietPut(h, rid, r);
      ReportFits(h, c, reports);
      RoomOf(h, rid);
      PutKeeps(h, rid, r);
      EvictAllQuiet(PutRoom(h, rid, r), rid, r.id, order, picks);
      QuietTrans(h, PutRoom(h, rid, r), EvictAll(PutRoom(h, rid, r), rid, r.id, order, picks));
    }
  }

  lemma ReportQuiet(r: RoomState, sender: CID, reports: seq<CID>, nowMs: int)
    ensures Quiet(r, RecordReports(r, sender, reports, nowMs))
  {}

  lemma ServeSSEQuiet(h: HubState, c: ClientId, sid: SID)
    requires Core(h) && c !in h.info
    ensures HubQuiet(h, ServeSSE(h, c, sid))
  {
    hide RoomsSound, HubQuiet, Replace, AttachmentsAgree;
    var known := h.(info := h.info[c := ClientInfo(sid, NO_CID, NO_RID, false)]);
    QuietSame(h, known);
    if sid in h.bySID && Info(h, h.bySID[sid]).rid == NO_RID {
      assert Core(known) by { KnownKeeps(h, c, sid); }
      ReplaceQuiet(known, h.bySID[sid], c);
      QuietTrans(h, known, ServeSSE(h, c, sid));
    } else {
      QuietSame(h, ServeSSE(h, c, sid));
    }
  }

  lemma PromoteQuiet(h: HubState, sid: SID)
    requires Core(h)
    ensures HubQuiet(h, PromotePending(h, sid))
  {
    hide RoomsSound, Quiet, Replace;
    QuietSame(h, h);
    if sid in h.pending && sid in h.bySID {
      ReplaceQuiet(h, h.bySID[sid], h.pending[sid]);
    }
  }

  /** Every step but a join is quiet. */
  lemma StepQuiet(h: HubState, e: Event, at: int)
    requires Core(h) && Enabled(h, e, at) && !e.Join?
    ensures HubQuiet(h.(now := at), Step(h, e, at))
  {
    hide Core, HubQuiet, Enabled, Handle;
    Promised(h, e, at);
    ClockKeeps(h, at);
    if e.WsConnect? || e.SseConnect? || e.SseTakeover? || e.SseAbandon? || e.Drop? {
      TransportQuiet(h.(now := at), e);
    } else if e.HttpLeave? || e.EvictTimer? || e.IdleTimer? {
      RemovalQuiet(h.(now := at), e);
    } else {
      MessageQuiet(h.(now := at), e);
    }
  }

  lemma TransportQuiet(h: HubState, e: Event)
    requires Core(h) && (e.WsConnect? || e.SseConnect? || e.SseTakeover? || e.SseAbandon? || e.Drop?)
    requires e.SseConnect? ==> e.c !in h.info
    ensures HubQuiet(h, Handle(h, e))
  {
    hide Core, HubQuiet, Disconnect, ServeSSE, PromotePending;
    match e
    case WsConnect(c, sid) => QuietSame(h, Register(h, c, sid));
    case SseConnect(c, sid) => ServeSSEQuiet(h, c, sid);
    case SseTakeover(sid) => PromoteQuiet(h, sid);
    case SseAbandon(c) => QuietSame(h, AbandonSSE(h, c));
    case Drop(c) => DropQuiet(h, c);
  }

  lemma RemovalQuiet(h: HubState, e: Event)
    requires Core(h) && (e.HttpLeave? || e.EvictTimer? || e.IdleTimer?)
    ensures HubQuiet(h, Handle(h, e))
  {
    hide Core, HubQuiet, EvictByLeave, EvictionFires, IdleFires;
    match e
    case HttpLeave(rid, cid, pick) => HttpLeaveQuiet(h, rid, cid, pick);
    case EvictTimer(rid, id, cid, pick) => EvictionFiresQuiet(h, rid, id, cid, pick);
    case IdleTimer(rid, id) => IdleFiresQuiet(h, rid, id);
  }

  lemma MessageQuiet(h: HubState, e: Event)
    requires Core(h) && (e.Leave? || e.End? || e.RelayEvent? || e.Liveness? || e.WatchEvent?)
    requires e.Liveness? ==> |e.picks| == |e.order|
    ensures HubQuiet(h, Handle(h, e))
  {
    hide Core, HubQuiet, LeaveRoom, EndRoom, RelayMessage, LivenessMessage;
    QuietSame(h, h);
    match e
    case Leave(c, pick) => LeaveQuiet(h, c, pick);
    case End(c) => TombsApart(h); EndQuiet(h, c);
    case RelayEvent(c, kind, to) => RelayQuiet(h, c, kind, to);
    case Liveness(c, reports, order, picks) => LivenessQuiet(h, c, reports, order, picks);
    case WatchEvent(c, rids) => QuietSame(h, WatchRooms(h, c, rids));
  }

  lemma TombsApart(h: HubState)
    requires Core(h)
    ensures h.rooms.Keys !! h.tombstones.Keys
  {
    hide RoomsSound, Registered, Waiting, AttachmentsAgree;
  }

  lemma EndQuiet(h: HubState, c: ClientId)
    requires h.rooms.Keys !! h.tombstones.Keys
    ensures HubQuiet(h, EndRoom(h, c))
  {
    hide Quiet, EndRoom;
    QuietSame(h, h);
    EndingIs(h, c);
    assert Info(h, c).rid in h.rooms ==> Info(h, c).rid !in h.tombstones;
  }

  // ----- join -----------------------------------------------------------------------

  /** What becomes of a join that reached the room. */
  datatype Fate = Founded | Admitted | Rejoined | Refused | Rejected

  function FateOf(h: HubState, req: JoinRequest): Fate {
    if req.rid !in h.rooms then Founded
    else
      var r := h.rooms[req.rid];
      if req.reconnectCid != NO_CID && req.reconnectCid in r.byCID
      then if ClientMax(req) < r.maxParticipants then Refused else Rejoined
      else
        var m := Met(r, ClientMax(req));
        if ClientMax(req) < m.maxParticipants || |m.byCID| >= m.maxParticipants then Rejected else Admitted
  }

  predicate Accepted(f: Fate) {
    f.Founded? || f.Admitted? || f.Rejoined?
  }

  /** The participant an accepted join ends up as. */
  function Seat(h: HubState, req: JoinRequest, newCid: CID): CID {
    if FateOf(h, req).Rejoined? || Proven(req) then req.reconnectCid else newCid
  }

  function FateRoom(h: HubState, c: ClientId, req: JoinRequest, newCid: CID): RoomState {
    var cid := Seat(h, req, newCid);
    match FateOf(h, req)
    case Founded => Complete(Attach(NewRoom(h.nextRoom, CreateMax(req, h.limit)), cid, c, req.capability), cid)
    case Admitted => Complete(Attach(Met(h.rooms[req.rid], ClientMax(req)), cid, c, req.capability), cid)
    case Rejoined => Complete(TakeSlot(h.rooms[req.rid], cid, c), cid)
    case Refused => Park(TakeSlot(h.rooms[req.rid], req.reconnectCid, c), req.reconnectCid, h.now)
    case Rejected => h.rooms[req.rid]
  }

  ghost predicate JoinReady(h: HubState, c: ClientId, req: JoinRequest, newCid: CID) {
    && Core(h) && Unattached(h, c) && c in h.clients && req.rid != NO_RID && newCid != NO_CID
    && (req.rid in h.rooms ==> newCid !in h.rooms[req.rid].byCID)
  }

  /** A join changes its own room only, by one of the five fates. */
  lemma JoinRooms(h: HubState, c: ClientId, req: JoinRequest, newCid: CID)
    requires JoinReady(h, c, req, newCid)
    ensures
      var k := JoinRoom(h, c, req, newCid);
      && k.rooms == h.rooms[req.rid := FateRoom(h, c, req, newCid)]
      && h.nextRoom <= k.nextRoom && k.now == h.now && k.limit == h.limit
      && k.tombstones == if Accepted(FateOf(h, req)) then h.tombstones - {req.rid} else h.tombstones
  {
    hide Core, RoomInv, Fits, JoinRoom, JoinExisting, JoinNew, FateRoom, FateOf, Accepted, Unattached;
    Agreed(h);
    if req.rid !in h.rooms {
      FoundingRooms(h, c, req, newCid);
    } else if req.reconnectCid != NO_CID && req.reconnectCid in h.rooms[req.rid].byCID {
      ExistingRooms(h, c, req, newCid);
      PresentRoom(h, c, req, newCid);
    } else {
      NewcomerRooms(h, c, req, newCid);
      PresentRoom(h, c, req, newCid);
    }
  }

  lemma PresentRoom(h: HubState, c: ClientId, req: JoinRequest, newCid: CID)
    requires req.rid in h.rooms
    ensures JoinRoom(h, c, req, newCid)
         == if req.reconnectCid != NO_CID && req.reconnectCid in h.rooms[req.rid].byCID
            then JoinExisting(h, c, req) else JoinNew(h, c, req, newCid)
  {
    hide JoinExisting, JoinNew;
  }

  lemma FoundingRooms(h: HubState, c: ClientId, req: JoinRequest, newCid: CID)
    requires req.rid !in h.rooms && h.limit >= 2
    ensures
      var k := JoinRoom(h, c, req, newCid);
      && k.rooms == h.rooms[req.rid := FateRoom(h, c, req, newCid)]
      && k.nextRoom == h.nextRoom + 1 && k.now == h.now && k.limit == h.limit
      && k.tombstones == h.tombstones - {req.rid} && Accepted(FateOf(h, req))
  {
    hide JoinRoom, Complete, Attach, Admit, FateRoom, CreateMax;
    FoundingIs(h, c, req, newCid);
    FoundingFate(h, c, req, newCid);
    var cid := Seat(h, req, newCid);
    var n := NewRoom(h.nextRoom, CreateMax(req, h.limit));
    AdmitRooms(Claim(PutRoom(h.(nextRoom := h.nextRoom + 1), req.rid, n), c, cid, req.rid), c, req.rid,
               Attach(n, cid, c, req.capability), cid, if Proven(req) then Recovered else Fresh);
  }

  lemma FoundingFate(h: HubState, c: ClientId, req: JoinRequest, newCid: CID)
    requires req.rid !in h.rooms
    ensures
      var cid := Seat(h, req, newCid);
      && FateOf(h, req).Founded?
      && FateRoom(h, c, req, newCid)
         == Complete(Attach(NewRoom(h.nextRoom, CreateMax(req, h.limit)), cid, c, req.capability), cid)
      && cid == if Proven(req) then req.reconnectCid else newCid
  {
    hide Complete, Attach, CreateMax;
  }

  lemma NewcomerFate(h: HubState, c: ClientId, req: JoinRequest, newCid: CID)
    requires req.rid in h.rooms
    requires req.reconnectCid != NO_CID ==> req.reconnectCid !in h.rooms[req.rid].byCID
    ensures
      var cid, r := if Proven(req) then req.reconnectCid else newCid, Met(h.rooms[req.rid], ClientMax(req));
      && (FateOf(h, req).Rejected? || FateOf(h, req).Admitted?)
      && FateRoom(h, c, req, newCid) == if FateOf(h, req).Rejected? then h.rooms[req.rid]
                                        else Complete(Attach(r, cid, c, req.capability), cid)
  {
    hide Complete, Attach, Met;
  }

  lemma ExistingFate(h: HubState, c: ClientId, req: JoinRequest, newCid: CID)
    requires req.rid in h.rooms && req.reconnectCid != NO_CID && req.reconnectCid in h.rooms[req.rid].byCID
    ensures
      var r, cid := h.rooms[req.rid], req.reconnectCid;
      && FateOf(h, req) == (if ClientMax(req) < r.maxParticipants then Refused else Rejoined)
      && FateRoom(h, c, req, newCid) == if ClientMax(req) < r.maxParticipants then Park(TakeSlot(r, cid, c), cid, h.now)
                                        else Complete(TakeSlot(r, cid, c), cid)
  {
    hide Complete, TakeSlot, Park;
  }

  lemma AdmitRooms(h: HubState, c: ClientId, rid: RID, r: RoomState, cid: CID, outcome: Outcome)
    ensures
      var k := Admit(h, c, rid, r, cid, outcome);
      && k.rooms == h.rooms[rid := Complete(r, cid)] && k.nextRoom == h.nextRoom && k.now == h.now && k.limit == h.limit
      && k.tombstones == h.tombstones - {rid}
  {
    hide Complete, Admit;
    AdmitOnly(h, c, rid, r, cid, outcome);
  }

  lemma ErrorFields(h: HubState, c: ClientId)
    ensures forall code :: OnlySent(h, SendError(h, c, code))
  {}

  lemma ExistingRooms(h: HubState, c: ClientId, req: JoinRequest, newCid: CID)
    requires req.rid in h.rooms && req.reconnectCid != NO_CID && req.reconnectCid in h.rooms[req.rid].byCID
    ensures
      var k := JoinExisting(h, c, req);
      && k.rooms == h.rooms[req.rid := FateRoom(h, c, req, newCid)]
      && k.nextRoom == h.nextRoom && k.now == h.now && k.limit == h.limit
      && k.tombstones == if Accepted(FateOf(h, req)) then h.tombstones - {req.rid} else h.tombstones
  {
    hide FateRoom, FateOf, JoinExisting, Complete, TakeSlot, Park;
    ExistingFate(h, c, req, newCid);
    if FateOf(h, req).Refused? {
      RefusedRooms(h, c, req);
    } else {
      RejoinedRooms(h, c, req);
    }
  }

  lemma RefusedRooms(h: HubState, c: ClientId, req: JoinRequest)
    requires req.rid in h.rooms && req.reconnectCid in h.rooms[req.rid].byCID
    requires ClientMax(req) < h.rooms[req.rid].maxParticipants
    ensures
      var k, r, cid := JoinExisting(h, c, req), h.rooms[req.rid], req.reconnectCid;
      && k.rooms == h.rooms[req.rid := Park(TakeSlot(r, cid, c), cid, h.now)]
      && k.nextRoom == h.nextRoom && k.now == h.now && k.limit == h.limit && k.tombstones == h.tombstones
  {
    hide TakeSlot, Park, EvictGhost, BroadcastState, SendError, Claim, Admit;
    var rid, cid, r := req.rid, req.reconnectCid, h.rooms[req.rid];
    TakenClients(r, cid, c);
    ClaimFields(h, c, cid, rid);
    var parked := PutRoom(Claim(h, c, cid, rid), rid, Park(TakeSlot(r, cid, c), cid, h.now));
    GhostRooms(parked, r.byCID[cid].client);
    RefusalTells(EvictGhost(parked, r.byCID[cid].client), rid, c);
  }

  lemma RejoinedRooms(h: HubState, c: ClientId, req: JoinRequest)
    requires req.rid in h.rooms && req.reconnectCid in h.rooms[req.rid].byCID
    requires ClientMax(req) >= h.rooms[req.rid].maxParticipants
    ensures
      var k, r, cid := JoinExisting(h, c, req), h.rooms[req.rid], req.reconnectCid;
      && k.rooms == h.rooms[req.rid := Complete(TakeSlot(r, cid, c), cid)]
      && k.nextRoom == h.nextRoom && k.now == h.now && k.limit == h.limit && k.tombstones == h.tombstones - {req.rid}
  {
    hide TakeSlot, Park, Complete, EvictGhost, BroadcastState, SendError, Claim, Admit;
    var rid, cid, r := req.rid, req.reconnectCid, h.rooms[req.rid];
    TakenClients(r, cid, c);
    ClaimFields(h, c, cid, rid);
    var taken := PutRoom(Claim(h, c, cid, rid), rid, TakeSlot(r, cid, c));
    GhostRooms(taken, r.byCID[cid].client);
    AdmitRooms(EvictGhost(taken, r.byCID[cid].client), c, rid, TakeSlot(r, cid, c), cid, Reattached);
  }

  lemma RefusalTells(h: HubState, rid: RID, c: ClientId)
    requires rid in h.rooms
    ensures OnlySent(h, SendError(h, c, RoomCapacityUnsupported))
    ensures OnlySent(h, SendError(BroadcastState(h, rid), c, RoomCapacityUnsupported))
  {}

  lemma GhostRooms(h: HubState, former: Option<ClientId>)
    ensures
      var k := EvictGhost(h, former);
      && k.rooms == h.rooms && k.nextRoom == h.nextRoom && k.now == h.now && k.limit == h.limit
      && k.tombstones == h.tombstones && k.sent == h.sent
  {}

  lemma NewcomerRooms(h: HubState, c: ClientId, req: JoinRequest, newCid: CID)
    requires Core(h) && req.rid in h.rooms
    requires req.reconnectCid != NO_CID ==> req.reconnectCid !in h.rooms[req.rid].byCID
    ensures
      var k := JoinNew(h, c, req, newCid);
      && k.rooms == h.rooms[req.rid := FateRoom(h, c, req, newCid)]
      && k.nextRoom == h.nextRoom && k.now == h.now && k.limit == h.limit
      && k.tombstones == if Accepted(FateOf(h, req)) then h.tombstones - {req.rid} else h.tombstones
  {
    hide Core, RoomInv, Complete, Attach, Admit, Fits, LockCapacity, SendError, Met, JoinNew, Claim, CreateMax,
        FateRoom, FateOf;
    NewcomerFate(h, c, req, newCid);
    var rid, cid := req.rid, if Proven(req) then req.reconnectCid else newCid;
    var r := Met(h.rooms[rid], ClientMax(req));
    NewcomerIs(h, c, req, newCid);
    if FateOf(h, req).Rejected? {
      RejectedOnly(h, c, req, newCid);
      PutSame(h, rid);
    } else {
      AdmitRooms(Claim(PutRoom(h, rid, r), c, cid, rid), c, rid, Attach(r, cid, c, req.capability), cid,
                 if Proven(req) then Recovered else Fresh);
      ClaimFields(PutRoom(h, rid, r), c, cid, rid);
    }
  }

  lemma PutSame(h: HubState, rid: RID)
    requires rid in h.rooms
    ensures PutRoom(h, rid, h.rooms[rid]) == h
  {}

  lemma RejectedOnly(h: HubState, c: ClientId, req: JoinRequest, newCid: CID)
    requires Core(h) && req.rid in h.rooms && FateOf(h, req).Rejected?
    requires req.reconnectCid != NO_CID ==> req.reconnectCid !in h.rooms[req.rid].byCID
    ensures OnlySent(h, JoinNew(h, c, req, newCid))
  {
    hide Core, SendError, Met, JoinNew, PutRoom, FateOf;
    NewcomerIs(h, c, req, newCid);
    RejectedUnlocked(h, req);
    PutSame(h, req.rid);
    ErrorFields(h, c);
  }

  lemma ClaimFields(h: HubState, c: ClientId, cid: CID, rid: RID)
    ensures Claim(h, c, cid, rid) == h.(info := Claim(h, c, cid, rid).info)
  {}

  lemma NewcomerIs(h: HubState, c: ClientId, req: JoinRequest, newCid: CID)
    requires req.rid in h.rooms
    requires req.reconnectCid != NO_CID ==> req.reconnectCid !in h.rooms[req.rid].byCID
    ensures
      var r, cid := Met(h.rooms[req.rid], ClientMax(req)), if Proven(req) then req.reconnectCid else newCid;
      var h1 := PutRoom(h, req.rid, r);
      JoinNew(h, c, req, newCid)
      == if FateOf(h, req).Rejected?
         then SendError(h1, c, if ClientMax(req) < r.maxParticipants then RoomCapacityUnsupported else RoomFull)
         else Admit(Claim(h1, c, cid, req.rid), c, req.rid, Attach(r, cid, c, req.capability), cid,
                    if Proven(req) then Recovered else Fresh)
  {
    hide Admit, Attach, SendError, Claim, LockCapacity;
  }

  /** Only a room whose capacity is final turns a newcomer away. */
  lemma RejectedUnlocked(h: HubState, req: JoinRequest)
    requires Core(h) && req.rid in h.rooms && FateOf(h, req).Rejected?
    ensures Met(h.rooms[req.rid], ClientMax(req)) == h.rooms[req.rid]
  {
    hide Core, Fits, LockCapacity, RoomInv;
    MetKeeps(h, req.rid, ClientMax(req));
  }

  // ----- the join message as a whole --------------------------------------------------

  ghost function AfterLeave(h: HubState, c: ClientId, pick: CID): HubState {
    if Info(h, c).rid != NO_RID then LeaveRoom(h, c, pick) else h
  }

  /** The request passes the checks that come before the room. */
  predicate Reaches(h: HubState, req: JoinRequest) {
    && req.rid != NO_RID && req.check == ValidId
    && !(PresentsToken(req) && req.verdict != TokenOk)
    && !(Proven(req) && TombstoneActive(h, req.rid))
  }

  /** The hub as the room finds it. */
  ghost function Arrival(h: HubState, c: ClientId, req: JoinRequest, pick: CID): HubState {
    var l := AfterLeave(h, c, pick);
    if Proven(req) then SweepTombstone(l, req.rid) else l
  }

  lemma LeavingFirst(h: HubState, c: ClientId, pick: CID)
    requires Core(h) && c in h.clients
    ensures
      var l := AfterLeave(h, c, pick);
      && Core(l) && Unattached(l, c) && c in l.clients && HubQuiet(h, l)
      && l.now == h.now && l.tombstones == h.tombstones
  {
    hide Core, HubQuiet;
    if Info(h, c).rid != NO_RID {
      LeaveKeeps(h, c, pick);
      LeaveQuiet(h, c, pick);
      hide Settle, Remove;
      var rid := Info(h, c).rid;
      if rid in h.rooms && AttachedTo(h.rooms[rid], Info(h, c).cid, c) {
        SettleIs(TakeOut(h, rid, Info(h, c).cid, pick), rid);
      }
    } else {
      NoNullRoom(h);
      NotAttached(h, c);
      QuietSame(h, h);
    }
  }

  lemma JoinSplit(h: HubState, c: ClientId, req: JoinRequest, newCid: CID, pick: CID, pick2: CID)
    requires Core(h) && c in h.clients && newCid != NO_CID
    requires req.rid in h.rooms ==> newCid !in h.rooms[req.rid].byCID
    ensures
      var l, x, k := AfterLeave(h, c, pick), Arrival(h, c, req, pick), JoinMessage(h, c, req, newCid, pick, pick2);
      if Reaches(l, req)
      then k == JoinRoom(x, c, req, newCid) && JoinReady(x, c, req, newCid) && HubQuiet(h, x)
           && x.now == h.now && x.rooms == l.rooms
      else HubQuiet(h, k) && k.tombstones == h.tombstones
  {
    hide Core, HubQuiet, LeaveRoom, JoinRoom, EvictExpired, HandleJoin, AfterLeave;
    LeavingFirst(h, c, pick);
    var l, x := AfterLeave(h, c, pick), Arrival(h, c, req, pick);
    assert JoinMessage(h, c, req, newCid, pick, pick2) == HandleJoin(l, c, req, newCid, pick2) by {
      LeavesFirst(h, c, req, newCid, pick, pick2);
    }
    if Reaches(l, req) {
      SweepKeeps(l, req.rid);
      SweepQuiet(l, req.rid);
      QuietSame(l, l);
      QuietTrans(h, l, x);
      ReachedJoin(l, c, req, newCid, pick2);
      if req.rid in l.rooms {
        QuietMembers(h, l, req.rid);
      }
    } else {
      RejectedQuiet(l, c, req, newCid, pick2);
      QuietTrans(h, l, HandleJoin(l, c, req, newCid, pick2));
    }
  }

  lemma LeavesFirst(h: HubState, c: ClientId, req: JoinRequest, newCid: CID, pick: CID, pick2: CID)
    ensures JoinMessage(h, c, req, newCid, pick, pick2) == HandleJoin(AfterLeave(h, c, pick), c, req, newCid, pick2)
  {
    hide HandleJoin, LeaveRoom;
  }

  lemma SweepQuiet(h: HubState, rid: RID)
    ensures HubQuiet(h, SweepTombstone(h, rid))
  {
    hide Quiet;
    QuietSame(h, h);
  }

  lemma QuietMembers(h: HubState, k: HubState, rid: RID)
    requires HubQuiet(h, k) && rid in k.rooms
    ensures rid in h.rooms && k.rooms[rid].byCID.Keys <= h.rooms[rid].byCID.Keys
  {}

  lemma ReachedJoin(h: HubState, c: ClientId, req: JoinRequest, newCid: CID, pick: CID)
    requires Reaches(h, req)
    ensures HandleJoin(h, c, req, newCid, pick)
         == JoinRoom(if Proven(req) then SweepTombstone(h, req.rid) else h, c, req, newCid)
  {
    hide JoinRoom, EvictExpired;
  }

  /** A join turned away before the room only ever evicts an expired suspended record. */
  lemma RejectedQuiet(h: HubState, c: ClientId, req: JoinRequest, newCid: CID, pick: CID)
    requires Core(h) && !Reaches(h, req)
    ensures
      var k := HandleJoin(h, c, req, newCid, pick);
      HubQuiet(h, k) && k.tombstones == h.tombstones
  {
    hide Core, HubQuiet, EvictExpired, JoinRoom, SweepTombstone, TombstoneActive, SendError;
    var k := HandleJoin(h, c, req, newCid, pick);
    if req.rid == NO_RID {
      ErrorQuiet(h, c, BadRequest);
    } else if req.check == SecretMissing {
      ErrorQuiet(h, c, ServerNotConfigured);
    } else if req.check == InvalidId {
      ErrorQuiet(h, c, InvalidRoomId);
    } else if PresentsToken(req) && req.verdict != TokenOk {
      var e := if req.verdict == TokenExpired then EvictExpired(h, req.rid, req.reconnectCid, pick) else h;
      ExpiredQuiet(h, req.rid, req.reconnectCid, pick);
      ExpiredFields(h, req.rid, req.reconnectCid, pick);
      QuietSame(h, h);
      ErrorQuiet(e, c, InvalidReconnectToken);
      QuietTrans(h, e, k);
    } else {
      ErrorQuiet(h, c, RoomEndedError);
    }
  }

  lemma ErrorQuiet(h: HubState, c: ClientId, code: ErrorCode)
    ensures HubQuiet(h, SendError(h, c, code)) && SendError(h, c, code).tombstones == h.tombstones
  {
    hide HubQuiet;
    QuietSame(h, SendError(h, c, code));
  }

  lemma ExpiredFields(h: HubState, rid: RID, cid: CID, pick: CID)
    ensures
      var k := EvictExpired(h, rid, cid, pick);
      k.nextRoom == h.nextRoom && k.limit == h.limit && k.tombstones == h.tombstones && k.now == h.now
  {
    hide Settle, Remove;
    if rid in h.rooms && Suspended(h.rooms[rid], cid) {
      SettleIs(TakeOut(h, rid, cid, pick), rid);
    }
  }

  // ----- growth over steps and runs -----------------------------------------------------

  /** Rooms that stay in the hub grow; the others are new incarnations. */
  ghost predicate HubGrows(h: HubState, k: HubState) {
    && h.nextRoom <= k.nextRoom && k.limit == h.limit
    && forall rid :: rid in k.rooms ==>
         (rid in h.rooms && Grows(h.rooms[rid], k.rooms[rid])) || k.rooms[rid].id >= h.nextRoom
  }

  lemma GrowsTrans(h: HubState, k: HubState, l: HubState)
    requires HubGrows(h, k) && HubGrows(k, l)
    ensures HubGrows(h, l)
  {}

  lemma QuietGrows(h: HubState, k: HubState)
    requires HubQuiet(h, k)
    ensures HubGrows(h, k)
  {}

  lemma FateGrows(h: HubState, c: ClientId, req: JoinRequest, newCid: CID)
    requires JoinReady(h, c, req, newCid) && req.rid in h.rooms
    ensures Grows(h.rooms[req.rid], FateRoom(h, c, req, newCid))
  {
    hide Core, RoomInv, Indexed, Timed, CapacitySafe, Negotiated, Bounded, Fits;
    var r, cid := h.rooms[req.rid], Seat(h, req, newCid);
    RoomOf(h, req.rid);
    Parts(r, h.limit, h.now);
    match FateOf(h, req)
    case Rejected =>
    case Refused => RefusedGrows(r, req.reconnectCid, c, h.now);
    case Rejoined =>
    case Admitted =>
      MetKeeps(h, req.rid, ClientMax(req));
      hide Attach;
      AttachedClients(r, cid, c, req.capability);
      MetGrows(r, ClientMax(req), req.capability, cid, c);
  }

  lemma RefusedGrows(r: RoomState, cid: CID, c: ClientId, now: int)
    requires cid in r.byCID
    ensures Grows(r, Park(TakeSlot(r, cid, c), cid, now))
  {
    assert Park(TakeSlot(r, cid, c), cid, now).byCID.Keys == r.byCID.Keys;
  }

  lemma MetGrows(r: RoomState, clientMax: int, cap: Option<int>, cid: CID, c: ClientId)
    ensures Grows(r, Complete(Attach(Met(r, clientMax), cid, c, cap), cid))
  {}

  lemma StepGrows(h: HubState, e: Event, at: int)
    requires Core(h) && Enabled(h, e, at)
    ensures HubGrows(h, Step(h, e, at))
  {
    hide Core, HubQuiet, JoinMessage, JoinRoom, Enabled, Grows;
    var k := h.(now := at);
    Promised(h, e, at);
    ClockKeeps(h, at);
    if !e.Join? {
      StepQuiet(h, e, at);
      QuietGrows(k, Step(h, e, at));
    } else if e.c in k.clients {
      JoinGrows(k, e.c, e.req, e.newCid, e.pick, e.pick2);
    } else {
      QuietSame(k, k);
      QuietGrows(k, k);
    }
  }

  lemma JoinRoomGrows(h: HubState, c: ClientId, req: JoinRequest, newCid: CID)
    requires JoinReady(h, c, req, newCid)
    ensures HubGrows(h, JoinRoom(h, c, req, newCid))
  {
    hide Core, JoinRoom, Grows, FateRoom;
    JoinRooms(h, c, req, newCid);
    forall rid | rid in h.rooms
      ensures Grows(h.rooms[rid], h.rooms[rid])
    {
      GrowsRefl(h.rooms[rid]);
    }
    if req.rid in h.rooms {
      FateGrows(h, c, req, newCid);
    } else {
      FoundedNumber(h, c, req, newCid);
    }
  }

  lemma HandleJoinGrows(h: HubState, c: ClientId, req: JoinRequest, newCid: CID, pick: CID)
    requires Core(h) && Unattached(h, c) && c in h.clients && newCid != NO_CID
    requires req.rid in h.rooms ==> newCid !in h.rooms[req.rid].byCID
    ensures HubGrows(h, HandleJoin(h, c, req, newCid, pick))
  {
    hide Core, HubQuiet, HubGrows, JoinRoom, HandleJoin, Unattached;
    var k := HandleJoin(h, c, req, newCid, pick);
    if Reaches(h, req) {
      var x := if Proven(req) then SweepTombstone(h, req.rid) else h;
      ReachedJoin(h, c, req, newCid, pick);
      SweepKeeps(h, req.rid);
      SweepQuiet(h, req.rid);
      QuietSame(h, h);
      QuietGrows(h, x);
      SweptUnattached(h, req.rid, c);
      JoinRoomGrows(x, c, req, newCid);
      GrowsTrans(h, x, k);
    } else {
      RejectedQuiet(h, c, req, newCid, pick);
      QuietGrows(h, k);
    }
  }

  lemma SweptUnattached(h: HubState, rid: RID, c: ClientId)
    requires Unattached(h, c)
    ensures Unattached(SweepTombstone(h, rid), c)
  {}

  lemma JoinGrows(h: HubState, c: ClientId, req: JoinRequest, newCid: CID, pick: CID, pick2: CID)
    requires Core(h) && c in h.clients && newCid != NO_CID
    requires req.rid in h.rooms ==> newCid !in h.rooms[req.rid].byCID
    ensures HubGrows(h, JoinMessage(h, c, req, newCid, pick, pick2))
  {
    hide Core, HubQuiet, HubGrows, HandleJoin, JoinMessage, AfterLeave, Unattached;
    var l := AfterLeave(h, c, pick);
    LeavingFirst(h, c, pick);
    QuietGrows(h, l);
    LeavesFirst(h, c, req, newCid, pick, pick2);
    if req.rid in l.rooms {
      QuietMembers(h, l, req.rid);
    }
    HandleJoinGrows(l, c, req, newCid, pick2);
    GrowsTrans(h, l, HandleJoin(l, c, req, newCid, pick2));
  }

  lemma GrowsRefl(r: RoomState)
    ensures Grows(r, r)
  {}

  lemma FoundedNumber(h: HubState, c: ClientId, req: JoinRequest, newCid: CID)
    requires req.rid !in h.rooms
    ensures FateRoom(h, c, req, newCid).id == h.nextRoom
  {}

  /** Over any run, too: a room with the same number is the same room grown. */
  lemma {:induction false} RunGrows(h: HubState, events: seq<(Event, int)>)
    requires Core(h) && Run(h, events)
    ensures HubGrows(h, After(h, events))
    decreases |events|
  {
    hide Core, Step, Enabled, HubGrows;
    if events == [] {
      QuietSame(h, h);
      QuietGrows(h, h);
    } else {
      var k := Step(h, events[0].0, events[0].1);
      StepKeeps(h, events[0].0, events[0].1);
      StepGrows(h, events[0].0, events[0].1);
      RunGrows(k, events[1..]);
      GrowsTrans(h, k, After(k, events[1..]));
    }
  }
}
