/** Payloads of equal epoch agree: whatever two joined or room_state messages of one
    room were ever sent, the epoch orders them and versions what they say. */
module PayloadTheorems {
  import opened Wrappers
  import opened SignalingTypes
  import opened RoomSpec
  import opened RoomInvariant
  import opened HubSpec
  import opened HubInvariant
  import opened HubSteps
  import opened RoomHistory
  import opened HubTheorems

  /** A message that carries the state of incarnation `id` of room `rid`. */
  predicate Carries(s: Sent, rid: RID, id: nat) {
    s.Sent? && (s.body.Joined? || s.body.RoomStateMsg?) && s.body.rid == rid && s.body.id == id
  }

  predicate CarriesAny(s: Sent) {
    s.Sent? && (s.body.Joined? || s.body.RoomStateMsg?)
  }

  /** `b` is the same version of the membership as `a`, or a later one. */
  predicate Follows(a: Snapshot, b: Snapshot) {
    && a.epoch <= b.epoch
    && (a.epoch == b.epoch ==> a.host == b.host && a.maxParticipants == b.maxParticipants && a.members == b.members)
  }

  /** Payloads of a room come in order, and none is ahead of the room. */
  ghost predicate Ordered(h: HubState) {
    && (forall i, rid, id: nat :: 0 <= i < |h.sent| && Carries(h.sent[i], rid, id) ==>
          && id < h.nextRoom
          && (rid in h.rooms && h.rooms[rid].id == id ==> Follows(h.sent[i].body.snapshot, Snap(h.rooms[rid]))))
    && (forall i, j, rid, id: nat ::
          0 <= i <= j < |h.sent| && Carries(h.sent[i], rid, id) && Carries(h.sent[j], rid, id) ==>
          Follows(h.sent[i].body.snapshot, h.sent[j].body.snapshot))
  }

  /** Every payload sent after `base` tells the present state of its room. */
  ghost predicate Current(base: seq<Sent>, k: HubState) {
    && base <= k.sent
    && forall i :: |base| <= i < |k.sent| && CarriesAny(k.sent[i]) ==> Tells(k.rooms, k.sent[i].body)
  }

  predicate Tells(rooms: map<RID, RoomState>, b: Body)
    requires b.Joined? || b.RoomStateMsg?
  {
    b.rid in rooms && b.id == rooms[b.rid].id && b.snapshot == Snap(rooms[b.rid])
  }

  lemma GrownSnap(r: RoomState, s: RoomState)
    requires Grows(r, s)
    ensures Follows(Snap(r), Snap(s))
  {}

  ghost predicate BelowNext(h: HubState) {
    forall rid :: rid in h.rooms ==> h.rooms[rid].id < h.nextRoom
  }

  lemma CurrentKeeps(h: HubState, k: HubState)
    requires Ordered(h) && HubGrows(h, k) && Current(h.sent, k) && BelowNext(h) && BelowNext(k)
    ensures Ordered(k)
  {
    hide Snap, Grows;
    forall i, rid, id: nat | 0 <= i < |k.sent| && Carries(k.sent[i], rid, id)
      ensures id < k.nextRoom
      ensures rid in k.rooms && k.rooms[rid].id == id ==> Follows(k.sent[i].body.snapshot, Snap(k.rooms[rid]))
    {
      BehindRoom(h, k, i, rid, id);
    }
    forall i, j, rid, id: nat | 0 <= i <= j < |k.sent| && Carries(k.sent[i], rid, id) && Carries(k.sent[j], rid, id)
      ensures Follows(k.sent[i].body.snapshot, k.sent[j].body.snapshot)
    {
      if j < |h.sent| {
        assert k.sent[i] == h.sent[i] && k.sent[j] == h.sent[j];
      } else {
        assert CarriesAny(k.sent[j]) && Tells(k.rooms, k.sent[j].body);
        BehindRoom(h, k, i, rid, id);
      }
    }
  }

  lemma BehindRoom(h: HubState, k: HubState, i: nat, rid: RID, id: nat)
    requires Ordered(h) && HubGrows(h, k) && Current(h.sent, k) && BelowNext(h) && BelowNext(k)
    requires i < |k.sent| && Carries(k.sent[i], rid, id)
    ensures id < k.nextRoom
    ensures rid in k.rooms && k.rooms[rid].id == id ==> Follows(k.sent[i].body.snapshot, Snap(k.rooms[rid]))
  {
    hide Snap, Grows;
    if i < |h.sent| {
      assert k.sent[i] == h.sent[i];
      if rid in k.rooms && k.rooms[rid].id == id {
        assert rid in h.rooms && Grows(h.rooms[rid], k.rooms[rid]);
        GrownSnap(h.rooms[rid], k.rooms[rid]);
        SameRoom(h.rooms[rid], k.rooms[rid]);
      }
    } else {
      assert CarriesAny(k.sent[i]) && Tells(k.rooms, k.sent[i].body);
    }
  }

  lemma SameRoom(r: RoomState, s: RoomState)
    requires Grows(r, s)
    ensures r.id == s.id
  {}

  lemma CoreNumbered(h: HubState)
    requires Core(h)
    ensures BelowNext(h)
  {
    hide RoomInv, Registered, Waiting, AttachmentsAgree;
  }

  lemma StepOrdered(h: HubState, k: HubState)
    requires Ordered(h) && HubGrows(h, k) && Current(h.sent, k) && Core(h) && Core(k)
    ensures Ordered(k)
  {
    hide Core, Ordered, HubGrows, Current;
    CoreNumbered(h);
    CoreNumbered(k);
    CurrentKeeps(h, k);
  }

  // ----- the building blocks ---------------------------------------------------------------

  lemma CurrentStart(k: HubState)
    ensures Current(k.sent, k)
  {}

  lemma CurrentSend(base: seq<Sent>, k: HubState, to: set<ClientId>, body: Body)
    requires Current(base, k) && (body.Joined? || body.RoomStateMsg? ==> Tells(k.rooms, body))
    ensures Current(base, Send(k, to, body)) && Send(k, to, body).rooms == k.rooms
  {
    hide Snap;
  }

  lemma CurrentState(base: seq<Sent>, k: HubState, rid: RID, to: set<ClientId>)
    requires Current(base, k) && rid in k.rooms
    ensures Current(base, StateTo(k, rid, to)) && StateTo(k, rid, to).rooms == k.rooms
  {
    hide Snap;
    CurrentSend(base, k, to, RoomStateMsg(rid, k.rooms[rid].id, Snap(k.rooms[rid])));
  }

  lemma CurrentStatus(base: seq<Sent>, k: HubState, rid: RID)
    requires Current(base, k)
    ensures Current(base, Status(k, rid)) && Status(k, rid).rooms == k.rooms
  {
    if rid in k.watchers {
      CurrentSend(base, k, k.watchers[rid], StatusUpdate(rid, Count(k, rid)));
    }
  }

  lemma CurrentError(base: seq<Sent>, k: HubState, c: ClientId, code: ErrorCode)
    requires Current(base, k)
    ensures Current(base, SendError(k, c, code))
  {
    CurrentSend(base, k, {c}, Error(code));
  }

  /** As long as only other messages went out, the rooms may still change. */
  lemma CurrentBare(base: seq<Sent>, k: HubState)
    requires base <= k.sent && forall i :: |base| <= i < |k.sent| ==> !CarriesAny(k.sent[i])
    ensures Current(base, k)
  {}

  // ----- departures ---------------------------------------------------------------------------

  lemma SettleCurrent(x: HubState, rid: RID)
    requires rid in x.rooms
    ensures Current(x.sent, Settle(x, rid))
  {
    hide Current, Status, StateTo;
    if x.rooms[rid].byCID == map[] {
      CurrentStart(DropRoom(x, rid));
      CurrentStatus(x.sent, DropRoom(x, rid), rid);
    } else {
      CurrentStart(x);
      CurrentState(x.sent, x, rid, x.rooms[rid].byClient.Keys);
      CurrentStatus(x.sent, BroadcastState(x, rid), rid);
    }
  }

  lemma TakeOutCurrent(h: HubState, rid: RID, cid: CID, pick: CID)
    requires rid in h.rooms && cid in h.rooms[rid].byCID
    ensures Current(h.sent, Settle(TakeOut(h, rid, cid, pick), rid))
  {
    hide Current, Settle, Remove;
    SettleCurrent(TakeOut(h, rid, cid, pick), rid);
  }

  lemma CleanCurrent(h: HubState, rid: RID, cid: CID, pick: CID, c: ClientId)
    requires rid in h.rooms && cid in h.rooms[rid].byCID
    ensures
      var x := Deregister(TakeOut(h, rid, cid, pick), c);
      rid in x.rooms && Current(h.sent, Settle(x, rid))
  {
    hide Current, Settle, Remove, Deregister;
    DeregisterFields(TakeOut(h, rid, cid, pick), c);
    SettleCurrent(Deregister(TakeOut(h, rid, cid, pick), c), rid);
  }

  lemma LeaveCurrent(h: HubState, c: ClientId, pick: CID)
    ensures Current(h.sent, LeaveRoom(h, c, pick))
  {
    hide Current, Settle, TakeOut;
    CurrentStart(h);
    var rid, cid := Info(h, c).rid, Info(h, c).cid;
    if rid in h.rooms && AttachedTo(h.rooms[rid], cid, c) {
      TakeOutCurrent(h, rid, cid, pick);
    }
  }

  lemma ExpiredCurrent(h: HubState, rid: RID, cid: CID, pick: CID)
    ensures Current(h.sent, EvictExpired(h, rid, cid, pick))
  {
    hide Current, Settle, TakeOut;
    CurrentStart(h);
    if rid in h.rooms && Suspended(h.rooms[rid], cid) {
      TakeOutCurrent(h, rid, cid, pick);
    }
  }

  lemma HttpLeaveCurrent(h: HubState, rid: RID, cid: CID, pick: CID)
    ensures Current(h.sent, EvictByLeave(h, rid, cid, pick))
  {
    hide Current, Settle, TakeOut, Deregister;
    CurrentStart(h);
    if rid in h.rooms && cid in h.rooms[rid].byCID {
      match h.rooms[rid].byCID[cid].client
      case None => TakeOutCurrent(h, rid, cid, pick);
      case Some(c) => CleanCurrent(h, rid, cid, pick, c);
    }
  }

  lemma EvictionCurrent(h: HubState, rid: RID, id: nat, cid: CID, pick: CID)
    ensures Current(h.sent, EvictionFires(h, rid, id, cid, pick))
  {
    hide Current, Settle, TakeOut, Defer;
    CurrentStart(h);
    if rid in h.rooms && Suspended(h.rooms[rid], cid) {
      TakeOutCurrent(h, rid, cid, pick);
      CurrentStart(PutRoom(h, rid, Defer(h.rooms[rid], cid, h.now)));
    }
  }

  lemma IdleCurrent(h: HubState, rid: RID, id: nat)
    ensures Current(h.sent, IdleFires(h, rid, id))
  {
    hide Current, Status;
    CurrentStart(h);
    if rid in h.rooms {
      CurrentStart(PutRoom(h, rid, h.rooms[rid].(idleAt := None)));
      CurrentStart(DropRoom(h, rid));
      CurrentStatus(h.sent, DropRoom(h, rid), rid);
    }
  }

  lemma DropCurrent(h: HubState, c: ClientId)
    ensures Current(h.sent, Disconnect(h, c))
  {
    hide Current, Status, StateTo, Suspend, Deregister;
    CurrentStart(h);
    if c in h.clients {
      var rid, d := Info(h, c).rid, Deregister(h, c);
      DeregisterFields(h, c);
      CurrentStart(d);
      if rid in d.rooms && AttachedTo(d.rooms[rid], Info(d, c).cid, c) {
        var s := PutRoom(d, rid, Suspend(d.rooms[rid], Info(d, c).cid, d.now));
        CurrentStart(s);
        CurrentStatus(h.sent, s, rid);
        CurrentState(h.sent, s, rid, s.rooms[rid].byClient.Keys);
        CurrentStatus(h.sent, BroadcastState(s, rid), rid);
      }
    }
  }

  // ----- join -------------------------------------------------------------------------------------

  lemma AdmitCurrent(x: HubState, c: ClientId, rid: RID, r: RoomState, cid: CID, outcome: Outcome)
    ensures Current(x.sent, Admit(x, c, rid, r, cid, outcome))
  {
    hide Current, Status, Complete, Snap, Send, TransportsOf, StateTo;
    var done, partners := Complete(r, cid), DirtyPartners(r.dirty, cid);
    var h1 := PutRoom(x, rid, done).(tombstones := x.tombstones - {rid});
    CurrentStart(h1);
    var h2 := Send(h1, {c}, Joined(rid, done.id, Snap(done), cid, outcome));
    CurrentSend(x.sent, h1, {c}, Joined(rid, done.id, Snap(done), cid, outcome));
    CurrentState(x.sent, h2, rid, {c});
    var t := StateTo(h2, rid, {c});
    CurrentState(x.sent, t, rid, t.rooms[rid].byClient.Keys);
    var h3 := BroadcastState(t, rid);
    CurrentSend(x.sent, h3, TransportsOf(done, partners), NegotiationDirty(cid));
    var h4 := if partners != {} then Send(h3, TransportsOf(done, partners), NegotiationDirty(cid)) else h3;
    CurrentStatus(x.sent, h4, rid);
  }

  lemma ExistingCurrent(h: HubState, c: ClientId, req: JoinRequest)
    requires req.rid in h.rooms && req.reconnectCid in h.rooms[req.rid].byCID
    ensures Current(h.sent, JoinExisting(h, c, req))
  {
    hide Current, Admit, TakeSlot, Park, EvictGhost, StateTo, SendError, Claim;
    var rid, cid, r := req.rid, req.reconnectCid, h.rooms[req.rid];
    var former, taken, claimed := r.byCID[cid].client, TakeSlot(r, cid, c), Claim(h, c, cid, rid);
    TakenClients(r, cid, c);
    ClaimFields(h, c, cid, rid);
    if ClientMax(req) < r.maxParticipants {
      var parked := PutRoom(claimed, rid, Park(taken, cid, h.now));
      var back := EvictGhost(parked, former);
      GhostRooms(parked, former);
      CurrentStart(back);
      CurrentError(h.sent, back, c, RoomCapacityUnsupported);
      CurrentState(h.sent, back, rid, back.rooms[rid].byClient.Keys);
      CurrentError(h.sent, BroadcastState(back, rid), c, RoomCapacityUnsupported);
    } else {
      GhostRooms(PutRoom(claimed, rid, taken), former);
      AdmitCurrent(EvictGhost(PutRoom(claimed, rid, taken), former), c, rid, taken, cid, Reattached);
    }
  }

  lemma NewcomerCurrent(h: HubState, c: ClientId, req: JoinRequest, newCid: CID)
    requires req.rid in h.rooms
    requires req.reconnectCid != NO_CID ==> req.reconnectCid !in h.rooms[req.rid].byCID
    ensures Current(h.sent, JoinNew(h, c, req, newCid))
  {
    hide Current, Admit, Attach, SendError, Met, JoinNew, FateOf, Claim;
    NewcomerIs(h, c, req, newCid);
    var rid, r := req.rid, Met(h.rooms[req.rid], ClientMax(req));
    var cid := if Proven(req) then req.reconnectCid else newCid;
    var put := PutRoom(h, rid, r);
    CurrentStart(put);
    CurrentError(h.sent, put, c, if ClientMax(req) < r.maxParticipants then RoomCapacityUnsupported else RoomFull);
    ClaimFields(put, c, cid, rid);
    AdmitCurrent(Claim(put, c, cid, rid), c, rid, Attach(r, cid, c, req.capability), cid,
                 if Proven(req) then Recovered else Fresh);
  }

  lemma JoinRoomCurrent(h: HubState, c: ClientId, req: JoinRequest, newCid: CID)
    requires h.limit >= 2
    ensures Current(h.sent, JoinRoom(h, c, req, newCid))
  {
    hide Current, JoinExisting, JoinNew, Admit, Attach, Claim, CreateMax;
    if req.rid !in h.rooms {
      FoundingIs(h, c, req, newCid);
      hide JoinRoom;
      var n, cid := NewRoom(h.nextRoom, CreateMax(req, h.limit)), if Proven(req) then req.reconnectCid else newCid;
      var put := PutRoom(h.(nextRoom := h.nextRoom + 1), req.rid, n);
      ClaimFields(put, c, cid, req.rid);
      AdmitCurrent(Claim(put, c, cid, req.rid), c, req.rid, Attach(n, cid, c, req.capability), cid,
                   if Proven(req) then Recovered else Fresh);
    } else if req.reconnectCid != NO_CID && req.reconnectCid in h.rooms[req.rid].byCID {
      ExistingCurrent(h, c, req);
    } else {
      NewcomerCurrent(h, c, req, newCid);
    }
  }

  lemma HandleJoinCurrent(h: HubState, c: ClientId, req: JoinRequest, newCid: CID, pick: CID)
    requires h.limit >= 2
    ensures Current(h.sent, HandleJoin(h, c, req, newCid, pick))
  {
    hide Current, JoinRoom, EvictExpired, SendError, SweepTombstone, TombstoneActive;
    CurrentStart(h);
    forall code
      ensures Current(h.sent, SendError(h, c, code))
    {
      CurrentError(h.sent, h, c, code);
    }
    ExpiredCurrent(h, req.rid, req.reconnectCid, pick);
    CurrentError(h.sent, EvictExpired(h, req.rid, req.reconnectCid, pick), c, InvalidReconnectToken);
    JoinRoomCurrent(h, c, req, newCid);
    SweepSent(h, req.rid);
    JoinRoomCurrent(SweepTombstone(h, req.rid), c, req, newCid);
  }

  lemma SweepSent(h: HubState, rid: RID)
    ensures SweepTombstone(h, rid).sent == h.sent && SweepTombstone(h, rid).limit == h.limit
  {}

  lemma JoinOrdered(h: HubState, c: ClientId, req: JoinRequest, newCid: CID, pick: CID, pick2: CID)
    requires Core(h) && Ordered(h) && c in h.clients && newCid != NO_CID
    requires req.rid in h.rooms ==> newCid !in h.rooms[req.rid].byCID
    ensures Ordered(JoinMessage(h, c, req, newCid, pick, pick2))
  {
    hide Core, Ordered, Current, HubGrows, HubQuiet, Unattached, LeaveRoom, HandleJoin, JoinMessage;
    var l := AfterLeave(h, c, pick);
    LeavingFirst(h, c, pick);
    QuietGrows(h, l);
    LeaveCurrent(h, c, pick);
    CurrentStart(h);
    StepOrdered(h, l);
    LeavesFirst(h, c, req, newCid, pick, pick2);
    if req.rid in l.rooms {
      QuietMembers(h, l, req.rid);
    }
    hide AfterLeave;
    Agreed(l);
    HandleJoinGrows(l, c, req, newCid, pick2);
    HandleJoinKeeps(l, c, req, newCid, pick2);
    HandleJoinCurrent(l, c, req, newCid, pick2);
    StepOrdered(l, HandleJoin(l, c, req, newCid, pick2));
  }

  // ----- the other messages ---------------------------------------------------------------------------

  lemma EndCurrent(h: HubState, c: ClientId)
    ensures Current(h.sent, EndRoom(h, c))
  {
    hide Current, Status, GcTombstones;
    CurrentStart(h);
    CurrentError(h.sent, h, c, NotHost);
    var rid := Info(h, c).rid;
    if rid in h.rooms {
      var told := Send(h, h.rooms[rid].byClient.Keys, RoomEnded(rid));
      var buried := GcTombstones(h.tombstones[rid := h.now + ROOM_TOMBSTONE_TTL], h.now);
      var gone := DropRoom(told.(tombstones := buried), rid);
      CurrentBare(h.sent, gone);
      CurrentStatus(h.sent, gone, rid);
    }
  }

  lemma RelayCurrent(h: HubState, c: ClientId, kind: Kind, to: CID)
    ensures Current(h.sent, RelayMessage(h, c, kind, to))
  {
    hide Current, MarkMissed, TransportsOf, Audience, SuspendedAudience;
    CurrentStart(h);
    CurrentBare(h.sent, RelayMessage(h, c, kind, to));
  }

  lemma {:induction false} EvictAllOrdered(h: HubState, rid: RID, id: nat, order: seq<CID>, picks: seq<CID>)
    requires Core(h) && Ordered(h) && |picks| == |order|
    ensures Ordered(EvictAll(h, rid, id, order, picks))
    decreases |order|
  {
    hide Core, Ordered, Current, HubGrows, HubQuiet, EvictionFires;
    if order != [] {
      var k := EvictionFires(h, rid, id, order[0], picks[0]);
      EvictionFiresKeeps(h, rid, id, order[0], picks[0]);
      EvictionFiresQuiet(h, rid, id, order[0], picks[0]);
      QuietGrows(h, k);
      EvictionCurrent(h, rid, id, order[0], picks[0]);
      StepOrdered(h, k);
      EvictAllOrdered(k, rid, id, order[1..], picks[1..]);
    }
  }

  lemma LivenessOrdered(h: HubState, c: ClientId, reports: seq<CID>, order: seq<CID>, picks: seq<CID>)
    requires Core(h) && Ordered(h) && |picks| == |order|
    ensures Ordered(LivenessMessage(h, c, reports, order, picks))
  {
    hide Core, Ordered, Current, Quiet, HubGrows, EvictAll, Fits, RoomInv;
    if LivenessAccepted(h, c) {
      var rid, r := Info(h, c).rid, Reported(h, c, reports);
      ReportQuiet(h.rooms[rid], h.rooms[rid].byClient[c], reports, h.now / MILLISECOND);
      hide Reported;
      QuietPut(h, rid, r);
      QuietGrows(h, PutRoom(h, rid, r));
      ReportFits(h, c, reports);
      RoomOf(h, rid);
      PutKeeps(h, rid, r);
      CurrentStart(PutRoom(h, rid, r));
      StepOrdered(h, PutRoom(h, rid, r));
      EvictAllOrdered(PutRoom(h, rid, r), rid, r.id, order, picks);
    }
  }

  /** The transport events send no payloads, but for the broadcast after a drop. */
  lemma TransportCurrent(h: HubState, e: Event)
    requires e.WsConnect? || e.SseConnect? || e.SseTakeover? || e.SseAbandon? || e.Drop? || e.WatchEvent?
    ensures Current(h.sent, Handle(h, e))
  {
    hide Current, Disconnect, SwapTransport, Watch;
    CurrentStart(h);
    if e.Drop? {
      DropCurrent(h, e.c);
    } else {
      CurrentBare(h.sent, Handle(h, e));
    }
  }

  lemma OtherCurrent(h: HubState, e: Event)
    requires e.Leave? || e.End? || e.RelayEvent? || e.HttpLeave? || e.EvictTimer? || e.IdleTimer?
    ensures Current(h.sent, Handle(h, e))
  {
    hide Current, LeaveRoom, EndRoom, RelayMessage, EvictByLeave, EvictionFires, IdleFires;
    CurrentStart(h);
    match e
    case Leave(c, pick) => LeaveCurrent(h, c, pick);
    case End(c) => EndCurrent(h, c);
    case RelayEvent(c, kind, to) => RelayCurrent(h, c, kind, to);
    case HttpLeave(rid, cid, pick) => HttpLeaveCurrent(h, rid, cid, pick);
    case EvictTimer(rid, id, cid, pick) => EvictionCurrent(h, rid, id, cid, pick);
    case IdleTimer(rid, id) => IdleCurrent(h, rid, id);
  }

  // ----- all runs ---------------------------------------------------------------------------------------

  lemma ClockOrdered(h: HubState, at: int)
    requires Ordered(h)
    ensures Ordered(h.(now := at))
  {}

  lemma StepKeepsOrder(h: HubState, e: Event, at: int)
    requires Core(h) && Ordered(h) && Enabled(h, e, at)
    ensures Ordered(Step(h, e, at))
  {
    hide Core, Ordered, Current, HubGrows, Enabled, Handle, HubQuiet;
    var n := h.(now := at);
    Promised(h, e, at);
    ClockKeeps(h, at);
    ClockOrdered(h, at);
    if e.Join? || e.Liveness? {
      MessageOrdered(n, e);
    } else {
      StepKeeps(h, e, at);
      StepQuiet(h, e, at);
      QuietGrows(n, Step(h, e, at));
      if e.WsConnect? || e.SseConnect? || e.SseTakeover? || e.SseAbandon? || e.Drop? || e.WatchEvent? {
        TransportCurrent(n, e);
      } else {
        OtherCurrent(n, e);
      }
      StepOrdered(n, Step(h, e, at));
    }
  }

  lemma MessageOrdered(h: HubState, e: Event)
    requires Core(h) && Ordered(h) && (e.Join? || e.Liveness?)
    requires e.Join? ==> e.newCid != NO_CID && (e.req.rid in h.rooms ==> e.newCid !in h.rooms[e.req.rid].byCID)
    requires e.Liveness? ==> |e.picks| == |e.order|
    ensures Ordered(Handle(h, e))
  {
    hide Core, Ordered, JoinMessage, LivenessMessage;
    match e
    case Join(c, req, newCid, pick, pick2) =>
      if c in h.clients { JoinOrdered(h, c, req, newCid, pick, pick2); }
    case Liveness(c, reports, order, picks) => LivenessOrdered(h, c, reports, order, picks);
  }

  lemma {:induction false} RunOrdered(h: HubState, events: seq<(Event, int)>)
    requires Core(h) && Ordered(h) && Run(h, events)
    ensures Ordered(After(h, events))
    decreases |events|
  {
    hide Core, Ordered, Step, Enabled;
    if events != [] {
      StepKeeps(h, events[0].0, events[0].1);
      StepKeepsOrder(h, events[0].0, events[0].1);
      RunOrdered(Step(h, events[0].0, events[0].1), events[1..]);
    }
  }

  /** Of any two payloads of one room ever sent, the later one has the larger epoch,
      or an equal one and the same members, host and capacity. */
  lemma PayloadsAgree(h: HubState, limit: int, i: nat, j: nat, rid: RID, id: nat)
    requires Reachable(h, limit) && i <= j < |h.sent|
    requires Carries(h.sent[i], rid, id) && Carries(h.sent[j], rid, id)
    ensures
      var a, b := h.sent[i].body.snapshot, h.sent[j].body.snapshot;
      && a.epoch <= b.epoch
      && (a.epoch == b.epoch ==> a.host == b.host && a.maxParticipants == b.maxParticipants && a.members == b.members)
  {
    hide Core, Run, After;
    var events: seq<(Event, int)> :| Run(Init(limit), events) && h == After(Init(limit), events);
    InitKeeps(limit);
    RunOrdered(Init(limit), events);
  }
}
