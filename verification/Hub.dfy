/** The hub object of the signaling server.  Every handler and timer callback is
    proved against the function of the same step in HubSpec. */
module SignalingHub {
  import opened Wrappers
  import opened SignalingTypes
  import opened RoomSpec
  import opened HubSpec
  import opened SignalingRoom

  /** The messages a transport can send; `newCid` is what generateID would return. */
  datatype ClientMessage =
    | JoinMsg(req: JoinRequest, newCid: CID)
    | LeaveMsg
    | EndRoomMsg
    | RelayMsg(kind: Kind, to: CID)
    | MediaLivenessMsg(reports: seq<CID>)
    | WatchRoomsMsg(requested: seq<RID>, validates: RID -> bool)

  /** Generated participant identifiers are new to the room. */
  predicate Generated(h: HubState, m: ClientMessage) {
    m.JoinMsg? ==> m.newCid != NO_CID && (m.req.rid in h.rooms ==> m.newCid !in h.rooms[m.req.rid].byCID)
  }

  /** What else happens to the hub: transports come and go, a page posts its leave, and
      timers fire that hold the room object they were armed for. */
  datatype Occurrence =
    | Connected(c: ClientId, sid: SID)
    | StreamOpened(c: ClientId, sid: SID)
    | TakeoverAuthorized(sid: SID)
    | StreamAbandoned(c: ClientId)
    | Dropped(c: ClientId)
    | LeavePosted(rid: RID, cid: CID)
    | EvictionTimerFired(room: Room, cid: CID)
    | IdleTimerFired(room: Room)

  /** The event is the handling of message `m` of transport `c`. */
  predicate Handles(c: ClientId, m: ClientMessage, e: Event) {
    match m
    case JoinMsg(req, newCid) => e.Join? && e.c == c && e.req == req && e.newCid == newCid
    case LeaveMsg => e.Leave? && e.c == c
    case EndRoomMsg => e == End(c)
    case RelayMsg(kind, to) => e == RelayEvent(c, kind, to)
    case MediaLivenessMsg(reports) => e.Liveness? && e.c == c && e.reports == reports
    case WatchRoomsMsg(requested, validates) => e == WatchEvent(c, Requested(requested, validates))
  }

  /** The event is this occurrence; a timer is that of the room object it holds. */
  ghost predicate Realizes(o: Occurrence, e: Event) {
    match o
    case Connected(c, sid) => e == WsConnect(c, sid)
    case StreamOpened(c, sid) => e == SseConnect(c, sid)
    case TakeoverAuthorized(sid) => e == SseTakeover(sid)
    case StreamAbandoned(c) => e == SseAbandon(c)
    case Dropped(c) => e == Drop(c)
    case LeavePosted(rid, cid) => e.HttpLeave? && e.rid == rid && e.cid == cid
    case EvictionTimerFired(room, cid) => e.EvictTimer? && e.rid == room.rid && e.id == room.id && e.cid == cid
    case IdleTimerFired(room) => e == IdleTimer(room.rid, room.id)
  }

  datatype PostAnswer = Gone | Unauthorized | Handled(c: ClientId, tookOver: bool)

  /** The checks of handleSSEPost, and whose message it is. */
  function AnswerOf(h: HubState, sid: SID, m: ClientMessage): PostAnswer {
    if sid !in h.bySID && sid !in h.pending then Gone
    else if sid !in h.pending then Handled(h.bySID[sid], false)
    else if sid !in h.bySID then Handled(h.pending[sid], false)
    else if m.JoinMsg? && Proven(m.req) then Handled(h.pending[sid], true)
    else Unauthorized
  }

  class Hub {
    const limit: int
    var now: int
    var rooms: map<RID, Room>
    var watchers: map<RID, set<ClientId>>
    var tombstones: map<RID, int>
    var clients: set<ClientId>
    var bySID: map<SID, ClientId>
    var pending: map<SID, ClientId>
    var info: map<ClientId, ClientInfo>
    ghost var made: set<Room>
    ghost var nextRoom: nat
    ghost var sent: seq<Sent>

    ghost function Views(): map<RID, RoomState>
      reads this`rooms, rooms.Values
    {
      map rid | rid in rooms :: rooms[rid].View()
    }

    ghost function View(): HubState
      reads this, rooms.Values
    {
      HubState(now, limit, Views(), watchers, tombstones, clients, bySID, pending, info, nextRoom, sent)
    }

    /** Rooms are filed under their own identifier; of all rooms ever made, no two
        have the same number. */
    ghost predicate Valid()
      reads this`rooms, this`made, this`nextRoom
    {
      && rooms.Values <= made
      && (forall rid :: rid in rooms ==> rooms[rid].rid == rid)
      && (forall r :: r in made ==> r.id < nextRoom)
      && (forall r, s :: r in made && s in made && r.id == s.id ==> r == s)
    }

    constructor (maxParticipantsLimit: int)
      ensures Valid() && fresh(rooms.Values) && View() == Init(maxParticipantsLimit)
    {
      limit := if maxParticipantsLimit < 2 then 2 else maxParticipantsLimit;
      now := 1;
      rooms, watchers, tombstones, clients, bySID, pending, info := map[], map[], map[], {}, map[], map[], map[];
      made, nextRoom, sent := {}, 0, [];
    }

    function ClientOf(c: ClientId): ClientInfo
      reads this`info
    {
      if c in info then info[c] else ClientInfo(SID(""), NO_CID, NO_RID, false)
    }

    // ----- sending -----------------------------------------------------------------------

    method SendMessage(to: set<ClientId>, ghost body: Body)
      modifies this`sent
      ensures View() == Send(old(View()), to, body)
    {
      hide Views;
      sent := sent + [Sent(to, body)];
    }

    method ReportError(c: ClientId, code: ErrorCode)
      modifies this`sent
      ensures View() == SendError(old(View()), c, code)
    {
      SendMessage({c}, Error(code));
    }

    method BroadcastRoomState(room: Room)
      requires room.rid in rooms && rooms[room.rid] == room
      modifies this`sent
      ensures View() == BroadcastState(old(View()), room.rid)
    {
      SendMessage(room.byClient.Keys, RoomStateMsg(room.rid, room.id, Snap(room.View())));
    }

    method SendRoomStateSnapshot(c: ClientId, room: Room)
      requires room.rid in rooms && rooms[room.rid] == room
      modifies this`sent
      ensures View() == StateTo(old(View()), room.rid, {c})
    {
      SendMessage({c}, RoomStateMsg(room.rid, room.id, Snap(room.View())));
    }

    method BroadcastRoomStatusUpdate(rid: RID)
      modifies this`sent
      ensures View() == Status(old(View()), rid)
    {
      if rid !in watchers {
        return;
      }
      var count := 0;
      if rid in rooms {
        count := |rooms[rid].byCID|;
      }
      SendMessage(watchers[rid], StatusUpdate(rid, count));
    }

    // ----- transports --------------------------------------------------------------------

    /** Drops the subscriptions of `c`, and every room that nobody watches any more. */
    method DropSubscriptions(c: ClientId)
      modifies this`watchers
      ensures watchers == Unwatch(old(watchers), c)
    {
      var was, rest := watchers, watchers.Keys;
      while rest != {}
        invariant rest <= was.Keys
        invariant forall rid :: rid in watchers <==> rid in was && (rid in rest || was[rid] - {c} != {})
        invariant forall rid :: rid in watchers ==> watchers[rid] == if rid in rest then was[rid] else was[rid] - {c}
      {
        var rid :| rid in rest;
        rest := rest - {rid};
        watchers := watchers[rid := watchers[rid] - {c}];
        if watchers[rid] == {} {
          watchers := watchers - {rid};
        }
      }
    }

    method CleanupEvictedClient(c: ClientId)
      modifies this`clients, this`bySID, this`watchers
      ensures View() == Deregister(old(View()), c)
    {
      hide Views, Unwatch;
      clients := clients - {c};
      bySID := bySID - {ClientOf(c).sid};
      DropSubscriptions(c);
    }

    method RegisterClient(c: ClientId, sid: SID)
      modifies this`info, this`clients, this`bySID
      ensures View() == Register(old(View()), c, sid)
    {
      hide Views;
      info := info[c := ClientInfo(sid, NO_CID, NO_RID, false)];
      clients := clients + {c};
      bySID := bySID[sid := c];
    }

    // ----- departures --------------------------------------------------------------------

    method DeleteRoom(rid: RID)
      requires Valid()
      modifies this`rooms
      ensures Valid() && rooms == old(rooms) - {rid}
      ensures View() == DropRoom(old(View()), rid)
    {
      rooms := rooms - {rid};
      assert Views() == old(Views()) - {rid};
    }

    /** One room object changed, and nothing else. */
    twostate lemma RoomTouched(room: Room)
      requires old(Valid()) && unchanged(this) && room.rid in rooms && rooms[room.rid] == room
      requires forall r :: r in rooms.Values && r != room ==> unchanged(r)
      ensures Valid() && View() == PutRoom(old(View()), room.rid, room.View())
    {
      ViewsTouched(room);
      hide Views;
    }

    twostate lemma ViewsTouched(room: Room)
      requires old(Valid()) && unchanged(`rooms) && room.rid in rooms && rooms[room.rid] == room
      requires forall r :: r in rooms.Values && r != room ==> unchanged(r)
      ensures Views() == old(Views())[room.rid := room.View()]
    {
      forall rid | rid in rooms && rid != room.rid
        ensures rooms[rid].View() == old(rooms[rid].View())
      {
        assert rooms[rid] in rooms.Values && rooms[rid] != room;
      }
    }

    /** What follows a removal: an empty room is deleted, the members of another are told. */
    method SettleRoom(room: Room)
      requires Valid() && room.rid in rooms && rooms[room.rid] == room
      modifies this`sent, this`rooms
      ensures Valid() && rooms.Values <= old(rooms.Values)
      ensures View() == Settle(old(View()), room.rid)
    {
      hide Status, BroadcastState, DropRoom, Valid;
      assert View().rooms[room.rid] == room.View();
      hide Views;
      if room.byCID.Keys == {} {
        DeleteRoom(room.rid);
      } else {
        BroadcastRoomState(room);
      }
      BroadcastRoomStatusUpdate(room.rid);
    }

    /** removeClientFromRoom */
    method RemoveClientFromRoom(c: ClientId) returns (ghost pick: CID)
      requires Valid()
      modifies this`sent, this`rooms, rooms.Values
      ensures Valid() && rooms.Values <= old(rooms.Values)
      ensures View() == LeaveRoom(old(View()), c, pick)
    {
      hide Remove, Settle, PutRoom;
      pick := NO_CID;
      var rid, cid := ClientOf(c).rid, ClientOf(c).cid;
      if rid !in rooms {
        return;
      }
      var room := rooms[rid];
      if cid !in room.byCID || room.byCID[cid].client != Some(c) {
        return;
      }
      var former;
      former, pick := room.Depart(cid, now);
      RoomTouched(room);
      SettleRoom(room);
    }

    /** evictSuspendedParticipantForExpiredReconnect */
    method EvictExpiredReconnect(rid: RID, cid: CID) returns (ghost pick: CID)
      requires Valid()
      modifies this`sent, this`rooms, rooms.Values
      ensures Valid() && rooms.Values <= old(rooms.Values)
      ensures View() == EvictExpired(old(View()), rid, cid, pick)
    {
      hide Remove, Settle, PutRoom;
      pick := NO_CID;
      if rid == NO_RID || cid == NO_CID || rid !in rooms {
        return;
      }
      var room := rooms[rid];
      if cid !in room.byCID || room.byCID[cid].client.Some? {
        return;
      }
      var former;
      former, pick := room.Depart(cid, now);
      RoomTouched(room);
      SettleRoom(room);
    }

    /** evictByLeave: the transport of the record, if any, is cleaned up as well. */
    method EvictLeaver(rid: RID, cid: CID) returns (ghost pick: CID)
      requires Valid()
      modifies this`sent, this`rooms, this`clients, this`bySID, this`watchers, rooms.Values
      ensures Valid() && rooms.Values <= old(rooms.Values)
      ensures View() == EvictByLeave(old(View()), rid, cid, pick)
    {
      hide Remove, Settle, PutRoom, Deregister, Views;
      pick := NO_CID;
      assert View().rooms.Keys == rooms.Keys && (rid in rooms ==> View().rooms[rid] == rooms[rid].View()) by {
        ViewsHold(rid);
      }
      if rid !in rooms {
        return;
      }
      var room := rooms[rid];
      if cid !in room.byCID {
        return;
      }
      var attached;
      attached, pick := room.Depart(cid, now);
      RoomTouched(room);
      if attached.Some? {
        CleanupEvictedClient(attached.value);
      }
      SettleRoom(room);
    }

    lemma ViewsHold(rid: RID)
      ensures Views().Keys == rooms.Keys && (rid in rooms ==> Views()[rid] == rooms[rid].View())
    {}

    /** hardEvictSuspended: the timer holds the room object it was armed for. */
    method HardEvictSuspended(room: Room, cid: CID) returns (ghost pick: CID)
      requires Valid() && room in made
      modifies this`sent, this`rooms, rooms.Values
      ensures Valid() && rooms.Values <= old(rooms.Values)
      ensures View() == EvictionFires(old(View()), room.rid, room.id, cid, pick)
    {
      hide Remove, Settle, PutRoom, Defer, RecentMedia;
      pick := NO_CID;
      if room.rid !in rooms || rooms[room.rid] != room {
        return;
      }
      if cid !in room.byCID || room.byCID[cid].client.Some? {
        return;
      }
      var recent := room.HasRecentMediaLiveness(cid, now);
      if recent {
        room.ArmHardEviction(cid, now + HARD_EVICT_MEDIA_ACTIVE_DEFERRAL);
        RoomTouched(room);
        assert room.View() == Defer(old(room.View()), cid, now) by { DeferIs(old(room.View()), cid, now); }
        return;
      }
      var former;
      former, pick := room.Depart(cid, now);
      RoomTouched(room);
      SettleRoom(room);
    }

    /** cleanupRoomIfNoActive, run by the no-active timer of the room object. */
    method CleanupRoomIfNoActive(room: Room)
      requires Valid() && room in made
      modifies this`sent, this`rooms, rooms.Values
      ensures Valid() && rooms.Values <= old(rooms.Values)
      ensures View() == IdleFires(old(View()), room.rid, room.id)
    {
      hide Views, Status, PutRoom, DropRoom;
      ViewsHold(room.rid);
      if room.rid !in rooms || rooms[room.rid] != room {
        return;
      }
      if room.byClient.Keys != {} {
        room.CancelNoActiveTimer();
        RoomTouched(room);
        return;
      }
      DiscardRoom(room);
      BroadcastRoomStatusUpdate(room.rid);
    }

    /** suspendClientInRoom */
    method SuspendClientInRoom(c: ClientId)
      requires Valid()
      modifies this`sent, rooms.Values
      ensures Valid()
      ensures View() == SuspendInRoom(old(View()), c)
    {
      hide Status, BroadcastState, PutRoom, Suspend, Views;
      var rid, cid := ClientOf(c).rid, ClientOf(c).cid;
      ViewsHold(rid);
      if rid == NO_RID || cid == NO_CID || rid !in rooms {
        return;
      }
      var room := rooms[rid];
      if cid !in room.byCID || room.byCID[cid].client != Some(c) {
        return;
      }
      room.SuspendParticipant(cid, now);
      RoomTouched(room);
      ViewsHold(rid);
      if room.byClient.Keys != {} {
        BroadcastRoomState(room);
      }
      BroadcastRoomStatusUpdate(rid);
    }

    method DisconnectClient(c: ClientId)
      requires Valid()
      modifies this`sent, this`clients, this`bySID, this`watchers, rooms.Values
      ensures Valid()
      ensures View() == Disconnect(old(View()), c)
    {
      hide Views, SuspendInRoom, Deregister;
      if c !in clients {
        return;
      }
      CleanupEvictedClient(c);
      SuspendClientInRoom(c);
    }

    // ----- takeovers ------------------------------------------------------------------------

    /** Hands the subscriptions of `prev` to `next`. */
    method PassSubscriptions(prev: ClientId, next: ClientId)
      modifies this`watchers
      ensures watchers == Rewatch(old(watchers), prev, next)
    {
      var was, rest := watchers, watchers.Keys;
      while rest != {}
        invariant rest <= was.Keys && watchers.Keys == was.Keys
        invariant forall rid :: rid in watchers ==>
                    watchers[rid] == if rid !in rest && prev in was[rid] then was[rid] - {prev} + {next} else was[rid]
      {
        var rid :| rid in rest;
        rest := rest - {rid};
        if prev in watchers[rid] {
          watchers := watchers[rid := watchers[rid] - {prev} + {next}];
        }
      }
    }

    /** The registration and the subscriptions of `prev` go to `next`. */
    method PassRegistration(prev: ClientId, next: ClientId)
      modifies this`sent, this`clients, this`bySID, this`watchers
      ensures View() == old(View()).(
        clients := old(clients) - {prev} + {next},
        bySID := old(bySID)[old(ClientOf(next)).sid := next],
        watchers := Rewatch(old(watchers), prev, next),
        sent := old(sent) + [TookOver(prev, next)])
    {
      hide Views, Rewatch;
      clients := clients - {prev} + {next};
      bySID := bySID[ClientOf(next).sid := next];
      PassSubscriptions(prev, next);
      sent := sent + [TookOver(prev, next)];
    }

    /** The room record of `prev`, if it has one, goes to `next`. */
    method PassAttachment(prev: ClientId, next: ClientId)
      requires Valid()
      modifies this`info, rooms.Values
      ensures Valid()
      ensures
        var h, rid := old(View()), old(ClientOf(prev)).rid;
        View() == if rid != NO_RID && rid in h.rooms && prev in h.rooms[rid].byClient
                  then PutRoom(h, rid, SwapTransport(h.rooms[rid], prev, next))
                       .(info := h.info[next := Info(h, next).(cid := h.rooms[rid].byClient[prev], rid := rid)])
                  else h
    {
      hide Views, SwapTransport;
      var rid := ClientOf(prev).rid;
      ViewsHold(rid);
      if rid == NO_RID || rid !in rooms || prev !in rooms[rid].byClient {
        return;
      }
      var room := rooms[rid];
      var cid := room.ReplaceTransport(prev, next);
      RoomTouched(room);
      info := info[next := ClientOf(next).(cid := cid, rid := rid)];
    }

    /** replaceClient */
    method ReplaceClient(prev: ClientId, next: ClientId)
      requires Valid()
      modifies this`sent, this`clients, this`bySID, this`watchers, this`info, rooms.Values
      ensures Valid()
      ensures View() == Replace(old(View()), prev, next)
    {
      hide Views, SwapTransport, Rewatch, PutRoom;
      PassRegistration(prev, next);
      PassAttachment(prev, next);
      info := info[prev := ClientOf(prev).(replaced := true)];
    }

    /** A GET on the event stream: a session with a room waits for authority, one
        without is taken over at once. */
    method OpenEventStream(c: ClientId, sid: SID)
      requires Valid() && c !in info
      modifies this`sent, this`clients, this`bySID, this`watchers, this`info, this`pending, rooms.Values
      ensures Valid()
      ensures View() == ServeSSE(old(View()), c, sid)
    {
      hide Views, Replace;
      if sid in bySID {
        var existing := bySID[sid];
        info := info[c := ClientInfo(sid, NO_CID, NO_RID, false)];
        if ClientOf(existing).rid != NO_RID {
          pending := pending[sid := c];
        } else {
          ReplaceClient(existing, c);
        }
      } else {
        RegisterClient(c, sid);
      }
    }

    /** The takeover of handleSSEPost, once the join it carries proved its authority. */
    method PromoteTakeover(sid: SID)
      requires Valid()
      modifies this`sent, this`clients, this`bySID, this`watchers, this`info, this`pending, rooms.Values
      ensures Valid()
      ensures View() == PromotePending(old(View()), sid)
    {
      hide Views, Replace;
      if sid in pending && sid in bySID {
        ReplaceClient(bySID[sid], pending[sid]);
        pending := pending - {sid};
      }
    }

    /** handleDisconnectSSE, as far as it acts at once. */
    method AbandonEventStream(c: ClientId)
      modifies this`clients, this`pending
      ensures View() == AbandonSSE(old(View()), c)
    {
      hide Views;
      if ClientOf(c).replaced {
        clients := clients - {c};
        return;
      }
      var sid := ClientOf(c).sid;
      if sid in pending && pending[sid] == c {
        pending := pending - {sid};
      }
    }

    // ----- tombstones -------------------------------------------------------------------------

    method RecordTombstone(rid: RID)
      modifies this`tombstones
      ensures tombstones == GcTombstones(old(tombstones)[rid := now + ROOM_TOMBSTONE_TTL], now)
    {
      tombstones := tombstones[rid := now + ROOM_TOMBSTONE_TTL];
      CollectTombstones();
    }

    method CollectTombstones()
      modifies this`tombstones
      ensures tombstones == GcTombstones(old(tombstones), now)
      ensures forall rid :: rid in tombstones <==> rid in old(tombstones) && now <= old(tombstones)[rid]
      ensures forall rid :: rid in tombstones ==> tombstones[rid] == old(tombstones)[rid]
    {
      var was, rest := tombstones, tombstones.Keys;
      while rest != {}
        invariant rest <= was.Keys
        invariant forall rid :: rid in tombstones <==> rid in was && (rid in rest || now <= was[rid])
        invariant forall rid :: rid in tombstones ==> tombstones[rid] == was[rid]
      {
        var rid :| rid in rest;
        rest := rest - {rid};
        if now > tombstones[rid] {
          tombstones := tombstones - {rid};
        }
      }
    }

    /** An expired tombstone is dropped when it is looked up. */
    method LookupTombstone(rid: RID) returns (active: bool)
      modifies this`tombstones
      ensures active <==> TombstoneActive(old(View()), rid)
      ensures View() == SweepTombstone(old(View()), rid)
    {
      hide Views;
      if rid !in tombstones {
        return false;
      }
      if now > tombstones[rid] {
        tombstones := tombstones - {rid};
        return false;
      }
      active := true;
    }

    // ----- messages in a room -------------------------------------------------------------------

    lemma RoomApart(room: Room)
      requires Valid() && room.rid in rooms && rooms[room.rid] == room
      ensures room !in (rooms - {room.rid}).Values
    {}

    /** The room leaves the hub, then lets go of its tables. */
    method DiscardRoom(room: Room)
      requires Valid() && room.rid in rooms && rooms[room.rid] == room
      modifies this`rooms, room
      ensures Valid() && rooms == old(rooms) - {room.rid}
      ensures View() == DropRoom(old(View()), room.rid)
    {
      hide Views, Valid, DropRoom;
      RoomApart(room);
      DeleteRoom(room.rid);
      room.Clear();
    }

    method HandleEndRoom(c: ClientId)
      requires Valid()
      modifies this`sent, this`tombstones, this`rooms, rooms.Values
      ensures Valid() && rooms.Values <= old(rooms.Values)
      ensures View() == EndRoom(old(View()), c)
    {
      hide Views, Status, GcTombstones, DropRoom, Send;
      var rid := ClientOf(c).rid;
      ViewsHold(rid);
      if rid == NO_RID || rid !in rooms {
        return;
      }
      var room := rooms[rid];
      if c !in room.byClient || room.host != room.byClient[c] {
        ReportError(c, NotHost);
        return;
      }
      var transports := room.byClient.Keys;
      SendMessage(transports, RoomEnded(rid));
      RecordTombstone(rid);
      DiscardRoom(room);
      BroadcastRoomStatusUpdate(rid);
    }

    method HandleRelay(c: ClientId, kind: Kind, to: CID)
      requires Valid()
      modifies this`sent, rooms.Values
      ensures Valid()
      ensures View() == RelayMessage(old(View()), c, kind, to)
    {
      hide Views, TransportsOf, Audience, SuspendedAudience, MarkMissed, Negotiates;
      var rid := ClientOf(c).rid;
      ViewsHold(rid);
      if rid == NO_RID || rid !in rooms || c !in rooms[rid].byClient {
        return;
      }
      var room := rooms[rid];
      var sender := room.byClient[c];
      var targets, missed := room.RouteMessage(sender, to, Negotiates(kind));
      RoomTouched(room);
      SendMessage(targets, Relay(sender, kind));
      if missed != {} {
        SendMessage({c}, RelayFailed(missed));
      }
    }

    /** The reports are recorded, then the ghosts they reveal are evicted one by one. */
    method HandleMediaLiveness(c: ClientId, reports: seq<CID>) returns (ghosts: seq<CID>, ghost picks: seq<CID>)
      requires Valid()
      modifies this`sent, this`rooms, rooms.Values
      ensures Valid() && rooms.Values <= old(rooms.Values)
      ensures |picks| == |ghosts| && Distinct(ghosts)
      ensures LivenessAccepted(old(View()), c) ==>
                SetOf(ghosts) == Ghosts(Reported(old(View()), c, reports), now / MILLISECOND)
      ensures View() == LivenessMessage(old(View()), c, reports, ghosts, picks)
    {
      hide Views, EvictionFires, RoomSpec.RecordReports, Ghosts;
      ghosts, picks := [], [];
      var rid, cid := ClientOf(c).rid, ClientOf(c).cid;
      ViewsHold(rid);
      if rid == NO_RID || cid == NO_CID || rid !in rooms || c !in rooms[rid].byClient {
        return;
      }
      var room := rooms[rid];
      room.RecordReports(room.byClient[c], reports, now / MILLISECOND);
      RoomTouched(room);
      ghosts := room.SuspendedGhostsExcludedByActiveReporters(now / MILLISECOND);
      picks := EvictGhosts(room, ghosts);
    }

    method EvictGhosts(room: Room, ghosts: seq<CID>) returns (ghost picks: seq<CID>)
      requires Valid() && room in made
      modifies this`sent, this`rooms, rooms.Values
      ensures Valid() && rooms.Values <= old(rooms.Values)
      ensures |picks| == |ghosts| && View() == EvictAll(old(View()), room.rid, room.id, ghosts, picks)
    {
      hide Views, EvictionFires;
      picks := [];
      for i := 0 to |ghosts|
        invariant Valid() && rooms.Values <= old(rooms.Values) && |picks| == i
        invariant View() == EvictAll(old(View()), room.rid, room.id, ghosts[..i], picks)
      {
        ghost var h := View();
        ghost var pick := HardEvictSuspended(room, ghosts[i]);
        assert ghosts[..i + 1] == ghosts[..i] + [ghosts[i]];
        EvictAllThen(old(View()), room.rid, room.id, ghosts[..i], picks, ghosts[i], pick);
        picks := picks + [pick];
      }
      assert ghosts[..|ghosts|] == ghosts;
    }

    method RoomCount(rid: RID) returns (count: nat)
      ensures count == Count(View(), rid)
    {
      ViewsHold(rid);
      count := if rid in rooms then |rooms[rid].byCID| else 0;
    }

    /** Earlier subscriptions lapse; the answer tells the present counts. */
    method HandleWatchRooms(c: ClientId, requested: seq<RID>, validates: RID -> bool)
      modifies this`sent, this`watchers
      ensures View() == WatchRooms(old(View()), c, Requested(requested, validates))
    {
      hide Views, Unwatch, Watch, Count, Requested, Counts;
      ghost var h := View();
      var counts: map<RID, nat> := map[];
      DropSubscriptions(c);
      ghost var bare := watchers;
      NothingWatched(bare, c);
      NoRequest(validates);
      CountsAre(h, {});
      for i := 0 to |requested|
        invariant watchers == Watch(bare, c, Requested(requested[..i], validates))
        invariant counts == Counts(h, Requested(requested[..i], validates))
        invariant View() == h.(watchers := watchers)
      {
        var rid := requested[i];
        OneMoreRequest(requested, i, validates);
        if !validates(rid) {
          continue;
        }
        WatchOneMore(bare, c, Requested(requested[..i], validates), rid);
        watchers := watchers[rid := (if rid in watchers then watchers[rid] else {}) + {c}];
        var count := RoomCount(rid);
        SameCounts(h, View(), rid);
        CountOneMore(h, Requested(requested[..i], validates), rid);
        counts := counts[rid := count];
      }
      assert requested[..|requested|] == requested;
      CountsAre(h, Requested(requested, validates));
      SendMessage({c}, RoomStatuses(counts));
    }

    // ----- join -----------------------------------------------------------------------------------

    /** The end of an accepted join: `cid` already has its transport in the room. */
    method AcceptJoin(c: ClientId, room: Room, cid: CID, outcome: Outcome)
      requires Valid() && room.rid in rooms && rooms[room.rid] == room
      modifies this`sent, this`tombstones, room
      ensures Valid()
      ensures View() == Admit(old(View()), c, room.rid, old(room.View()), cid, outcome)
    {
      hide Views, Complete, Snap, Send, Status, StateTo, TransportsOf, DirtyPartners;
      var partners := room.CompleteJoin(cid);
      RoomTouched(room);
      tombstones := tombstones - {room.rid};
      AnnounceJoin(c, room, cid, outcome, partners);
    }

    /** The messages of an accepted join, in their order. */
    method AnnounceJoin(c: ClientId, room: Room, cid: CID, outcome: Outcome, partners: seq<CID>)
      requires Valid() && room.rid in rooms && rooms[room.rid] == room
      modifies this`sent
      ensures
        var done, rid := room.View(), room.rid;
        var h2 := Send(old(View()), {c}, Joined(rid, done.id, Snap(done), cid, outcome));
        var h3 := BroadcastState(StateTo(h2, rid, {c}), rid);
        var told := SetOf(partners);
        var h4 := if told != {} then Send(h3, TransportsOf(done, told), NegotiationDirty(cid)) else h3;
        View() == Status(h4, rid)
    {
      hide Views, Valid, Snap, Send, StateTo, BroadcastState, Status, TransportsOf;
      SendMessage({c}, Joined(room.rid, room.id, Snap(room.View()), cid, outcome));
      SendRoomStateSnapshot(c, room);
      BroadcastRoomState(room);
      assert partners != [] ==> partners[0] in SetOf(partners);
      if partners != [] {
        var targets := DirtyTargets(room, partners);
        SendMessage(targets, NegotiationDirty(cid));
      }
      BroadcastRoomStatusUpdate(room.rid);
    }

    /** The transports of the partners that have one. */
    method DirtyTargets(room: Room, partners: seq<CID>) returns (targets: set<ClientId>)
      ensures targets == TransportsOf(room.View(), SetOf(partners))
    {
      targets := {};
      for i := 0 to |partners|
        invariant targets == TransportsOf(room.View(), SetOf(partners[..i]))
      {
        assert partners[..i + 1] == partners[..i] + [partners[i]];
        if partners[i] in room.byCID && room.byCID[partners[i]].client.Some? {
          targets := targets + {room.byCID[partners[i]].client.value};
        }
      }
      assert partners[..|partners|] == partners;
    }

    /** The room is made if it is not there. */
    method FindOrCreateRoom(rid: RID, createMax: int) returns (room: Room)
      requires Valid()
      modifies this`rooms, this`made, this`nextRoom
      ensures Valid() && rid in rooms && rooms[rid] == room && room.rid == rid
      ensures fresh(rooms.Values - old(rooms.Values))
      ensures View() == EnsureRoom(old(View()), rid, createMax)
    {
      hide Views, Valid, PutRoom;
      ViewsHold(rid);
      if rid in rooms {
        ValidRoom(rid);
        room := rooms[rid];
        return;
      }
      room := new Room(rid, createMax, nextRoom);
      FileRoom(room);
    }

    lemma ValidRoom(rid: RID)
      requires Valid() && rid in rooms
      ensures rooms[rid].rid == rid && rooms[rid] in made
    {}

    twostate lemma ViewsFiled(new room: Room)
      requires rooms == old(rooms)[room.rid := room]
      requires forall r :: r in old(rooms.Values) ==> unchanged(r)
      ensures Views() == old(Views())[room.rid := room.View()]
    {
      forall rid | rid in rooms && rid != room.rid
        ensures rooms[rid].View() == old(rooms[rid].View())
      {
        assert old(rooms)[rid] in old(rooms.Values);
      }
    }

    /** A room that was just made enters the hub. */
    method FileRoom(room: Room)
      requires Valid() && room.rid !in rooms && room !in made && room.id == nextRoom
      modifies this`rooms, this`made, this`nextRoom
      ensures Valid() && rooms == old(rooms)[room.rid := room]
      ensures View() == PutRoom(old(View()), room.rid, room.View()).(nextRoom := old(nextRoom) + 1)
    {
      hide Views;
      rooms := rooms[room.rid := room];
      ViewsFiled(room);
      made, nextRoom := made + {room}, nextRoom + 1;
    }

    /** A reconnect to a record that is there takes its slot, or gives it back
        suspended when the capability does not suffice. */
    method RejoinRoom(c: ClientId, req: JoinRequest, room: Room)
      requires Valid() && room.rid == req.rid && req.rid in rooms && rooms[req.rid] == room
      requires req.reconnectCid in room.byCID
      modifies this`sent, this`tombstones, this`clients, this`bySID, this`watchers, this`info, room
      ensures Valid()
      ensures View() == JoinExisting(old(View()), c, req)
    {
      hide Views, Valid, TakeSlot, Park, Admit, Deregister, BroadcastState, PutRoom, Claim, EvictGhost, SendError;
      var cid := req.reconnectCid;
      ViewsHold(req.rid);
      var ghostToEvict := room.Reclaim(cid, c);
      SlotTaken(old(room.View()), cid, c);
      if ClientMax(req) < room.maxParticipants {
        room.RollBack(cid, now);
        RoomTouched(room);
        ClaimCommutes(old(View()), req.rid, room.View(), c, cid);
        GhostSees(Claim(old(View()), c, cid, req.rid), req.rid, room.View(), ghostToEvict);
        GiveBack(c, cid, room, ghostToEvict);
      } else {
        RoomTouched(room);
        ClaimCommutes(old(View()), req.rid, room.View(), c, cid);
        ClaimSlot(c, cid, req.rid);
        EvictFormer(ghostToEvict);
        ViewsHold(req.rid);
        AcceptJoin(c, room, cid, Reattached);
      }
    }

    /** The refused end of a reconnect: the ghost goes, and peers that saw it active are told. */
    method GiveBack(c: ClientId, cid: CID, room: Room, former: Option<ClientId>)
      requires Valid() && room.rid in rooms && rooms[room.rid] == room
      modifies this`sent, this`clients, this`bySID, this`watchers, this`info
      ensures Valid()
      ensures
        var back := EvictGhost(Claim(old(View()), c, cid, room.rid), former);
        View() == SendError(if former.Some? && room.byClient != map[] then BroadcastState(back, room.rid) else back,
                            c, RoomCapacityUnsupported)
    {
      hide Views, BroadcastState, Claim, EvictGhost, SendError;
      ClaimSlot(c, cid, room.rid);
      EvictFormer(former);
      if former.Some? && room.byClient.Keys != {} {
        BroadcastRoomState(room);
      }
      ReportError(c, RoomCapacityUnsupported);
    }

    method EvictFormer(former: Option<ClientId>)
      modifies this`clients, this`bySID, this`watchers
      ensures View() == EvictGhost(old(View()), former)
    {
      hide Views, Deregister;
      if former.Some? {
        CleanupEvictedClient(former.value);
      }
    }

    method ClaimSlot(c: ClientId, cid: CID, rid: RID)
      modifies this`info
      ensures View() == Claim(old(View()), c, cid, rid)
    {
      hide Views;
      info := info[c := ClientOf(c).(cid := cid, rid := rid)];
    }

    /** No record to return to: the second participant locks the capacity; a client that
        supports it and finds a free slot gets a new record. */
    method AddParticipant(c: ClientId, req: JoinRequest, newCid: CID, room: Room)
      requires Valid() && room.rid == req.rid && req.rid in rooms && rooms[req.rid] == room
      modifies this`sent, this`tombstones, this`info, room
      ensures Valid()
      ensures View() == JoinNew(old(View()), c, req, newCid)
    {
      hide Views, Valid, LockCapacity, Attach, Admit, PutRoom, Claim, SendError;
      ViewsHold(req.rid);
      if !room.locked && |room.byCID| == 1 {
        room.LockCapacityFor(ClientMax(req));
      }
      RoomTouched(room);
      label Met:
      if ClientMax(req) < room.maxParticipants {
        ReportError(c, RoomCapacityUnsupported);
        return;
      }
      if |room.byCID| >= room.maxParticipants {
        ReportError(c, RoomFull);
        return;
      }
      var cid := if Proven(req) then req.reconnectCid else newCid;
      ClaimSlot(c, cid, req.rid);
      Seat(c, cid, req.capability, room);
      AcceptJoin(c, room, cid, if Proven(req) then Recovered else Fresh);
      AdmitOverrides(Claim(PutRoom(old(View()), req.rid, old@Met(room.View())), c, cid, req.rid), c, req.rid,
                     Attach(old@Met(room.View()), cid, c, req.capability), cid,
                     if Proven(req) then Recovered else Fresh);
    }

    method Seat(c: ClientId, cid: CID, cap: Option<int>, room: Room)
      requires Valid() && room.rid in rooms && rooms[room.rid] == room
      modifies room
      ensures Valid() && room.View() == Attach(old(room.View()), cid, c, cap)
      ensures View() == PutRoom(old(View()), room.rid, room.View())
    {
      hide Views, Attach, PutRoom;
      room.AttachParticipant(cid, c, cap);
      RoomTouched(room);
    }

    method EnterRoom(c: ClientId, req: JoinRequest, newCid: CID)
      requires Valid()
      modifies this, rooms.Values
      ensures Valid() && fresh(rooms.Values - old(rooms.Values))
      ensures View() == JoinRoom(old(View()), c, req, newCid)
    {
      hide Views, Valid, JoinExisting, JoinNew, EnsureRoom;
      var room := FindOrCreateRoom(req.rid, CreateMax(req, limit));
      ViewsHold(req.rid);
      if req.reconnectCid != NO_CID && req.reconnectCid in room.byCID {
        RejoinRoom(c, req, room);
      } else {
        AddParticipant(c, req, newCid, room);
      }
    }

    method HandleJoin(c: ClientId, req: JoinRequest, newCid: CID) returns (ghost pick: CID)
      requires Valid()
      modifies this, rooms.Values
      ensures Valid() && fresh(rooms.Values - old(rooms.Values))
      ensures View() == HubSpec.HandleJoin(old(View()), c, req, newCid, pick)
    {
      hide Views, Valid, JoinRoom, EvictExpired, SendError, SweepTombstone, TombstoneActive;
      pick := NO_CID;
      if req.rid == NO_RID {
        ReportError(c, BadRequest);
        return;
      }
      if req.check != ValidId {
        ReportError(c, if req.check == SecretMissing then ServerNotConfigured else InvalidRoomId);
        return;
      }
      var tokenValid := false;
      if req.reconnectCid != NO_CID && req.tokenGiven {
        if req.verdict != TokenOk {
          if req.verdict == TokenExpired {
            pick := EvictExpiredReconnect(req.rid, req.reconnectCid);
          }
          ReportError(c, InvalidReconnectToken);
          return;
        }
        tokenValid := true;
      }
      if tokenValid {
        var ended := LookupTombstone(req.rid);
        if ended {
          SweepActive(old(View()), req.rid);
          ReportError(c, RoomEndedError);
          return;
        }
      }
      EnterRoom(c, req, newCid);
    }

    /** The join message: whoever sits in a room leaves it first. */
    method HandleJoinMessage(c: ClientId, req: JoinRequest, newCid: CID) returns (ghost pick: CID, ghost pick2: CID)
      requires Valid()
      modifies this, rooms.Values
      ensures Valid() && fresh(rooms.Values - old(rooms.Values))
      ensures View() == JoinMessage(old(View()), c, req, newCid, pick, pick2)
    {
      hide Views, Valid, LeaveRoom, HubSpec.HandleJoin;
      pick := NO_CID;
      if ClientOf(c).rid != NO_RID {
        pick := RemoveClientFromRoom(c);
      }
      pick2 := HandleJoin(c, req, newCid);
    }

    // ----- messages -----------------------------------------------------------------------------------

    /** handleMessage: what any message of a transport does is one step of the hub.
        Choices that map iteration leaves open are reported in the event `e`. */
    method HandleMessage(c: ClientId, m: ClientMessage, at: int) returns (ghost e: Event)
      requires Valid() && now <= at && Generated(View(), m)
      modifies this, rooms.Values
      ensures Valid() && fresh(rooms.Values - old(rooms.Values))
      ensures Handles(c, m, e)
      ensures Enabled(old(View()), e, at) && View() == Step(old(View()), e, at)
      ensures c !in old(clients) ==> View() == old(View()).(now := at)
    {
      hide Views, Valid, Enabled, Step, Handle, Handles, Generated, Ignored;
      ghost var h := View();
      now := at;
      if c !in clients {
        e := Ignored(c, m);
        IgnoredStep(h, c, m, at);
        return;
      }
      GeneratedNow(h, at, m);
      if m.JoinMsg? || m.LeaveMsg? || m.EndRoomMsg? {
        e := ComeOrGo(c, m);
      } else {
        e := PassOn(c, m);
      }
      StepNow(h, e, at);
    }

    /** The messages that change who is in a room. */
    method ComeOrGo(c: ClientId, m: ClientMessage) returns (ghost e: Event)
      requires Valid() && c in clients && Generated(View(), m) && (m.JoinMsg? || m.LeaveMsg? || m.EndRoomMsg?)
      modifies this, rooms.Values
      ensures Valid() && fresh(rooms.Values - old(rooms.Values))
      ensures Handles(c, m, e)
      ensures Enabled(old(View()), e, old(now)) && View() == Handle(old(View()), e)
    {
      hide Views, Valid, LeaveRoom, EndRoom, JoinMessage, Enabled, Handle;
      ghost var h := View();
      match m
      case JoinMsg(req, newCid) =>
        ghost var pick, pick2 := HandleJoinMessage(c, req, newCid);
        e := Join(c, req, newCid, pick, pick2);
        JoinStep(h, c, req, newCid, pick, pick2);
      case LeaveMsg =>
        ghost var pick := HandleLeave(c);
        e := Leave(c, pick);
        LeaveStep(h, c, pick);
      case EndRoomMsg =>
        HandleEndRoom(c);
        e := End(c);
        PlainStep(h, e);
    }

    /** The messages of a participant to its room, and of a watcher. */
    method PassOn(c: ClientId, m: ClientMessage) returns (ghost e: Event)
      requires Valid() && c in clients && (m.RelayMsg? || m.MediaLivenessMsg? || m.WatchRoomsMsg?)
      modifies this, rooms.Values
      ensures Valid() && rooms.Values <= old(rooms.Values)
      ensures Handles(c, m, e)
      ensures Enabled(old(View()), e, old(now)) && View() == Handle(old(View()), e)
    {
      hide Views, Valid, RelayMessage, LivenessMessage, WatchRooms, Reported, Ghosts, LivenessAccepted, Enabled, Handle;
      ghost var h := View();
      match m
      case RelayMsg(kind, to) =>
        HandleRelay(c, kind, to);
        e := RelayEvent(c, kind, to);
        PlainStep(h, e);
      case MediaLivenessMsg(reports) =>
        var ghosts;
        ghost var picks;
        ghosts, picks := HandleMediaLiveness(c, reports);
        e := Liveness(c, reports, ghosts, picks);
        LivenessStep(h, c, reports, ghosts, picks);
      case WatchRoomsMsg(requested, validates) =>
        HandleWatchRooms(c, requested, validates);
        e := WatchEvent(c, Requested(requested, validates));
        PlainStep(h, e);
    }

    /** Transports and generated session identifiers are new, and timers were armed for
        rooms of this hub. */
    ghost predicate CanOccur(o: Occurrence)
      reads this
    {
      match o
      case Connected(c, sid) => c !in info && sid !in bySID
      case StreamOpened(c, sid) => c !in info
      case EvictionTimerFired(room, cid) => room in made
      case IdleTimerFired(room) => room in made
      case _ => true
    }

    /** What any other occurrence does is one step of the hub, too. */
    method HandleOccurrence(o: Occurrence, at: int) returns (ghost e: Event)
      requires Valid() && now <= at && CanOccur(o)
      modifies this, rooms.Values
      ensures Valid() && rooms.Values <= old(rooms.Values)
      ensures Realizes(o, e)
      ensures Enabled(old(View()), e, at) && View() == Step(old(View()), e, at)
    {
      hide Views, Valid, Enabled, Step, Handle, Realizes;
      ghost var h := View();
      now := at;
      if o.LeavePosted? || o.EvictionTimerFired? || o.IdleTimerFired? {
        e := RunCallback(o);
      } else {
        e := MoveTransport(o);
      }
      StepNow(h, e, at);
    }

    /** Transports that come, take over and go. */
    method MoveTransport(o: Occurrence) returns (ghost e: Event)
      requires Valid() && CanOccur(o) && !o.LeavePosted? && !o.EvictionTimerFired? && !o.IdleTimerFired?
      modifies this, rooms.Values
      ensures Valid() && rooms == old(rooms)
      ensures Realizes(o, e)
      ensures Enabled(old(View()), e, old(now)) && View() == Handle(old(View()), e)
    {
      hide Views, Valid, Register, ServeSSE, PromotePending, AbandonSSE, Disconnect, Enabled, Handle;
      ghost var h := View();
      match o
      case Connected(c, sid) =>
        RegisterClient(c, sid);
        e := WsConnect(c, sid);
        TransportStep(h, e);
      case StreamOpened(c, sid) =>
        OpenEventStream(c, sid);
        e := SseConnect(c, sid);
        TransportStep(h, e);
      case TakeoverAuthorized(sid) =>
        PromoteTakeover(sid);
        e := SseTakeover(sid);
        TransportStep(h, e);
      case StreamAbandoned(c) =>
        AbandonEventStream(c);
        e := SseAbandon(c);
        TransportStep(h, e);
      case Dropped(c) =>
        DisconnectClient(c);
        e := Drop(c);
        TransportStep(h, e);
    }

    /** The page's leave and the two timers. */
    method RunCallback(o: Occurrence) returns (ghost e: Event)
      requires Valid() && CanOccur(o) && (o.LeavePosted? || o.EvictionTimerFired? || o.IdleTimerFired?)
      modifies this, rooms.Values
      ensures Valid() && rooms.Values <= old(rooms.Values)
      ensures Realizes(o, e)
      ensures Enabled(old(View()), e, old(now)) && View() == Handle(old(View()), e)
    {
      hide Views, Valid, EvictByLeave, EvictionFires, IdleFires, Enabled, Handle;
      ghost var h := View();
      match o
      case LeavePosted(rid, cid) =>
        ghost var pick := EvictLeaver(rid, cid);
        e := HttpLeave(rid, cid, pick);
        CallbackStep(h, e);
      case EvictionTimerFired(room, cid) =>
        ghost var pick := HardEvictSuspended(room, cid);
        e := EvictTimer(room.rid, room.id, cid, pick);
        CallbackStep(h, e);
      case IdleTimerFired(room) =>
        CleanupRoomIfNoActive(room);
        e := IdleTimer(room.rid, room.id);
        CallbackStep(h, e);
    }

    /** handleSSEPost: with a takeover pending the body has to be a join that proves its
        identity; the takeover and the message are handled one after the other. */
    method HandlePost(sid: SID, m: ClientMessage, at: int) returns (answer: PostAnswer, ghost e: Event)
      requires Valid() && now <= at && Generated(View(), m)
      modifies this, rooms.Values
      ensures Valid() && fresh(rooms.Values - old(rooms.Values))
      ensures answer == AnswerOf(old(View()), sid, m)
      ensures answer.Gone? <==> sid !in old(bySID) && sid !in old(pending)
      ensures
        answer.Handled? && answer.tookOver ==>
          && sid in old(bySID) && sid in old(pending) && answer.c == old(pending)[sid]
          && m.JoinMsg? && m.req.reconnectCid != NO_CID && m.req.tokenGiven && m.req.verdict == TokenOk
      ensures
        sid in old(bySID) && sid in old(pending)
        && !(m.JoinMsg? && m.req.reconnectCid != NO_CID && m.req.tokenGiven && m.req.verdict == TokenOk) ==>
          answer.Unauthorized?
      ensures answer.Unauthorized? ==> sid in old(bySID) && sid in old(pending)
      ensures
        (sid in old(bySID)) != (sid in old(pending)) ==>
          answer == Handled(if sid in old(bySID) then old(bySID)[sid] else old(pending)[sid], false)
      ensures !answer.Handled? ==> View() == old(View()).(now := at)
      ensures answer.Handled? ==> Handles(answer.c, m, e)
      ensures
        answer.Handled? ==>
          var h, taking := old(View()), SseTakeover(sid);
          && Enabled(h, taking, at)
          && var k := if answer.tookOver then Step(h, taking, at) else h;
             Enabled(k, e, at) && View() == Step(k, e, at)
    {
      hide Views, Valid, Enabled, Step, Handles, Generated;
      ghost var h := View();
      e := SseTakeover(sid);
      if sid !in bySID && sid !in pending {
        now := at;
        return Gone, e;
      }
      TakeoverEnabled(h, sid, at);
      var c := if sid in pending then pending[sid] else bySID[sid];
      var takesOver := sid in pending && sid in bySID;
      if takesOver {
        if !m.JoinMsg? || !Proven(m.req) {
          now := at;
          return Unauthorized, e;
        }
        e := HandleOccurrence(TakeoverAuthorized(sid), at);
        TakeoverGenerates(h, sid, at, m);
      }
      e := HandleMessage(c, m, at);
      answer := Handled(c, takesOver);
    }

    method HandleLeave(c: ClientId) returns (ghost pick: CID)
      requires Valid()
      modifies this`sent, this`rooms, rooms.Values
      ensures Valid() && rooms.Values <= old(rooms.Values)
      ensures View() == if Info(old(View()), c).rid != NO_RID then LeaveRoom(old(View()), c, pick) else old(View())
    {
      hide Views, Valid, LeaveRoom;
      pick := NO_CID;
      if ClientOf(c).rid == NO_RID {
        return;
      }
      pick := RemoveClientFromRoom(c);
    }
  }

  lemma DeferIs(r: RoomState, cid: CID, now: int)
    requires cid in r.byCID
    ensures Defer(r, cid, now)
         == r.(byCID := r.byCID[cid := r.byCID[cid].(evictAt := Some(now + HARD_EVICT_MEDIA_ACTIVE_DEFERRAL))])
  {}

  lemma {:induction false} EvictAllThen(h: HubState, rid: RID, id: nat, order: seq<CID>, picks: seq<CID>, cid: CID,
      pick: CID)
    requires |picks| == |order|
    ensures EvictAll(h, rid, id, order + [cid], picks + [pick])
         == EvictionFires(EvictAll(h, rid, id, order, picks), rid, id, cid, pick)
    decreases |order|
  {
    hide EvictionFires;
    if order == [] {
      assert ([cid] + [])[1..] == [];
    } else {
      assert (order + [cid])[1..] == order[1..] + [cid] && (picks + [pick])[1..] == picks[1..] + [pick];
      EvictAllThen(EvictionFires(h, rid, id, order[0], picks[0]), rid, id, order[1..], picks[1..], cid, pick);
    }
  }

  function Requested(rids: seq<RID>, validates: RID -> bool): set<RID> {
    set rid | rid in rids && validates(rid)
  }

  function Counts(h: HubState, rids: set<RID>): map<RID, nat> {
    map rid | rid in rids :: Count(h, rid)
  }

  lemma CountsAre(h: HubState, rids: set<RID>)
    ensures Counts(h, rids) == map rid | rid in rids :: Count(h, rid)
    ensures Counts(h, {}) == map[]
  {}

  lemma SameCounts(h: HubState, k: HubState, rid: RID)
    requires k.rooms == h.rooms
    ensures Count(k, rid) == Count(h, rid)
  {}

  lemma CountOneMore(h: HubState, rids: set<RID>, rid: RID)
    ensures Counts(h, rids + {rid}) == Counts(h, rids)[rid := Count(h, rid)]
  {}

  /** A watch_rooms subscribes its transport to the rooms it names whose identifiers validate,
      and to no others, and changes nobody else's subscriptions. */
  lemma RequestSubscribes(h: HubState, c: ClientId, requested: seq<RID>, validates: RID -> bool)
    ensures
      var k := WatchRooms(h, c, Requested(requested, validates));
      forall d, rid :: (rid in k.watchers && d in k.watchers[rid])
        <==> if d == c then rid in requested && validates(rid) else rid in h.watchers && d in h.watchers[rid]
  {
    forall d, rid | d != c && rid in h.watchers && d in h.watchers[rid]
      ensures rid in Unwatch(h.watchers, c) && d in Unwatch(h.watchers, c)[rid]
    {
      assert d in h.watchers[rid] - {c};
    }
  }

  lemma NoRequest(validates: RID -> bool)
    ensures Requested([], validates) == {}
  {}

  lemma OneMoreRequest(rids: seq<RID>, i: nat, validates: RID -> bool)
    requires i < |rids|
    ensures Requested(rids[..i + 1], validates)
         == if validates(rids[i]) then Requested(rids[..i], validates) + {rids[i]} else Requested(rids[..i], validates)
  {
    assert rids[..i + 1] == rids[..i] + [rids[i]];
  }

  lemma NothingWatched(watchers: map<RID, set<ClientId>>, c: ClientId)
    ensures Watch(watchers, c, {}) == watchers
  {
    forall rid | rid in watchers
      ensures Watch(watchers, c, {})[rid] == watchers[rid]
    {}
  }

  lemma WatchOneMore(watchers: map<RID, set<ClientId>>, c: ClientId, rids: set<RID>, rid: RID)
    ensures
      var w := Watch(watchers, c, rids);
      Watch(watchers, c, rids + {rid}) == w[rid := (if rid in w then w[rid] else {}) + {c}]
  {
    var w := Watch(watchers, c, rids);
    var more := w[rid := (if rid in w then w[rid] else {}) + {c}];
    forall o | o in more
      ensures Watch(watchers, c, rids + {rid})[o] == more[o]
    {}
  }

  lemma SlotTaken(r: RoomState, cid: CID, c: ClientId)
    requires cid in r.byCID
    ensures
      var t := TakeSlot(r, cid, c);
      && cid in t.byCID && t.byCID[cid].client == Some(c)
      && t.maxParticipants == r.maxParticipants
  {}

  lemma ClaimCommutes(h: HubState, rid: RID, r: RoomState, c: ClientId, cid: CID)
    ensures Claim(PutRoom(h, rid, r), c, cid, rid) == PutRoom(Claim(h, c, cid, rid), rid, r)
  {}

  lemma GhostSees(h: HubState, rid: RID, r: RoomState, former: Option<ClientId>)
    ensures
      var back := EvictGhost(PutRoom(h, rid, r), former);
      rid in back.rooms && back.rooms[rid] == r
  {}

  lemma AdmitOverrides(h: HubState, c: ClientId, rid: RID, r: RoomState, cid: CID, outcome: Outcome)
    ensures Admit(PutRoom(h, rid, r), c, rid, r, cid, outcome) == Admit(h, c, rid, r, cid, outcome)
  {
    hide Complete, Status, StateTo, Send, Snap, TransportsOf, DirtyPartners;
    assert PutRoom(PutRoom(h, rid, r), rid, Complete(r, cid)) == PutRoom(h, rid, Complete(r, cid));
  }

  lemma SweepActive(h: HubState, rid: RID)
    requires TombstoneActive(h, rid)
    ensures SweepTombstone(h, rid) == h
  {}

  lemma GeneratedNow(h: HubState, at: int, m: ClientMessage)
    ensures Generated(h.(now := at), m) == Generated(h, m)
  {}

  /** The event of a message that is not looked at. */
  function Ignored(c: ClientId, m: ClientMessage): Event {
    match m
    case JoinMsg(req, newCid) => Join(c, req, newCid, NO_CID, NO_CID)
    case LeaveMsg => Leave(c, NO_CID)
    case EndRoomMsg => End(c)
    case RelayMsg(kind, to) => RelayEvent(c, kind, to)
    case MediaLivenessMsg(reports) => Liveness(c, reports, [], [])
    case WatchRoomsMsg(requested, validates) => WatchEvent(c, Requested(requested, validates))
  }

  lemma IgnoredStep(h: HubState, c: ClientId, m: ClientMessage, at: int)
    requires h.now <= at && c !in h.clients && Generated(h, m)
    ensures Handles(c, m, Ignored(c, m))
    ensures Enabled(h, Ignored(c, m), at) && Step(h, Ignored(c, m), at) == h.(now := at)
  {}

  /** What happens at time `at` happens in the hub whose clock shows it. */
  lemma StepNow(h: HubState, e: Event, at: int)
    requires h.now <= at && Enabled(h.(now := at), e, at)
    ensures Enabled(h, e, at) && Step(h, e, at) == Handle(h.(now := at), e)
  {
    hide Handle, Reported, Ghosts, LivenessAccepted;
    assert h.(now := at).(now := at) == h.(now := at);
  }

  lemma JoinStep(h: HubState, c: ClientId, req: JoinRequest, newCid: CID, pick: CID, pick2: CID)
    requires c in h.clients && Generated(h, JoinMsg(req, newCid))
    ensures
      var e := Join(c, req, newCid, pick, pick2);
      Enabled(h, e, h.now) && Handle(h, e) == JoinMessage(h, c, req, newCid, pick, pick2)
  {
    hide JoinMessage;
  }

  lemma LeaveStep(h: HubState, c: ClientId, pick: CID)
    requires c in h.clients
    ensures Enabled(h, Leave(c, pick), h.now)
    ensures Handle(h, Leave(c, pick)) == if Info(h, c).rid != NO_RID then LeaveRoom(h, c, pick) else h
  {
    hide LeaveRoom;
  }

  lemma PlainStep(h: HubState, e: Event)
    requires (e.End? || e.RelayEvent? || e.WatchEvent?) && e.c in h.clients
    ensures Enabled(h, e, h.now)
    ensures Handle(h, e) == if e.End? then EndRoom(h, e.c)
                            else if e.RelayEvent? then RelayMessage(h, e.c, e.kind, e.to)
                            else WatchRooms(h, e.c, e.rids)
  {
    hide EndRoom, RelayMessage, WatchRooms;
  }

  lemma LivenessStep(h: HubState, c: ClientId, reports: seq<CID>, order: seq<CID>, picks: seq<CID>)
    requires c in h.clients && |picks| == |order| && Distinct(order)
    requires LivenessAccepted(h, c) ==> SetOf(order) == Ghosts(Reported(h, c, reports), h.now / MILLISECOND)
    ensures
      var e := Liveness(c, reports, order, picks);
      Enabled(h, e, h.now) && Handle(h, e) == LivenessMessage(h, c, reports, order, picks)
  {
    hide LivenessMessage, Reported, Ghosts, LivenessAccepted;
    assert h.(now := h.now) == h;
    assert SetOf(order) == set cid | cid in order;
  }

  lemma TransportStep(h: HubState, e: Event)
    requires e.WsConnect? || e.SseConnect? || e.SseTakeover? || e.SseAbandon? || e.Drop?
    requires e.WsConnect? || e.SseConnect? ==> e.c !in h.info
    requires e.WsConnect? ==> e.sid !in h.bySID
    ensures Enabled(h, e, h.now)
    ensures Handle(h, e) == if e.WsConnect? then Register(h, e.c, e.sid)
                            else if e.SseConnect? then ServeSSE(h, e.c, e.sid)
                            else if e.SseTakeover? then PromotePending(h, e.sid)
                            else if e.SseAbandon? then AbandonSSE(h, e.c)
                            else Disconnect(h, e.c)
  {
    hide Register, ServeSSE, PromotePending, AbandonSSE, Disconnect;
  }

  lemma CallbackStep(h: HubState, e: Event)
    requires e.HttpLeave? || e.EvictTimer? || e.IdleTimer?
    ensures Enabled(h, e, h.now)
    ensures Handle(h, e) == if e.HttpLeave? then EvictByLeave(h, e.rid, e.cid, e.pick)
                            else if e.EvictTimer? then EvictionFires(h, e.rid, e.id, e.cid, e.pick)
                            else IdleFires(h, e.rid, e.id)
  {
    hide EvictByLeave, EvictionFires, IdleFires;
  }

  lemma TakeoverEnabled(h: HubState, sid: SID, at: int)
    requires h.now <= at
    ensures Enabled(h, SseTakeover(sid), at)
  {}

  /** A takeover changes no participant. */
  lemma TakeoverGenerates(h: HubState, sid: SID, at: int, m: ClientMessage)
    requires Enabled(h, SseTakeover(sid), at) && Generated(h, m)
    ensures Generated(Step(h, SseTakeover(sid), at), m) && Step(h, SseTakeover(sid), at).now == at
  {
    hide Rewatch;
  }
}
