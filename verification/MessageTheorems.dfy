/** What single messages and transport events do, for every member and every subscriber. */
module MessageTheorems {
  import opened Wrappers
  import opened SignalingTypes
  import opened RoomSpec
  import opened RoomInvariant
  import opened HubSpec
  import opened HubInvariant
  import opened HubSteps
  import opened RoomHistory
  import opened HubTheorems
  import opened EventTheorems

  // ----- relay ---------------------------------------------------------------------------

  /** The members that a message of `sender` is meant for and that have no transport. */
  function MissedBy(r: RoomState, sender: CID, to: CID): set<CID> {
    set t | t in r.byCID && r.byCID[t].client.None? && t != sender && (to == NO_CID || to == t)
  }

  function ReachedBy(r: RoomState, sender: CID, to: CID): set<ClientId> {
    set d | d in r.byClient && r.byClient[d] != sender && (to == NO_CID || to == r.byClient[d])
  }

  /** A relayed message goes to exactly the attached members it is meant for.  An offer,
      answer, candidate or restart request that suspended members miss is reported to the
      sender and marks exactly those; a content state is simply missed.  Nothing else of
      any room changes, and no other pair is marked or forgotten. */
  lemma RelayDelivers(h: HubState, c: ClientId, rid: RID, sender: CID, kind: Kind, to: CID, at: int)
    requires Core(h) && Enabled(h, RelayEvent(c, kind, to), at)
    requires rid in h.rooms && AttachedTo(h.rooms[rid], sender, c)
    ensures
      var k, r := Step(h, RelayEvent(c, kind, to), at), h.rooms[rid];
      var negotiates := kind == Offer || kind == Answer || kind == Ice || kind == MediaRestartRequest;
      var missed := if negotiates then MissedBy(r, sender, to) else {};
      && k.sent == h.sent + [Sent(ReachedBy(r, sender, to), Relay(sender, kind))]
                   + (if missed != {} then [Sent({c}, RelayFailed(missed))] else [])
      && SameTransports(h, k) && k.tombstones == h.tombstones && k.now == at
      && rid in k.rooms && k.rooms - {rid} == h.rooms - {rid}
      && k.rooms[rid] == r.(dirty := k.rooms[rid].dirty, log := k.rooms[rid].log)
      && (forall f, t :: Dirtied(k.rooms[rid].dirty, f, t) <==> Dirtied(r.dirty, f, t) || (f == sender && t in missed))
  {
    hide Core, RoomInv, Timed, Populated, CapacitySafe, Negotiated, Bounded, RelayMessage, MarkMissed, MissedBy;
    hide ReachedBy, SuspendedAudience, Audience, TransportsOf;
    var n, r := h.(now := at), h.rooms[rid];
    ClockKeeps(h, at);
    RoomOf(h, rid);
    Parts(r, h.limit, h.now);
    TransportsOff(n, rid, sender, c);
    RoomOf(n, rid);
    MissedAre(r, sender, to);
    RelaySends(n, c, kind, to);
    RelayIs(n, c, kind, to);
    AudienceTransports(r, sender, to);
    MarkedPairs(r, sender, if kind == ContentState then {} else MissedBy(r, sender, to));
  }

  /** So whatever negotiation a suspended member misses is pending from then on: for a
      reachable room the table and the history say the same. */
  lemma MissedIsPending(h: HubState, c: ClientId, rid: RID, sender: CID, kind: Kind, to: CID, at: int, t: CID)
    requires Core(h) && Enabled(h, RelayEvent(c, kind, to), at) && kind != ContentState
    requires rid in h.rooms && AttachedTo(h.rooms[rid], sender, c)
    requires t in h.rooms[rid].byCID && h.rooms[rid].byCID[t].client.None? && (to == NO_CID || to == t)
    ensures
      var k := Step(h, RelayEvent(c, kind, to), at);
      rid in k.rooms && Pending(k.rooms[rid].log, sender, t)
  {
    hide Core, RoomInv, Indexed, Timed, Populated, CapacitySafe, Bounded, Pending, Step, Enabled;
    RelayDelivers(h, c, rid, sender, kind, to, at);
    StepKeeps(h, RelayEvent(c, kind, to), at);
    var k := Step(h, RelayEvent(c, kind, to), at);
    RoomOf(k, rid);
    Parts(k.rooms[rid], k.limit, k.now);
    assert Dirtied(k.rooms[rid].dirty, sender, t);
  }

  /** Nobody relays who is attached nowhere. */
  lemma RelaysNothing(h: HubState, c: ClientId, kind: Kind, to: CID, at: int)
    requires Core(h) && Enabled(h, RelayEvent(c, kind, to), at) && Unattached(h, c)
    ensures Step(h, RelayEvent(c, kind, to), at) == h.(now := at)
  {
    hide Core;
  }

  lemma MissedAre(r: RoomState, sender: CID, to: CID)
    ensures SuspendedAudience(r, sender, to) == MissedBy(r, sender, to)
  {}

  lemma RelaySends(h: HubState, c: ClientId, kind: Kind, to: CID)
    requires RelayAccepts(h, c)
    ensures
      var r := h.rooms[Info(h, c).rid];
      var sender := r.byClient[c];
      var missed := if Negotiates(kind) then SuspendedAudience(r, sender, to) else {};
      RelayMessage(h, c, kind, to).sent
      == h.sent + [Sent(TransportsOf(r, Audience(r, sender, to)), Relay(sender, kind))]
         + if missed != {} then [Sent({c}, RelayFailed(missed))] else []
  {
    hide MarkMissed, Audience, SuspendedAudience, TransportsOf;
  }

  lemma AudienceTransports(r: RoomState, sender: CID, to: CID)
    requires Indexed(r)
    ensures TransportsOf(r, Audience(r, sender, to)) == ReachedBy(r, sender, to)
  {
    forall d | d in ReachedBy(r, sender, to)
      ensures d in TransportsOf(r, Audience(r, sender, to))
    {
      assert AttachedTo(r, r.byClient[d], d) && r.byClient[d] in Audience(r, sender, to);
    }
  }

  lemma MarkedPairs(r: RoomState, from: CID, targets: set<CID>)
    ensures
      var s := MarkMissed(r, from, targets);
      && s == r.(dirty := s.dirty, log := s.log)
      && forall f, t :: Dirtied(s.dirty, f, t) <==> Dirtied(r.dirty, f, t) || (f == from && t in targets)
  {}

  // ----- end of a room ---------------------------------------------------------------------------

  /** The host's end_room removes the room and remembers it for five minutes; expired
      entries go, others stay.  Every attached transport of the room, and nobody else, is
      told that it ended. */
  lemma HostEndsRoom(h: HubState, c: ClientId, rid: RID, at: int)
    requires Core(h) && Enabled(h, End(c), at) && rid in h.rooms && AttachedTo(h.rooms[rid], h.rooms[rid].host, c)
    ensures
      var k, r := Step(h, End(c), at), h.rooms[rid];
      && k.rooms == h.rooms - {rid} && SameTransports(h, k) && k.now == at
      && (forall o :: o in k.tombstones <==> o == rid || (o in h.tombstones && at <= h.tombstones[o]))
      && (forall o :: o in k.tombstones ==>
            k.tombstones[o] == if o == rid then at + 300_000_000_000 else h.tombstones[o])
      && h.sent + [Sent(r.byClient.Keys, RoomEnded(rid))] <= k.sent
      && (forall i :: |h.sent| < i < |k.sent| ==> k.sent[i].Sent? && k.sent[i].body.StatusUpdate?)
  {
    hide Core, RoomInv, Status;
    var n := h.(now := at);
    ClockKeeps(h, at);
    TransportsOff(n, rid, h.rooms[rid].host, c);
    RoomOf(n, rid);
    EndSends(n, c, rid);
    EndingIs(n, c);
  }

  lemma EndSends(h: HubState, c: ClientId, rid: RID)
    requires rid == Info(h, c).rid && rid != NO_RID && rid in h.rooms
    requires c in h.rooms[rid].byClient && h.rooms[rid].byClient[c] == h.rooms[rid].host
    ensures
      var k, r := EndRoom(h, c), h.rooms[rid];
      && h.sent + [Sent(r.byClient.Keys, RoomEnded(rid))] <= k.sent
      && (forall i :: |h.sent| < i < |k.sent| ==> k.sent[i].Sent? && k.sent[i].body.StatusUpdate?)
  {}

  /** Anybody else who names a room is told to be no host, and nothing ends. */
  lemma OthersEndNothing(h: HubState, c: ClientId, at: int)
    requires Core(h) && Enabled(h, End(c), at) && c in h.clients
    requires forall rid :: rid in h.rooms ==> !AttachedTo(h.rooms[rid], h.rooms[rid].host, c)
    ensures Step(h, End(c), at)
         == if Info(h, c).rid in h.rooms
            then h.(now := at, sent := h.sent + [Sent({c}, Error(NotHost))]) else h.(now := at)
  {
    hide Core, RoomInv;
    var n, rid := h.(now := at), Info(h, c).rid;
    ClockKeeps(h, at);
    if rid in n.rooms {
      RoomOf(n, rid);
      if c in n.rooms[rid].byClient {
        AttachedRecord(n, rid, c);
      }
    }
  }

  // ----- subscriptions -----------------------------------------------------------------------------

  /** watch_rooms replaces the subscriptions of the transport by the requested ones, and
      answers with the present counts, 0 for a room that is not there. */
  lemma WatchSubscribes(h: HubState, c: ClientId, rids: set<RID>, at: int)
    requires Enabled(h, WatchEvent(c, rids), at) && c in h.clients
    ensures
      var k := Step(h, WatchEvent(c, rids), at);
      && (forall d, rid :: Watches(k, d, rid) <==> if d == c then rid in rids else Watches(h, d, rid))
      && k.sent == h.sent + [Sent({c}, RoomStatuses(
                                         map rid | rid in rids :: if rid in h.rooms then |h.rooms[rid].byCID| else 0))]
      && k == h.(now := at, watchers := k.watchers, sent := k.sent)
  {
    var k, n := Step(h, WatchEvent(c, rids), at), h.(now := at);
    assert (map rid | rid in rids :: Count(n, rid))
        == map rid | rid in rids :: if rid in h.rooms then |h.rooms[rid].byCID| else 0;
    forall d, rid
      ensures Watches(k, d, rid) <==> if d == c then rid in rids else Watches(h, d, rid)
    {
      if d != c && Watches(h, d, rid) {
        assert d in h.watchers[rid] - {c};
      }
    }
  }

  /** A report by a transport that is attached nowhere stamps nobody. */
  lemma ReportsNothing(h: HubState, c: ClientId, reports: seq<CID>, order: seq<CID>, picks: seq<CID>, at: int)
    requires Core(h) && Enabled(h, Liveness(c, reports, order, picks), at) && Unattached(h, c)
    ensures Step(h, Liveness(c, reports, order, picks), at) == h.(now := at)
  {
    hide Core, Ghosts, Reported;
  }

  /** Whoever is not registered is not listened to. */
  lemma StrangersIgnored(h: HubState, e: Event, at: int)
    requires Enabled(h, e, at)
    requires e.Join? || e.Leave? || e.End? || e.RelayEvent? || e.Liveness? || e.WatchEvent?
    requires e.c !in h.clients
    ensures Step(h, e, at) == h.(now := at)
  {}

  // ----- joins that do not reach a room ----------------------------------------------------------

  /** The checks before the room, in their order. */
  function GateCode(h: HubState, req: JoinRequest): ErrorCode
    requires !Reaches(h, req)
  {
    if req.rid == NO_RID then BadRequest
    else match req.check
         case SecretMissing => ServerNotConfigured
         case InvalidId => InvalidRoomId
         case ValidId => if PresentsToken(req) && req.verdict != TokenOk then InvalidReconnectToken else RoomEndedError
  }

  /** A join that fails a check is answered by its error and changes no room, except that
      an expired token that proves its pair gives up the suspended record it was for. */
  lemma GateAnswers(h: HubState, c: ClientId, req: JoinRequest, newCid: CID, pick: CID)
    requires Core(h) && !Reaches(h, req)
    ensures
      var k := HandleJoin(h, c, req, newCid, pick);
      && AnsweredByError(k, c, GateCode(h, req))
      && if GateCode(h, req) == InvalidReconnectToken && req.verdict == TokenExpired
            && req.rid in h.rooms && Suspended(h.rooms[req.rid], req.reconnectCid)
         then RemovedFrom(h, k, req.rid, req.reconnectCid)
         else k.rooms == h.rooms
  {
    hide Core, Reachable, RemovedFrom, EvictExpired, EvictByLeave, HardEvict, LeaveRoom, RecentMedia, HandleJoin,
        SendError;
    GateIs(h, c, req, newCid, pick);
    ExpiredMisses(h, req.rid, req.reconnectCid, pick);
    ErrorAnswers(h, c, GateCode(h, req));
    var e := EvictExpired(h, req.rid, req.reconnectCid, pick);
    ErrorAnswers(e, c, InvalidReconnectToken);
    if req.rid in h.rooms && Suspended(h.rooms[req.rid], req.reconnectCid) {
      RemovalPaths(h, req.rid, req.reconnectCid, pick);
      SameRooms(h, e, SendError(e, c, InvalidReconnectToken), req.rid, req.reconnectCid);
    }
  }

  lemma GateIs(h: HubState, c: ClientId, req: JoinRequest, newCid: CID, pick: CID)
    requires !Reaches(h, req)
    ensures HandleJoin(h, c, req, newCid, pick)
         == SendError(if GateCode(h, req) == InvalidReconnectToken && req.verdict == TokenExpired
                      then EvictExpired(h, req.rid, req.reconnectCid, pick) else h, c, GateCode(h, req))
  {
    hide EvictExpired, SendError, JoinRoom;
  }

  lemma ErrorAnswers(h: HubState, c: ClientId, code: ErrorCode)
    ensures AnsweredByError(SendError(h, c, code), c, code) && SendError(h, c, code).rooms == h.rooms
  {}

  lemma ExpiredMisses(h: HubState, rid: RID, cid: CID, pick: CID)
    ensures !(rid in h.rooms && Suspended(h.rooms[rid], cid)) ==> EvictExpired(h, rid, cid, pick) == h
  {}

  lemma SameRooms(h: HubState, k: HubState, l: HubState, rid: RID, cid: CID)
    requires rid in h.rooms && cid in h.rooms[rid].byCID && l.rooms == k.rooms
    ensures RemovedFrom(h, k, rid, cid) <==> RemovedFrom(h, l, rid, cid)
  {}
}
