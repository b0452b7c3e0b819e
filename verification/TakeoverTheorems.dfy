/** A takeover request from beginning to end: the new transport is given the seat, and
    the join it was sent with gives the seat up again. */
module TakeoverTheorems {
  import opened Wrappers
  import opened SignalingTypes
  import opened RoomSpec
  import opened RoomInvariant
  import opened HubSpec
  import opened HubInvariant
  import opened HubSteps
  import opened RoomHistory
  import opened HubTheorems
  import opened ReachableRooms

  // ----- a join from the very seat it asks for -----------------------------------------------------

  /** The transport sits in the seat that its join reconnects to. */
  predicate AsksForOwnSeat(h: HubState, c: ClientId, req: JoinRequest) {
    && req.rid in h.rooms && AttachedTo(h.rooms[req.rid], req.reconnectCid, c)
    && req.check == ValidId && Proven(req)
  }

  predicate Alone(r: RoomState, cid: CID) {
    r.byCID.Keys == {cid}
  }

  /** Nobody is there any more, or the capability decides. */
  function SeatFate(r: RoomState, req: JoinRequest): Fate {
    if Alone(r, req.reconnectCid) then Founded
    else if ClientMax(req) < r.maxParticipants then Rejected
    else Admitted
  }

  /** What becomes of the room: it loses the participant, and then is founded anew, or
      admits the participant as a newcomer, or turns it away.  The host seat stays with
      the participant exactly if nobody else was there. */
  ghost predicate SeatGivenUp(r: RoomState, s: RoomState, req: JoinRequest) {
    var cid, fate := req.reconnectCid, SeatFate(r, req);
    && (s.host == cid <==> Alone(r, cid))
    && (forall f, t :: Dirtied(s.dirty, f, t) ==> f != cid && t != cid)
    && if fate.Founded? then s.id > r.id && s.byCID.Keys == {cid} && s.maxParticipants == 2
       else
         && s.id == r.id && s.maxParticipants == r.maxParticipants && (r.host != cid ==> s.host == r.host)
         && s.byCID.Keys == (if fate.Admitted? then r.byCID.Keys else r.byCID.Keys - {cid})
         && s.epoch == r.epoch + (if fate.Admitted? then 2 else 1)
         && forall o :: o in r.byCID && o != cid ==> s.byCID[o] == r.byCID[o]
  }

  /** The transports `to` are told of the room without `cid`. */
  ghost predicate ToldGone(sent: seq<Sent>, start: nat, to: set<ClientId>, rid: RID, id: nat, cid: CID) {
    exists i :: start <= i < |sent| && GoneMessage(sent[i], to, rid, id, cid)
  }

  predicate GoneMessage(m: Sent, to: set<ClientId>, rid: RID, id: nat, cid: CID) {
    && m.Sent? && m.to == to && m.body.RoomStateMsg? && m.body.rid == rid && m.body.id == id
    && cid !in m.body.snapshot.members && m.body.snapshot.host != cid
  }

  /** The answer: back as a recovered identity, or the capability does not suffice. */
  ghost predicate SeatAnswered(k: HubState, c: ClientId, r: RoomState, req: JoinRequest)
    requires req.rid in k.rooms
  {
    var s := k.rooms[req.rid];
    if SeatFate(r, req).Rejected? then AnsweredByError(k, c, RoomCapacityUnsupported)
    else Sent({c}, Joined(req.rid, s.id, Snap(s), req.reconnectCid, Recovered)) in k.sent
  }

  /** The participant leaves before it asks to come back: it is never reattached. */
  lemma OwnSeatGivenUp(h: HubState, c: ClientId, req: JoinRequest, newCid: CID, pick: CID, pick2: CID)
    requires Core(h) && AsksForOwnSeat(h, c, req) && newCid != NO_CID && newCid !in h.rooms[req.rid].byCID
    ensures
      var x, k := Arrival(h, c, req, pick), JoinMessage(h, c, req, newCid, pick, pick2);
      && c in h.clients && Reaches(AfterLeave(h, c, pick), req)
      && FateOf(x, req) == SeatFate(h.rooms[req.rid], req) && OutcomeOf(x, req) == Recovered
      && k == JoinRoom(x, c, req, newCid) && JoinReady(x, c, req, newCid)
      && req.rid in k.rooms && SeatGivenUp(h.rooms[req.rid], k.rooms[req.rid], req)
      && SeatAnswered(k, c, h.rooms[req.rid], req)
      && var r := h.rooms[req.rid];
         (!Alone(r, req.reconnectCid) ==>
            ToldGone(k.sent, |h.sent|, r.byClient.Keys - {c}, req.rid, r.id, req.reconnectCid))
  {
    hide Core, RoomInv, JoinRoom, JoinMessage, AfterLeave, HubQuiet, FateOf, FateRoom, SeatGivenUp, SeatFate, Alone;
    hide RemovedFrom;
    var rid, cid := req.rid, req.reconnectCid;
    TransportsOff(h, rid, cid, c);
    RoomOf(h, rid);
    LeftSeat(h, c, rid, cid, pick);
    JoinSplit(h, c, req, newCid, pick, pick2);
    var x := Arrival(h, c, req, pick);
    assert x == AfterLeave(h, c, pick);
    Agreed(x);
    JoinRooms(x, c, req, newCid);
    SeatAgain(h, x, c, req, newCid);
    AnswerIs(h.rooms[rid], x, c, req, newCid);
    if !Alone(h.rooms[rid], cid) {
      PeersTold(h, c, rid, cid, pick);
      var r, told := h.rooms[rid], JoinRoom(x, c, req, newCid).sent;
      ToldStays(x.sent, told, |h.sent|, r.byClient.Keys - {c}, rid, r.id, cid);
    }
  }

  lemma ToldStays(sent: seq<Sent>, more: seq<Sent>, start: nat, to: set<ClientId>, rid: RID, id: nat, cid: CID)
    requires ToldGone(sent, start, to, rid, id, cid) && sent <= more
    ensures ToldGone(more, start, to, rid, id, cid)
  {
    hide GoneMessage;
    var i :| start <= i < |sent| && GoneMessage(sent[i], to, rid, id, cid);
    assert more[i] == sent[i];
  }

  /** The room has its final capacity and no record of the participant. */
  ghost predicate Unmet(r: RoomState, v: RoomState, req: JoinRequest) {
    v.locked && v.maxParticipants == r.maxParticipants && req.reconnectCid !in v.byCID
  }

  lemma AnswerIs(r: RoomState, x: HubState, c: ClientId, req: JoinRequest, newCid: CID)
    requires JoinReady(x, c, req, newCid) && Proven(req) && OutcomeOf(x, req) == Recovered
    requires FateOf(x, req) == SeatFate(r, req) && (req.rid in x.rooms ==> Unmet(r, x.rooms[req.rid], req))
    ensures x.sent <= JoinRoom(x, c, req, newCid).sent
    ensures
      var k := JoinRoom(x, c, req, newCid);
      req.rid in k.rooms && SeatAnswered(k, c, r, req)
  {
    hide Core, JoinRoom, FateRoom, Snap, OutcomeOf, Unattached, AnsweredByError;
    JoinRooms(x, c, req, newCid);
    JoinAnswer(x, c, req, newCid);
    var k, done := JoinRoom(x, c, req, newCid), FateRoom(x, c, req, newCid);
    if FateOf(x, req).Rejected? {
      RejectedSends(x, c, req, newCid);
    } else {
      var answer := Sent({c}, Joined(req.rid, done.id, Snap(done), req.reconnectCid, Recovered));
      assert x.sent + [answer] <= k.sent;
      assert k.sent[|x.sent|] == answer;
    }
  }

  lemma RejectedSends(x: HubState, c: ClientId, req: JoinRequest, newCid: CID)
    requires FateOf(x, req).Rejected?
    ensures x.sent <= JoinRoom(x, c, req, newCid).sent
  {
    hide JoinRoom, FateOf, JoinNew, JoinExisting, Met;
    RejectedMeets(x, req);
    PresentRoom(x, c, req, newCid);
    NewcomerIs(x, c, req, newCid);
  }

  lemma RejectedMeets(x: HubState, req: JoinRequest)
    requires FateOf(x, req).Rejected?
    ensures req.rid in x.rooms && (req.reconnectCid != NO_CID ==> req.reconnectCid !in x.rooms[req.rid].byCID)
  {}

  lemma PeersTold(h: HubState, c: ClientId, rid: RID, cid: CID, pick: CID)
    requires Core(h) && rid in h.rooms && AttachedTo(h.rooms[rid], cid, c) && !Alone(h.rooms[rid], cid)
    ensures ToldGone(AfterLeave(h, c, pick).sent, |h.sent|, h.rooms[rid].byClient.Keys - {c}, rid, h.rooms[rid].id, cid)
  {
    hide Core, RoomInv, Remove, Settle, RemovedFrom, GoneMessage, Fits, Snap;
    TransportsOff(h, rid, cid, c);
    RoomOf(h, rid);
    OneFewer(h.rooms[rid].byCID, cid);
    TakeOutRoom(h, rid, cid, pick);
    var out := TakeOut(h, rid, cid, pick);
    var v := out.rooms[rid];
    SettleSends(out, rid);
    StillWithout(h, rid, cid, pick);
    var told := Settle(out, rid).sent;
    assert told[|h.sent|] == Sent(v.byClient.Keys, RoomStateMsg(rid, v.id, Snap(v)));
    assert GoneMessage(told[|h.sent|], v.byClient.Keys, rid, v.id, cid) by { GoneIs(v, rid, cid); }
  }

  lemma GoneIs(v: RoomState, rid: RID, cid: CID)
    requires cid !in v.byCID && v.host != cid
    ensures GoneMessage(Sent(v.byClient.Keys, RoomStateMsg(rid, v.id, Snap(v))), v.byClient.Keys, rid, v.id, cid)
  {}

  lemma StillWithout(h: HubState, rid: RID, cid: CID, pick: CID)
    requires Core(h) && rid in h.rooms && cid in h.rooms[rid].byCID && |h.rooms[rid].byCID| > 1
    ensures
      var v := Remove(h.rooms[rid], cid, pick, h.now);
      cid !in v.byCID && v.host != cid && v.id == h.rooms[rid].id
  {
    hide Core, RoomInv, Remove;
    RoomOf(h, rid);
    RemoveForgets(h.rooms[rid], cid, pick, h.limit, h.now);
  }

  lemma SettleSends(x: HubState, rid: RID)
    requires rid in x.rooms && x.rooms[rid].byCID != map[]
    ensures
      var r := x.rooms[rid];
      x.sent + [Sent(r.byClient.Keys, RoomStateMsg(rid, r.id, Snap(r)))] <= Settle(x, rid).sent
  {
    hide Snap, Status;
    StatusExtends(BroadcastState(x, rid), rid);
  }

  /** The room without the participant, with its capacity as it was. */
  ghost predicate Left(h: HubState, l: HubState, rid: RID, cid: CID)
    requires rid in h.rooms && cid in h.rooms[rid].byCID
  {
    && RemovedFrom(h, l, rid, cid) && l.tombstones == h.tombstones && l.nextRoom == h.nextRoom
    && (rid in l.rooms ==> && l.rooms[rid].maxParticipants == h.rooms[rid].maxParticipants
                           && l.rooms[rid].locked == h.rooms[rid].locked)
  }

  lemma LeftSeat(h: HubState, c: ClientId, rid: RID, cid: CID, pick: CID)
    requires Core(h) && rid in h.rooms && AttachedTo(h.rooms[rid], cid, c)
    ensures Left(h, AfterLeave(h, c, pick), rid, cid)
  {
    hide Core, RoomInv, Remove, Settle, RemovedFrom;
    TransportsOff(h, rid, cid, c);
    RoomOf(h, rid);
    var out := TakeOut(h, rid, cid, pick);
    RemovalRefines(h, out, rid, cid, pick);
    SettleIs(out, rid);
    RemovedCapacity(h.rooms[rid], cid, pick, h.now);
  }

  lemma RemovedCapacity(r: RoomState, cid: CID, pick: CID, now: int)
    requires cid in r.byCID
    ensures Remove(r, cid, pick, now).maxParticipants == r.maxParticipants
    ensures Remove(r, cid, pick, now).locked == r.locked
  {}

  lemma SeatAgain(h: HubState, x: HubState, c: ClientId, req: JoinRequest, newCid: CID)
    requires Core(h) && AsksForOwnSeat(h, c, req) && Left(h, x, req.rid, req.reconnectCid) && x.limit >= 2
    ensures FateOf(x, req) == SeatFate(h.rooms[req.rid], req) && OutcomeOf(x, req) == Recovered
    ensures SeatGivenUp(h.rooms[req.rid], FateRoom(x, c, req, newCid), req)
    ensures req.rid in x.rooms ==> Unmet(h.rooms[req.rid], x.rooms[req.rid], req)
  {
    hide Core, RoomInv, Indexed, Timed, Populated, Negotiated, Bounded, SeatGivenUp, FateRoom, Without;
    var rid, cid := req.rid, req.reconnectCid;
    var r := h.rooms[rid];
    RoomOf(h, rid);
    Parts(r, h.limit, h.now);
    OneFewer(r.byCID, cid);
    if rid in x.rooms {
      WithoutOne(r, x.rooms[rid], cid);
      assert Met(x.rooms[rid], ClientMax(req)) == x.rooms[rid];
      SeatAdmitted(r, x, c, req, newCid);
    } else {
      SeatFounded(r, x, c, req, newCid);
    }
  }

  lemma WithoutOne(r: RoomState, v: RoomState, cid: CID)
    requires Without(r, v, cid)
    ensures v.byCID == r.byCID - {cid}
  {}

  lemma SeatFounded(r: RoomState, x: HubState, c: ClientId, req: JoinRequest, newCid: CID)
    requires req.rid !in x.rooms && Proven(req) && Alone(r, req.reconnectCid) && r.id < x.nextRoom && x.limit >= 2
    ensures SeatGivenUp(r, FateRoom(x, c, req, newCid), req)
  {}

  lemma SeatAdmitted(r: RoomState, x: HubState, c: ClientId, req: JoinRequest, newCid: CID)
    requires req.rid in x.rooms && Proven(req) && req.reconnectCid in r.byCID && !Alone(r, req.reconnectCid)
    requires Populated(r) && Without(r, x.rooms[req.rid], req.reconnectCid)
    requires x.rooms[req.rid].maxParticipants == r.maxParticipants
    requires Met(x.rooms[req.rid], ClientMax(req)) == x.rooms[req.rid]
    requires FateOf(x, req) == SeatFate(r, req)
    ensures SeatGivenUp(r, FateRoom(x, c, req, newCid), req)
  {
    hide FateOf, Met;
    var v, cid := x.rooms[req.rid], req.reconnectCid;
    assert v.host != NO_CID && v.host != cid;
    if SeatFate(r, req).Admitted? {
      AdmittedAgain(r, v, cid, c, req.capability);
    }
  }

  lemma AdmittedAgain(r: RoomState, v: RoomState, cid: CID, c: ClientId, cap: Option<int>)
    requires cid in r.byCID && v.host != NO_CID && Without(r, v, cid)
    ensures
      var s := Complete(Attach(v, cid, c, cap), cid);
      && s.host == v.host && s.id == v.id && s.maxParticipants == v.maxParticipants && s.epoch == v.epoch + 1
      && s.byCID.Keys == r.byCID.Keys && (forall o :: o in r.byCID && o != cid ==> s.byCID[o] == r.byCID[o])
      && forall f, t :: Dirtied(s.dirty, f, t) ==> f != cid && t != cid
  {}

  // ----- the whole request --------------------------------------------------------------------------

  /** An authorized takeover with the join it was sent with: the new transport gets the
      seat, and the join takes it out of the seat again.  The participant is never
      reattached; it comes back as a recovered newcomer, in a new incarnation of the
      room if it was alone there, or not at all if its capability does not suffice.  It
      stays host exactly if it was alone, and otherwise its peers are told that it left. */
  lemma TakeoverGivesSeatUp(
      h: HubState, limit: int, at: int, sid: SID, req: JoinRequest, newCid: CID, pick: CID, pick2: CID)
    requires Reachable(h, limit) && h.now <= at && sid in h.pending && sid in h.bySID
    requires AsksForOwnSeat(h, h.bySID[sid], req) && newCid != NO_CID && newCid !in h.rooms[req.rid].byCID
    ensures Enabled(h, SseTakeover(sid), at)
    ensures
      var r, k, prev, next := h.rooms[req.rid], Step(h, SseTakeover(sid), at), h.bySID[sid], h.pending[sid];
      var e := Join(next, req, newCid, pick, pick2);
      && AsksForOwnSeat(k, next, req) && Snap(k.rooms[req.rid]) == Snap(r)
      && Enabled(k, e, at) && Meets(k, e, at, SeatFate(r, req))
      && var l := Step(k, e, at);
      && req.rid in l.rooms && SeatGivenUp(r, l.rooms[req.rid], req) && SeatAnswered(l, next, r, req)
      && (!Alone(r, req.reconnectCid) ==>
            ToldGone(l.sent, |h.sent|, r.byClient.Keys - {prev}, req.rid, r.id, req.reconnectCid))
  {
    hide Core, Reachable, RoomInv, SeatGivenUp, SeatAnswered, ToldGone, Snap, Step, Enabled, Meets, SeatFate, Alone;
    hide AsksForOwnSeat, AfterLeave, Arrival, Reaches, FateOf, JoinMessage, PromotePending;
    SameAsk(h, at, h.bySID[sid], req);
    ReachableCore(h, limit);
    ClockKeeps(h, at);
    TakeoverStep(h, sid, at);
    var k := Step(h, SseTakeover(sid), at);
    StepKeeps(h, SseTakeover(sid), at);
    HandsOverAndBack(h.(now := at), sid, req, newCid, pick, pick2);
    JoinsNow(k, h.pending[sid], req, newCid, pick, pick2, SeatFate(h.rooms[req.rid], req));
  }

  lemma SameAsk(h: HubState, at: int, c: ClientId, req: JoinRequest)
    ensures AsksForOwnSeat(h.(now := at), c, req) == AsksForOwnSeat(h, c, req)
    ensures AsksForOwnSeat(h, c, req) ==> req.rid in h.rooms
  {}

  lemma TakeoverStep(h: HubState, sid: SID, at: int)
    requires h.now <= at
    ensures Enabled(h, SseTakeover(sid), at) && Step(h, SseTakeover(sid), at) == PromotePending(h.(now := at), sid)
  {
    hide PromotePending;
  }

  lemma JoinsNow(k: HubState, c: ClientId, req: JoinRequest, newCid: CID, pick: CID, pick2: CID, fate: Fate)
    requires c in k.clients && newCid != NO_CID && (req.rid in k.rooms ==> newCid !in k.rooms[req.rid].byCID)
    requires Reaches(AfterLeave(k, c, pick), req) && FateOf(Arrival(k, c, req, pick), req) == fate
    ensures
      var e := Join(c, req, newCid, pick, pick2);
      && Enabled(k, e, k.now) && Meets(k, e, k.now, fate)
      && Step(k, e, k.now) == JoinMessage(k, c, req, newCid, pick, pick2)
  {
    hide JoinMessage, AfterLeave, Arrival, Reaches, FateOf;
    assert k.(now := k.now) == k;
  }

  lemma HandsOverAndBack(h: HubState, sid: SID, req: JoinRequest, newCid: CID, pick: CID, pick2: CID)
    requires Core(h) && sid in h.pending && sid in h.bySID && Core(PromotePending(h, sid))
    requires AsksForOwnSeat(h, h.bySID[sid], req) && newCid != NO_CID && newCid !in h.rooms[req.rid].byCID
    ensures
      var r, k, prev, next := h.rooms[req.rid], PromotePending(h, sid), h.bySID[sid], h.pending[sid];
      var l := JoinMessage(k, next, req, newCid, pick, pick2);
      && k.now == h.now && next in k.clients && AsksForOwnSeat(k, next, req) && Snap(k.rooms[req.rid]) == Snap(r)
      && newCid !in k.rooms[req.rid].byCID
      && Reaches(AfterLeave(k, next, pick), req) && FateOf(Arrival(k, next, req, pick), req) == SeatFate(r, req)
      && req.rid in l.rooms && SeatGivenUp(r, l.rooms[req.rid], req) && SeatAnswered(l, next, r, req)
      && (!Alone(r, req.reconnectCid) ==>
            ToldGone(l.sent, |h.sent|, r.byClient.Keys - {prev}, req.rid, r.id, req.reconnectCid))
  {
    hide Core, RoomInv, JoinMessage, PromotePending, SeatGivenUp, SeatAnswered, ToldGone, AfterLeave, Snap;
    hide Arrival, FateOf, SeatFate, Alone, JoinReady, JoinRoom, Reaches, OutcomeOf, Proven;
    SeatHandedOver(h, sid, req);
    var r, k, next := h.rooms[req.rid], PromotePending(h, sid), h.pending[sid];
    OwnSeatGivenUp(k, next, req, newCid, pick, pick2);
    var l := JoinMessage(k, next, req, newCid, pick, pick2);
    SameSeatGivenUp(r, k.rooms[req.rid], l, next, req);
    if !Alone(r, req.reconnectCid) {
      ToldSooner(l.sent, |h.sent|, |k.sent|, k.rooms[req.rid].byClient.Keys - {next}, req.rid, r.id, req.reconnectCid);
    }
  }

  /** The two rooms are the same but for the transport of the participant itself. */
  ghost predicate SameButTransport(r: RoomState, s: RoomState, cid: CID) {
    && s.id == r.id && s.host == r.host && s.epoch == r.epoch && s.maxParticipants == r.maxParticipants
    && s.byCID.Keys == r.byCID.Keys && (forall o :: o in r.byCID && o != cid ==> s.byCID[o] == r.byCID[o])
  }

  lemma SameSeatGivenUp(r: RoomState, s: RoomState, l: HubState, c: ClientId, req: JoinRequest)
    requires SameButTransport(r, s, req.reconnectCid) && req.rid in l.rooms
    requires SeatGivenUp(s, l.rooms[req.rid], req) && SeatAnswered(l, c, s, req)
    ensures SeatGivenUp(r, l.rooms[req.rid], req) && SeatAnswered(l, c, r, req)
    ensures SeatFate(r, req) == SeatFate(s, req) && (Alone(r, req.reconnectCid) <==> Alone(s, req.reconnectCid))
  {}

  lemma ToldSooner(sent: seq<Sent>, start: nat, later: nat, to: set<ClientId>, rid: RID, id: nat, cid: CID)
    requires ToldGone(sent, later, to, rid, id, cid) && start <= later
    ensures ToldGone(sent, start, to, rid, id, cid)
  {}

  lemma SeatHandedOver(h: HubState, sid: SID, req: JoinRequest)
    requires Core(h) && sid in h.pending && sid in h.bySID && AsksForOwnSeat(h, h.bySID[sid], req)
    ensures
      var k, prev, next := PromotePending(h, sid), h.bySID[sid], h.pending[sid];
      && k.now == h.now && AsksForOwnSeat(k, next, req)
      && SameButTransport(h.rooms[req.rid], k.rooms[req.rid], req.reconnectCid)
      && Snap(k.rooms[req.rid]) == Snap(h.rooms[req.rid])
      && k.rooms[req.rid].byClient.Keys - {next} == h.rooms[req.rid].byClient.Keys - {prev}
      && |k.sent| >= |h.sent|
  {
    hide Core, RoomInv, Replace, SwapTransport, Timed, Populated, CapacitySafe, Negotiated, Bounded, Snap;
    var prev, next, rid := h.bySID[sid], h.pending[sid], req.rid;
    RegisteredPair(h, sid);
    WaitingOne(h, sid);
    ReplaceFields(h, prev, next);
    TransportsOff(h, rid, req.reconnectCid, prev);
    RoomOf(h, rid);
    Parts(h.rooms[rid], h.limit, h.now);
    SwappedLooksSame(h.rooms[rid], prev, next);
    NotYetAttached(h, rid, next);
    SwappedOne(h.rooms[rid], prev, next);
    SendsTakeover(h, prev, next);
  }

  lemma NotYetAttached(h: HubState, rid: RID, c: ClientId)
    requires Core(h) && rid in h.rooms && c !in h.clients
    ensures c !in h.rooms[rid].byClient
  {
    hide Core, RoomInv;
    if c in h.rooms[rid].byClient {
      AttachedRecord(h, rid, c);
    }
  }

  lemma SwappedOne(r: RoomState, prev: ClientId, next: ClientId)
    requires Indexed(r) && prev in r.byClient && next !in r.byClient
    ensures
      var s, cid := SwapTransport(r, prev, next), r.byClient[prev];
      && SameButTransport(r, s, cid) && AttachedTo(s, cid, next)
      && s.byClient.Keys - {next} == r.byClient.Keys - {prev}
  {
    assert AttachedTo(r, r.byClient[prev], prev);
  }

  lemma SendsTakeover(h: HubState, prev: ClientId, next: ClientId)
    ensures |Replace(h, prev, next).sent| >= |h.sent|
  {
    hide SwapTransport, Rewatch;
  }

  // ----- it happens ------------------------------------------------------------------------------------

  /** A validly tokened reconnect with room for four. */
  function Returning(rid: RID, cid: CID): JoinRequest {
    JoinRequest(rid, ValidId, cid, true, TokenOk, 4, Some(4))
  }

  /** Every room name and every two members: a reachable state in which a takeover and its
      join leave the same two members, and the host seat with the other one. */
  lemma TakeoverLosesHost(rid: RID, a: CID, b: CID) returns (h: HubState, sid: SID, newCid: CID)
    requires rid != NO_RID && a != NO_CID && b != NO_CID && a != b
    ensures Reachable(h, 4) && sid in h.pending && sid in h.bySID
    ensures rid in h.rooms && h.rooms[rid].host == a && h.rooms[rid].byCID.Keys == {a, b}
    ensures Enabled(h, SseTakeover(sid), h.now)
    ensures
      var k, e := Step(h, SseTakeover(sid), h.now), Join(h.pending[sid], Returning(rid, a), newCid, NO_CID, NO_CID);
      && Enabled(k, e, h.now)
      && var l := Step(k, e, h.now);
      && rid in l.rooms && l.rooms[rid].id == h.rooms[rid].id
      && l.rooms[rid].byCID.Keys == {a, b} && l.rooms[rid].host == b
  {
    hide Core, Reachable, Step, Enabled, Meets, SeatAnswered, ToldGone, Snap;
    h, sid := WaitingTakeover(rid, a, b);
    NewName(a, b);
    newCid := CID("x" + a.name + b.name);
    TakeoverGivesSeatUp(h, 4, h.now, sid, Returning(rid, a), newCid, NO_CID, NO_CID);
    var k, e := Step(h, SseTakeover(sid), h.now), Join(h.pending[sid], Returning(rid, a), newCid, NO_CID, NO_CID);
    ReachableStep(h, 4, SseTakeover(sid), h.now);
    TakeoverStep(h, sid, h.now);
    ReachableStep(k, 4, e, h.now);
    HostIsMember(Step(k, e, h.now), rid);
  }

  lemma HostIsMember(h: HubState, rid: RID)
    requires Reachable(h, 4) && rid in h.rooms
    ensures h.rooms[rid].host in h.rooms[rid].byCID.Keys
  {
    hide Core, Reachable, RoomInv, Indexed, Timed, CapacitySafe, Negotiated, Bounded;
    ReachableCore(h, 4);
    RoomOf(h, rid);
    Parts(h.rooms[rid], h.limit, h.now);
  }

  /** The host's stream is opened a second time. */
  lemma WaitingTakeover(rid: RID, a: CID, b: CID) returns (h: HubState, sid: SID)
    requires rid != NO_RID && a != NO_CID && b != NO_CID && a != b
    ensures Reachable(h, 4) && sid in h.pending && sid in h.bySID && AsksForOwnSeat(h, h.bySID[sid], Returning(rid, a))
    ensures h.rooms[rid].host == a && h.rooms[rid].byCID.Keys == {a, b} && h.rooms[rid].maxParticipants == 4
  {
    hide Core, Reachable, Enabled, Step;
    var l := TwoInReached(rid, a, b);
    ReachableCore(l, 4);
    AttachedRecord(l, rid, 0);
    RoomOf(l, rid);
    sid := SidOf(l, 0);
    var c := FreshId(l.info.Keys);
    Reopened(l, c, sid);
    ReachableStep(l, 4, SseConnect(c, sid), l.now);
    h := Step(l, SseConnect(c, sid), l.now);
  }

  lemma SidOf(h: HubState, c: ClientId) returns (sid: SID)
    requires Core(h) && c in h.clients
    ensures sid in h.bySID && h.bySID[sid] == c
  {
    hide RoomsSound;
    sid := h.info[c].sid;
  }

  lemma Reopened(h: HubState, c: ClientId, sid: SID)
    requires c !in h.info && sid in h.bySID && Info(h, h.bySID[sid]).rid != NO_RID && h.bySID[sid] in h.info
    ensures Enabled(h, SseConnect(c, sid), h.now)
    ensures
      var k := Step(h, SseConnect(c, sid), h.now);
      k.rooms == h.rooms && k.bySID == h.bySID && k.pending == h.pending[sid := c]
  {}

  lemma {:induction false} FreshId(taken: set<ClientId>) returns (c: ClientId)
    ensures c !in taken && forall d :: d in taken ==> d < c
  {
    if taken == {} {
      c := 0;
    } else {
      var d :| d in taken;
      var rest := FreshId(taken - {d});
      c := if rest <= d then d + 1 else rest;
      forall e | e in taken
        ensures e < c
      {
        assert e == d || e in taken - {d};
      }
    }
  }
}
