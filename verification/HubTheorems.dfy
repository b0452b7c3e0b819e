/** What the server promises, over every run from the empty hub. */
module HubTheorems {
  import opened Wrappers
  import opened SignalingTypes
  import opened RoomSpec
  import opened RoomInvariant
  import opened HubSpec
  import opened HubInvariant
  import opened HubSteps
  import opened RoomHistory

  /** `h` is the state of a server with this participant limit after some run. */
  ghost predicate Reachable(h: HubState, limit: int) {
    exists events: seq<(Event, int)> :: Run(Init(limit), events) && h == After(Init(limit), events)
  }

  lemma ReachableCore(h: HubState, limit: int)
    requires Reachable(h, limit)
    ensures Core(h) && h.limit == Max(2, limit)
  {
    var events: seq<(Event, int)> :| Run(Init(limit), events) && h == After(Init(limit), events);
    InitKeeps(limit);
    RunKeeps(Init(limit), events);
    RunGrows(Init(limit), events);
    hide Core, Run, After;
  }

  // ----- attachments and authority ---------------------------------------------------

  /** The room indexes, the transports' own fields and the session index agree, and
      a transport sits in one room only. */
  lemma AttachmentCoherence(h: HubState, limit: int)
    requires Reachable(h, limit)
    ensures forall rid, c :: rid in h.rooms && c in h.rooms[rid].byClient ==>
              && c in h.clients && c in h.info
              && h.info[c].rid == rid && h.info[c].cid == h.rooms[rid].byClient[c]
              && AttachedTo(h.rooms[rid], h.info[c].cid, c)
    ensures forall rid, cid, c :: rid in h.rooms && AttachedTo(h.rooms[rid], cid, c) ==>
              c in h.rooms[rid].byClient && h.rooms[rid].byClient[c] == cid
    ensures forall c :: c in h.clients ==> c in h.info && h.info[c].sid in h.bySID && h.bySID[h.info[c].sid] == c
    ensures forall s :: s in h.bySID ==> h.bySID[s] in h.clients && h.bySID[s] in h.info && h.info[h.bySID[s]].sid == s
  {
    hide Core, RoomInv, Reachable, AttachmentsAgree;
    ReachableCore(h, limit);
    Agreed(h);
    assert forall rid, c :: rid in h.rooms && c in h.rooms[rid].byClient ==>
             && c in h.clients && c in h.info
             && h.info[c].rid == rid && h.info[c].cid == h.rooms[rid].byClient[c]
             && AttachedTo(h.rooms[rid], h.info[c].cid, c) by {
      hide Registered;
      forall rid, c | rid in h.rooms && c in h.rooms[rid].byClient
        ensures c in h.clients && c in h.info && h.info[c].rid == rid && h.info[c].cid == h.rooms[rid].byClient[c]
        ensures AttachedTo(h.rooms[rid], h.info[c].cid, c)
      {
        AttachedRecord(h, rid, c);
        AttachedInfo(h, rid, c);
      }
    }
    forall rid, cid, c | rid in h.rooms && AttachedTo(h.rooms[rid], cid, c)
      ensures c in h.rooms[rid].byClient && h.rooms[rid].byClient[c] == cid
    {
      TransportsOff(h, rid, cid, c);
    }
  }

  ghost predicate Attached(h: HubState, c: ClientId) {
    exists rid :: rid in h.rooms && c in h.rooms[rid].byClient
  }

  /** isActiveParticipant */
  predicate IsActiveParticipant(h: HubState, c: ClientId) {
    var rid, cid := Info(h, c).rid, Info(h, c).cid;
    && rid != NO_RID && cid != NO_CID && rid in h.rooms
    && c in h.rooms[rid].byClient && h.rooms[rid].byClient[c] == cid
  }

  /** The check of handleMediaState, by the client's own fields and the record. */
  predicate MediaStateAccepts(h: HubState, c: ClientId) {
    var rid, cid := Info(h, c).rid, Info(h, c).cid;
    rid != NO_RID && cid != NO_CID && rid in h.rooms && AttachedTo(h.rooms[rid], cid, c)
  }

  /** The check of handleRelay, by the index alone. */
  predicate RelayAccepts(h: HubState, c: ClientId) {
    var rid := Info(h, c).rid;
    rid != NO_RID && rid in h.rooms && c in h.rooms[rid].byClient
  }

  /** The check of handleEndRoom. */
  predicate EndRoomAccepts(h: HubState, c: ClientId) {
    RelayAccepts(h, c) && h.rooms[Info(h, c).rid].byClient[c] == h.rooms[Info(h, c).rid].host
  }

  /** The four authority checks accept exactly the attached transports, the last
      one those of them that are host. */
  lemma AuthorityChecksAgree(h: HubState, limit: int, c: ClientId)
    requires Reachable(h, limit)
    ensures
      && (IsActiveParticipant(h, c) <==> Attached(h, c))
      && (MediaStateAccepts(h, c) <==> Attached(h, c))
      && (RelayAccepts(h, c) <==> Attached(h, c))
      && (EndRoomAccepts(h, c) <==> exists rid :: rid in h.rooms && AttachedTo(h.rooms[rid], h.rooms[rid].host, c))
  {
    hide Core, RoomInv, Reachable;
    ReachableCore(h, limit);
    var rid := Info(h, c).rid;
    if Attached(h, c) {
      var r :| r in h.rooms && c in h.rooms[r].byClient;
      AttachedRecord(h, r, c);
      RoomOf(h, r);
      assert r == rid;
    }
    if MediaStateAccepts(h, c) {
      TransportsOff(h, rid, Info(h, c).cid, c);
    }
    if r :| r in h.rooms && AttachedTo(h.rooms[r], h.rooms[r].host, c) {
      TransportsOff(h, r, h.rooms[r].host, c);
    }
  }

  // ----- timers and capacity ------------------------------------------------------------

  /** A record has an eviction timer and a suspension stamp exactly when it has no
      transport; the no-active timer runs exactly when no transport is attached. */
  lemma TimersCoverExactly(h: HubState, limit: int, rid: RID)
    requires Reachable(h, limit) && rid in h.rooms
    ensures
      var r := h.rooms[rid];
      && (forall cid :: cid in r.byCID ==>
            && (r.byCID[cid].client.None? <==> r.byCID[cid].evictAt.Some?)
            && (r.byCID[cid].client.None? <==> r.byCID[cid].suspendedAt != 0))
      && (r.idleAt.Some? <==> forall cid :: cid in r.byCID ==> r.byCID[cid].client.None?)
  {
    hide Core, RoomInv, Reachable, Negotiated, CapacitySafe, Bounded, Populated;
    ReachableCore(h, limit);
    RoomOf(h, rid);
    Parts(h.rooms[rid], h.limit, h.now);
    var r := h.rooms[rid];
    if r.byClient != map[] {
      var c :| c in r.byClient;
      assert AttachedTo(r, r.byClient[c], c);
    }
  }

  /** Every room stays within its creator's request and the server's ceiling; an
      unlocked room has one member and room for two; every member declared, when it
      was first admitted, a capability no smaller than the capacity the room ends with. */
  lemma CapacitySafety(h: HubState, limit: int, rid: RID)
    requires Reachable(h, limit) && rid in h.rooms
    ensures
      var r := h.rooms[rid];
      var size := if r.locked then r.maxParticipants else r.requestedMax;
      && 2 <= r.maxParticipants <= r.requestedMax <= (if limit < 2 then 2 else limit)
      && 1 <= |r.byCID| <= r.maxParticipants
      && (!r.locked ==> |r.byCID| == 1 && r.maxParticipants == 2)
      && (forall cid :: cid in r.byCID ==> size <= 2 || (r.byCID[cid].cap.Some? && r.byCID[cid].cap.value >= size))
  {
    hide Core, RoomInv, Reachable, Negotiated, Indexed, Timed, Bounded, Populated;
    ReachableCore(h, limit);
    RoomOf(h, rid);
    Parts(h.rooms[rid], h.limit, h.now);
  }

  /** The join of `e` reached a room and had this fate there. */
  ghost predicate Meets(h: HubState, e: Event, at: int, fate: Fate) {
    && e.Join? && e.c in h.clients
    && Reaches(AfterLeave(h.(now := at), e.c, e.pick), e.req)
    && FateOf(Arrival(h.(now := at), e.c, e.req, e.pick), e.req) == fate
  }

  /** A capacity is locked by an accepted join and by nothing else, and stays what it was locked to. */
  lemma OnlyAcceptedJoinsLock(h: HubState, e: Event, at: int, rid: RID)
    requires Core(h) && Enabled(h, e, at)
    requires rid in h.rooms && rid in Step(h, e, at).rooms && h.rooms[rid].id == Step(h, e, at).rooms[rid].id
    ensures
      var r, s := h.rooms[rid], Step(h, e, at).rooms[rid];
      && s.requestedMax == r.requestedMax
      && (r.locked ==> s.locked && s.maxParticipants == r.maxParticipants)
      && (s.locked && !r.locked ==>
            && e.Join? && e.req.rid == rid && Meets(h, e, at, Admitted)
            && s.maxParticipants == Min(ClientMax(e.req), r.requestedMax))
  {
    hide Core, Step, Enabled, RoomInv;
    StepGrows(h, e, at);
    RoomOf(h, rid);
    if Step(h, e, at).rooms[rid].locked && !h.rooms[rid].locked {
      if !e.Join? {
        StepQuiet(h, e, at);
      } else {
        LockingJoin(h, e, at, rid);
      }
    }
  }

  lemma LockingJoin(h: HubState, e: Event, at: int, rid: RID)
    requires Core(h) && Enabled(h, e, at) && e.Join?
    requires rid in h.rooms && rid in Step(h, e, at).rooms && h.rooms[rid].id == Step(h, e, at).rooms[rid].id
    requires Step(h, e, at).rooms[rid].locked && !h.rooms[rid].locked
    ensures e.req.rid == rid && Meets(h, e, at, Admitted)
    ensures Step(h, e, at).rooms[rid].maxParticipants == Min(ClientMax(e.req), h.rooms[rid].requestedMax)
  {
    hide Core, RoomInv, JoinRoom, JoinMessage, AfterLeave, Arrival, Enabled;
    var n := h.(now := at);
    Promised(h, e, at);
    ClockKeeps(h, at);
    RoomOf(h, rid);
    if e.c in h.clients {
      JoinSplit(n, e.c, e.req, e.newCid, e.pick, e.pick2);
      var x := Arrival(n, e.c, e.req, e.pick);
      if Reaches(AfterLeave(n, e.c, e.pick), e.req) {
        JoinRooms(x, e.c, e.req, e.newCid);
        if rid == e.req.rid {
          FateLocks(x, e.c, e.req, e.newCid);
          if rid in x.rooms {
            RequestedCapacity(x, rid);
          }
        }
      }
    }
  }

  lemma FateLocks(h: HubState, c: ClientId, req: JoinRequest, newCid: CID)
    ensures req.rid in h.rooms && !FateOf(h, req).Admitted? ==>
              FateRoom(h, c, req, newCid).locked == h.rooms[req.rid].locked
    ensures req.rid !in h.rooms ==> FateRoom(h, c, req, newCid).id == h.nextRoom
    ensures
      req.rid in h.rooms && FateOf(h, req).Admitted? && !h.rooms[req.rid].locked ==>
        var r, s := h.rooms[req.rid], FateRoom(h, c, req, newCid);
        s.locked ==> s.maxParticipants == Min(ClientMax(req), Max(2, r.requestedMax))
  {}

  lemma RequestedCapacity(h: HubState, rid: RID)
    requires Core(h) && rid in h.rooms
    ensures 2 <= h.rooms[rid].requestedMax
  {
    hide Core, RoomInv, Negotiated, Indexed, Timed, Bounded, Populated;
    RoomOf(h, rid);
    Parts(h.rooms[rid], h.limit, h.now);
  }

  function OutcomeOf(h: HubState, req: JoinRequest): Outcome {
    if FateOf(h, req).Rejoined? then Reattached else if Proven(req) then Recovered else Fresh
  }

  /** The answer tells the fate: an accepted join is answered by `joined` with the
      new room state, any other one by an error. */
  lemma JoinAnswer(h: HubState, c: ClientId, req: JoinRequest, newCid: CID)
    requires JoinReady(h, c, req, newCid)
    ensures
      var k, done := JoinRoom(h, c, req, newCid), FateRoom(h, c, req, newCid);
      if Accepted(FateOf(h, req))
      then h.sent + [Sent({c}, Joined(req.rid, done.id, Snap(done), Seat(h, req, newCid), OutcomeOf(h, req)))] <= k.sent
      else AnsweredByError(k, c, RefusalCode(h, req))
  {
    hide Core, RoomInv, Complete, Attach, TakeSlot, Park, JoinExisting, JoinNew, Snap, AnsweredByError;
    if req.rid !in h.rooms {
      Agreed(h);
      FoundingAnswers(h, c, req, newCid);
    } else if req.reconnectCid != NO_CID && req.reconnectCid in h.rooms[req.rid].byCID {
      ExistingAnswers(h, c, req);
    } else {
      NewcomerAnswers(h, c, req, newCid);
    }
  }

  predicate AnsweredByError(k: HubState, c: ClientId, code: ErrorCode) {
    |k.sent| > 0 && k.sent[|k.sent| - 1] == Sent({c}, Error(code))
  }

  /** A join that meets no record fails for its capability first, then for the room's size. */
  function RefusalCode(h: HubState, req: JoinRequest): ErrorCode
    requires req.rid in h.rooms
  {
    if FateOf(h, req).Refused? || ClientMax(req) < Met(h.rooms[req.rid], ClientMax(req)).maxParticipants
    then RoomCapacityUnsupported else RoomFull
  }

  lemma FoundingAnswers(h: HubState, c: ClientId, req: JoinRequest, newCid: CID)
    requires req.rid !in h.rooms && h.limit >= 2
    ensures
      var k, done := JoinRoom(h, c, req, newCid), FateRoom(h, c, req, newCid);
      h.sent + [Sent({c}, Joined(req.rid, done.id, Snap(done), Seat(h, req, newCid), OutcomeOf(h, req)))] <= k.sent
  {
    hide Complete, Attach, Admit, JoinRoom, Snap;
    FoundingIs(h, c, req, newCid);
    var cid := Seat(h, req, newCid);
    var n := NewRoom(h.nextRoom, CreateMax(req, h.limit));
    AdmitAnswers(Claim(PutRoom(h.(nextRoom := h.nextRoom + 1), req.rid, n), c, cid, req.rid), c, req.rid,
                 Attach(n, cid, c, req.capability), cid, OutcomeOf(h, req));
  }

  lemma AdmitAnswers(h: HubState, c: ClientId, rid: RID, r: RoomState, cid: CID, outcome: Outcome)
    ensures
      var k := Admit(h, c, rid, r, cid, outcome);
      h.sent + [Sent({c}, Joined(rid, Complete(r, cid).id, Snap(Complete(r, cid)), cid, outcome))] <= k.sent
  {
    hide Complete, Snap, Status, StateTo;
    var done := Complete(r, cid);
    var h1 := PutRoom(h, rid, done).(tombstones := h.tombstones - {rid});
    var h2 := Send(h1, {c}, Joined(rid, done.id, Snap(done), cid, outcome));
    StateExtends(h2, rid, {c});
    var h3 := BroadcastState(StateTo(h2, rid, {c}), rid);
    StateExtends(StateTo(h2, rid, {c}), rid, StateTo(h2, rid, {c}).rooms[rid].byClient.Keys);
    var partners := DirtyPartners(r.dirty, cid);
    var h4 := if partners != {} then Send(h3, TransportsOf(done, partners), NegotiationDirty(cid)) else h3;
    StatusExtends(h4, rid);
  }

  lemma StateExtends(h: HubState, rid: RID, to: set<ClientId>)
    requires rid in h.rooms
    ensures h.sent <= StateTo(h, rid, to).sent && StateTo(h, rid, to).rooms == h.rooms
  {}

  lemma StatusExtends(h: HubState, rid: RID)
    ensures h.sent <= Status(h, rid).sent
  {}

  lemma ExistingAnswers(h: HubState, c: ClientId, req: JoinRequest)
    requires req.rid in h.rooms && req.reconnectCid != NO_CID && req.reconnectCid in h.rooms[req.rid].byCID
    ensures
      var k, r := JoinExisting(h, c, req), h.rooms[req.rid];
      var done := Complete(TakeSlot(r, req.reconnectCid, c), req.reconnectCid);
      if ClientMax(req) < r.maxParticipants
      then AnsweredByError(k, c, RoomCapacityUnsupported)
      else h.sent + [Sent({c}, Joined(req.rid, done.id, Snap(done), req.reconnectCid, Reattached))] <= k.sent
  {
    hide Complete, TakeSlot, Park, Admit, EvictGhost, Snap;
    var rid, cid, r := req.rid, req.reconnectCid, h.rooms[req.rid];
    TakenClients(r, cid, c);
    var claimed, taken, former := Claim(h, c, cid, rid), TakeSlot(r, cid, c), r.byCID[cid].client;
    if ClientMax(req) < r.maxParticipants {
      GhostRooms(PutRoom(claimed, rid, Park(taken, cid, h.now)), former);
    } else {
      GhostRooms(PutRoom(claimed, rid, taken), former);
      AdmitAnswers(EvictGhost(PutRoom(claimed, rid, taken), former), c, rid, taken, cid, Reattached);
    }
  }

  lemma NewcomerAnswers(h: HubState, c: ClientId, req: JoinRequest, newCid: CID)
    requires Core(h) && req.rid in h.rooms
    requires req.reconnectCid != NO_CID ==> req.reconnectCid !in h.rooms[req.rid].byCID
    ensures
      var k, done := JoinNew(h, c, req, newCid), FateRoom(h, c, req, newCid);
      var cid := if Proven(req) then req.reconnectCid else newCid;
      if FateOf(h, req).Admitted?
      then
        var answer := Joined(req.rid, done.id, Snap(done), cid, if Proven(req) then Recovered else Fresh);
        h.sent + [Sent({c}, answer)] <= k.sent
      else AnsweredByError(k, c, RefusalCode(h, req))
  {
    hide Core, RoomInv, Complete, Attach, Admit, Fits, Snap;
    var rid := req.rid;
    MetKeeps(h, rid, ClientMax(req));
    var r := Met(h.rooms[rid], ClientMax(req));
    var cid := if Proven(req) then req.reconnectCid else newCid;
    AdmitAnswers(Claim(PutRoom(h, rid, r), c, cid, rid), c, rid, Attach(r, cid, c, req.capability), cid,
                 if Proven(req) then Recovered else Fresh);
  }

  // ----- the epoch ------------------------------------------------------------------------

  /** The epoch versions membership: between any two moments of a run, a room that is
      still the same one has kept its members, host and capacity or moved to a larger epoch. */
  lemma EpochVersionsMembership(h: HubState, limit: int, events: seq<(Event, int)>, rid: RID)
    requires Reachable(h, limit) && Run(h, events)
    requires rid in h.rooms && rid in After(h, events).rooms && After(h, events).rooms[rid].id == h.rooms[rid].id
    ensures
      var r, s := h.rooms[rid], After(h, events).rooms[rid];
      && s.epoch >= r.epoch
      && (s.epoch == r.epoch ==>
            s.byCID.Keys == r.byCID.Keys && s.host == r.host && s.maxParticipants == r.maxParticipants)
  {
    hide Core, RoomInv, Reachable, Run, After;
    ReachableCore(h, limit);
    RunGrows(h, events);
    RoomOf(h, rid);
  }

  /** Who is suspended is versioned as well, with one exception: a refused reconnect to
      a member that still had a transport suspends it under the same epoch. */
  lemma SuspensionsVersioned(h: HubState, e: Event, at: int, rid: RID)
    requires Core(h) && Enabled(h, e, at)
    requires rid in h.rooms && rid in Step(h, e, at).rooms
    requires Step(h, e, at).rooms[rid].id == h.rooms[rid].id && Step(h, e, at).rooms[rid].epoch == h.rooms[rid].epoch
    ensures
      var r, s := h.rooms[rid], Step(h, e, at).rooms[rid];
      SuspendedCIDs(s) != SuspendedCIDs(r)
      <==> && Meets(h, e, at, Refused) && e.req.rid == rid
           && e.req.reconnectCid in r.byCID && r.byCID[e.req.reconnectCid].client.Some?
  {
    hide Core, Enabled, Step;
    if e.Join? {
      JoinVersions(h, e, at, rid);
    } else {
      StepQuiet(h, e, at);
    }
  }

  lemma JoinVersions(h: HubState, e: Event, at: int, rid: RID)
    requires Core(h) && Enabled(h, e, at) && e.Join?
    requires rid in h.rooms && rid in Step(h, e, at).rooms
    requires Step(h, e, at).rooms[rid].id == h.rooms[rid].id && Step(h, e, at).rooms[rid].epoch == h.rooms[rid].epoch
    ensures
      var r, s := h.rooms[rid], Step(h, e, at).rooms[rid];
      SuspendedCIDs(s) != SuspendedCIDs(r)
      <==> && Meets(h, e, at, Refused) && e.req.rid == rid
           && e.req.reconnectCid in r.byCID && r.byCID[e.req.reconnectCid].client.Some?
  {
    hide Core, RoomInv, JoinRoom, JoinMessage, AfterLeave, Arrival, Enabled, FateRoom, SuspendedCIDs;
    var n := h.(now := at);
    Promised(h, e, at);
    ClockKeeps(h, at);
    RoomOf(h, rid);
    if e.c in h.clients {
      JoinSplit(n, e.c, e.req, e.newCid, e.pick, e.pick2);
      var x := Arrival(n, e.c, e.req, e.pick);
      if Reaches(AfterLeave(n, e.c, e.pick), e.req) {
        JoinRooms(x, e.c, e.req, e.newCid);
        if e.req.rid == rid {
          FateVersions(x, e.c, e.req, e.newCid);
          if rid in x.rooms {
            FateGrows(x, e.c, e.req, e.newCid);
            SameStatus(h.rooms[rid], x.rooms[rid], e.req.reconnectCid);
          }
        }
      }
    }
  }

  lemma SameStatus(r: RoomState, s: RoomState, cid: CID)
    requires SuspendedCIDs(s) == SuspendedCIDs(r) && s.byCID.Keys == r.byCID.Keys
    ensures cid in r.byCID && r.byCID[cid].client.Some? <==> cid in s.byCID && s.byCID[cid].client.Some?
  {
    assert cid in SuspendedCIDs(s) <==> cid in SuspendedCIDs(r);
  }

  lemma FateVersions(h: HubState, c: ClientId, req: JoinRequest, newCid: CID)
    ensures req.rid !in h.rooms ==> FateRoom(h, c, req, newCid).id == h.nextRoom
    ensures
      req.rid in h.rooms && FateRoom(h, c, req, newCid).epoch == h.rooms[req.rid].epoch ==>
        var r, s := h.rooms[req.rid], FateRoom(h, c, req, newCid);
        SuspendedCIDs(s) != SuspendedCIDs(r)
        <==> FateOf(h, req).Refused? && req.reconnectCid in r.byCID && r.byCID[req.reconnectCid].client.Some?
  {
    if FateOf(h, req).Refused? {
      var r, s, cid := h.rooms[req.rid], FateRoom(h, c, req, newCid), req.reconnectCid;
      assert SuspendedCIDs(s) == SuspendedCIDs(r) + {cid};
      assert cid in SuspendedCIDs(r) <==> r.byCID[cid].client.None?;
    }
  }

  // ----- tombstones ---------------------------------------------------------------------------

  /** An ended room: not in the hub, and remembered until `until`. */
  predicate Ended(h: HubState, rid: RID, until: int) {
    rid !in h.rooms && rid in h.tombstones && h.tombstones[rid] == until
  }

  lemma TombstonesApart(h: HubState, limit: int)
    requires Reachable(h, limit)
    ensures h.rooms.Keys !! h.tombstones.Keys
  {
    ReachableCore(h, limit);
    hide RoomsSound, Registered, Waiting, AttachmentsAgree, Reachable;
  }

  /** The host's end_room removes the room and remembers it for five minutes. */
  lemma EndRoomEnds(h: HubState, c: ClientId, at: int)
    requires h.now <= at && c in h.clients && EndRoomAccepts(h, c)
    ensures Enabled(h, End(c), at) && Ended(Step(h, End(c), at), Info(h, c).rid, at + ROOM_TOMBSTONE_TTL)
  {}

  /** The join of this event was accepted into this room. */
  ghost predicate AcceptedInto(h: HubState, e: Event, at: int, rid: RID) {
    && e.Join? && e.req.rid == rid && e.c in h.clients
    && Reaches(AfterLeave(h.(now := at), e.c, e.pick), e.req)
    && Accepted(FateOf(Arrival(h.(now := at), e.c, e.req, e.pick), e.req))
  }

  /** While its tombstone lives, an ended room comes back only by an accepted join. */
  lemma EndedStays(h: HubState, e: Event, at: int, rid: RID, until: int)
    requires Core(h) && Enabled(h, e, at) && Ended(h, rid, until) && at <= until
    requires !AcceptedInto(h, e, at, rid)
    ensures Ended(Step(h, e, at), rid, until)
  {
    hide Core, Enabled, Step;
    if e.Join? {
      EndedStaysJoin(h, e, at, rid, until);
    } else {
      StepQuiet(h, e, at);
    }
  }

  lemma EndedStaysJoin(h: HubState, e: Event, at: int, rid: RID, until: int)
    requires Core(h) && Enabled(h, e, at) && Ended(h, rid, until) && at <= until && e.Join?
    requires !AcceptedInto(h, e, at, rid)
    ensures Ended(Step(h, e, at), rid, until)
  {
    hide Core, Quiet, JoinRoom, JoinMessage, AfterLeave, Arrival, Enabled, FateRoom;
    var n := h.(now := at);
    Promised(h, e, at);
    ClockKeeps(h, at);
    if e.c in h.clients {
      JoinSplit(n, e.c, e.req, e.newCid, e.pick, e.pick2);
      var x := Arrival(n, e.c, e.req, e.pick);
      if Reaches(AfterLeave(n, e.c, e.pick), e.req) {
        JoinRooms(x, e.c, e.req, e.newCid);
      }
    }
  }

  /** No event of the run is a join accepted into the room. */
  ghost predicate NoneAccepted(h: HubState, events: seq<(Event, int)>, rid: RID)
    requires Run(h, events)
    decreases |events|
  {
    events == []
    || (!AcceptedInto(h, events[0].0, events[0].1, rid)
        && NoneAccepted(Step(h, events[0].0, events[0].1), events[1..], rid))
  }

  /** From end_room on, until a join is accepted or five minutes have passed, the
      room is out of the hub and its tombstone in place, whatever happens. */
  lemma {:induction false} EndedThroughout(h: HubState, events: seq<(Event, int)>, rid: RID, until: int)
    requires Core(h) && Run(h, events) && Ended(h, rid, until) && NoneAccepted(h, events, rid)
    requires After(h, events).now <= until
    ensures Ended(After(h, events), rid, until)
    decreases |events|
  {
    hide Core, Step, Enabled, Ended, AcceptedInto;
    if events != [] {
      var e, at := events[0].0, events[0].1;
      var k := Step(h, e, at);
      StepKeeps(h, e, at);
      ClockAdvances(k, events[1..]);
      StepTime(h, e, at);
      EndedStays(h, e, at, rid, until);
      EndedThroughout(k, events[1..], rid, until);
    }
  }

  lemma StepTime(h: HubState, e: Event, at: int)
    requires Core(h) && Enabled(h, e, at)
    ensures Step(h, e, at).now == at
  {
    hide Core, Enabled, Step, Quiet;
    if !e.Join? {
      StepQuiet(h, e, at);
    } else {
      JoinTime(h, e, at);
    }
  }

  lemma JoinTime(h: HubState, e: Event, at: int)
    requires Core(h) && Enabled(h, e, at) && e.Join?
    ensures Step(h, e, at).now == at
  {
    hide Core, Quiet, JoinRoom, JoinMessage, AfterLeave, Arrival, Enabled, FateRoom;
    var n := h.(now := at);
    Promised(h, e, at);
    ClockKeeps(h, at);
    if e.c in h.clients {
      JoinSplit(n, e.c, e.req, e.newCid, e.pick, e.pick2);
      if Reaches(AfterLeave(n, e.c, e.pick), e.req) {
        JoinRooms(Arrival(n, e.c, e.req, e.pick), e.c, e.req, e.newCid);
      }
    }
  }

  lemma {:induction false} ClockAdvances(h: HubState, events: seq<(Event, int)>)
    requires Core(h) && Run(h, events)
    ensures h.now <= After(h, events).now
    decreases |events|
  {
    hide Core, Step, Enabled;
    if events != [] {
      StepKeeps(h, events[0].0, events[0].1);
      StepTime(h, events[0].0, events[0].1);
      Promised(h, events[0].0, events[0].1);
      ClockAdvances(Step(h, events[0].0, events[0].1), events[1..]);
    }
  }

  /** A validly tokened reconnect to an ended room is told so and creates nothing. */
  lemma ReconnectToEnded(h: HubState, c: ClientId, req: JoinRequest, newCid: CID, pick: CID, pick2: CID, until: int)
    requires Core(h) && c in h.clients && Ended(h, req.rid, until) && h.now <= until
    requires req.rid != NO_RID && req.check == ValidId && Proven(req)
    ensures
      var k := JoinMessage(h, c, req, newCid, pick, pick2);
      && AnsweredByError(k, c, RoomEndedError)
      && Ended(k, req.rid, until)
      && k.rooms == AfterLeave(h, c, pick).rooms
  {
    hide Core, LeaveRoom, JoinRoom, EvictExpired, Quiet, AfterLeave, HandleJoin;
    LeavingFirst(h, c, pick);
    LeavesFirst(h, c, req, newCid, pick, pick2);
    EndedAnswer(AfterLeave(h, c, pick), c, req, newCid, pick2);
  }

  lemma EndedAnswer(h: HubState, c: ClientId, req: JoinRequest, newCid: CID, pick: CID)
    requires req.rid != NO_RID && req.check == ValidId && Proven(req) && TombstoneActive(h, req.rid)
    ensures HandleJoin(h, c, req, newCid, pick) == SendError(h, c, RoomEndedError)
  {
    hide JoinRoom, EvictExpired;
  }

  /** A join that creates its room is always accepted. */
  lemma CreatorAccepted(h: HubState, c: ClientId, req: JoinRequest, newCid: CID)
    requires JoinReady(h, c, req, newCid) && req.rid !in h.rooms
    ensures
      var k := JoinRoom(h, c, req, newCid);
      && req.rid in k.rooms && k.rooms[req.rid].byCID.Keys == {Seat(h, req, newCid)}
      && k.rooms[req.rid].host == Seat(h, req, newCid) && AttachedTo(k.rooms[req.rid], Seat(h, req, newCid), c)
      && req.rid !in k.tombstones
      && k.rooms[req.rid].requestedMax == Min(Min(Max(2, req.createMax), ClientMax(req)), h.limit)
      && k.rooms[req.rid].maxParticipants == 2
  {
    hide Core, JoinRoom;
    JoinRooms(h, c, req, newCid);
    Agreed(h);
  }

  // ----- removals --------------------------------------------------------------------------------

  /** No table of the room mentions `cid` any more. */
  ghost predicate Forgotten(r: RoomState, cid: CID) {
    && cid !in r.byCID && cid !in r.byClient.Values && r.host != cid
    && cid !in r.dirty && (forall f :: f in r.dirty ==> cid !in r.dirty[f])
    && cid !in r.liveness && cid !in r.reporters
  }

  /** `s` is `r` without `cid`: all other records as they were, one epoch on, and a
      host among the members, attached if the host left and anybody is. */
  ghost predicate Without(r: RoomState, s: RoomState, cid: CID) {
    && Forgotten(s, cid) && s.byCID == r.byCID - {cid} && s.epoch == r.epoch + 1 && s.id == r.id
    && s.host in s.byCID && (r.host != cid ==> s.host == r.host)
    && (r.host == cid && s.byClient != map[] ==> s.byCID[s.host].client.Some?)
    && (forall f, t :: Dirtied(s.dirty, f, t) <==> Dirtied(r.dirty, f, t) && f != cid && t != cid)
    && s.liveness == r.liveness - {cid} && s.reporters == r.reporters - {cid}
  }

  /** The index loses the transport of `cid` and nothing else, the capacity stays, and a
      room that thereby loses its last transport has ten seconds. */
  ghost predicate Vacated(r: RoomState, s: RoomState, cid: CID, now: int) {
    && (forall c :: c in s.byClient <==> c in r.byClient && r.byClient[c] != cid)
    && (forall c :: c in s.byClient ==> s.byClient[c] == r.byClient[c])
    && s.maxParticipants == r.maxParticipants && s.requestedMax == r.requestedMax && s.locked == r.locked
    && s.idleAt == (if s.byClient != map[] then None
                    else if r.byClient == map[] then r.idleAt
                    else Some(now + 10_000_000_000))
  }

  /** What every removal path leaves behind: the room without `cid`, or no room at
      all when `cid` was the last member; other rooms untouched. */
  ghost predicate RemovedFrom(h: HubState, k: HubState, rid: RID, cid: CID)
    requires rid in h.rooms && cid in h.rooms[rid].byCID
  {
    && k.rooms - {rid} == h.rooms - {rid}
    && (rid !in k.rooms <==> h.rooms[rid].byCID.Keys == {cid})
    && (rid in k.rooms ==>
          Without(h.rooms[rid], k.rooms[rid], cid) && Vacated(h.rooms[rid], k.rooms[rid], cid, h.now))
  }

  lemma RemoveForgets(r: RoomState, cid: CID, pick: CID, limit: int, now: int)
    requires RoomInv(r, limit, now) && cid in r.byCID && |r.byCID| > 1
    ensures Without(r, Remove(r, cid, pick, now), cid)
  {
    hide RoomInv, Timed, CapacitySafe, Bounded, Remove, DropDirty, Negotiated, Pending;
    Parts(r, limit, now);
    RemoveIndex(r, cid, pick, now);
    HostStays(r, cid, pick, now);
    DropDirtyPairs(r, cid);
    RemovedTables(r, cid, pick, now);
    NotDirty(r.dirty, cid);
  }

  lemma RemoveVacates(r: RoomState, cid: CID, pick: CID, limit: int, now: int)
    requires RoomInv(r, limit, now) && cid in r.byCID && |r.byCID| > 1
    ensures Vacated(r, Remove(r, cid, pick, now), cid, now)
  {
    hide RoomInv, CapacitySafe, Bounded, Negotiated, Populated;
    Parts(r, limit, now);
    var s := Remove(r, cid, pick, now);
    OneFewer(r.byCID, cid);
    assert Expel(r, cid, pick).byCID == r.byCID - {cid};
    assert |Expel(r, cid, pick).byCID| > 0;
  }

  lemma OneFewer(m: map<CID, Participant>, cid: CID)
    requires cid in m
    ensures |m - {cid}| == |m| - 1
    ensures |m| == 1 <==> m.Keys == {cid}
  {
    assert (m - {cid}).Keys == m.Keys - {cid};
    if |m| == 1 {
      assert |m.Keys - {cid}| == 0;
    }
  }

  lemma NotDirty(dirty: map<CID, set<CID>>, cid: CID)
    ensures cid !in DropDirty(dirty, cid) && forall f :: f in DropDirty(dirty, cid) ==> cid !in DropDirty(dirty, cid)[f]
  {}

  lemma RemovedTables(r: RoomState, cid: CID, pick: CID, now: int)
    requires cid in r.byCID
    ensures
      var v := Remove(r, cid, pick, now);
      && v.byCID == r.byCID - {cid} && v.liveness == r.liveness - {cid} && v.reporters == r.reporters - {cid}
      && v.dirty == DropDirty(r.dirty, cid) && v.id == r.id && v.epoch == r.epoch + 1
  {}

  lemma RemovalRefines(h: HubState, x: HubState, rid: RID, cid: CID, pick: CID)
    requires Core(h) && rid in h.rooms && cid in h.rooms[rid].byCID
    requires x.rooms == h.rooms[rid := Remove(h.rooms[rid], cid, pick, h.now)]
    ensures RemovedFrom(h, Settle(x, rid), rid, cid)
  {
    hide Core, RoomInv, Remove, Settle, Without, Vacated, Fits;
    var r := h.rooms[rid];
    RoomOf(h, rid);
    SettleIs(x, rid);
    TakeOutRoom(h, rid, cid, pick);
    if |r.byCID| > 1 {
      RemoveForgets(r, cid, pick, h.limit, h.now);
      RemoveVacates(r, cid, pick, h.limit, h.now);
      assert |r.byCID.Keys| == |r.byCID| && |{cid}| == 1;
    } else {
      LoneKey(r, cid);
    }
    assert x.rooms - {rid} == h.rooms - {rid};
  }

  lemma LoneKey(r: RoomState, cid: CID)
    requires cid in r.byCID && |r.byCID| <= 1
    ensures r.byCID.Keys == {cid}
  {
    assert |r.byCID.Keys - {cid}| == 0;
  }

  /** The four removal paths do the same to the room. */
  lemma RemovalPaths(h: HubState, rid: RID, cid: CID, pick: CID)
    requires Core(h) && rid in h.rooms && cid in h.rooms[rid].byCID
    ensures RemovedFrom(h, EvictByLeave(h, rid, cid, pick), rid, cid)
    ensures Suspended(h.rooms[rid], cid) ==> RemovedFrom(h, EvictExpired(h, rid, cid, pick), rid, cid)
    ensures Suspended(h.rooms[rid], cid) && !RecentMedia(h.rooms[rid], cid, h.now) ==>
              RemovedFrom(h, HardEvict(h, rid, cid, pick), rid, cid)
    ensures h.rooms[rid].byCID[cid].client.Some? ==>
              RemovedFrom(h, LeaveRoom(h, h.rooms[rid].byCID[cid].client.value, pick), rid, cid)
  {
    hide Core, RoomInv, RemovedFrom, Settle, Remove, RecentMedia;
    RoomOf(h, rid);
    NoNullCid(h, rid);
    var r := h.rooms[rid];
    var out := TakeOut(h, rid, cid, pick);
    RemovalRefines(h, out, rid, cid, pick);
    match r.byCID[cid].client
    case None =>
    case Some(c) =>
      RemovalRefines(h, Deregister(out, c), rid, cid, pick);
      TransportsOff(h, rid, cid, c);
  }

  lemma NoNullCid(h: HubState, rid: RID)
    requires Core(h) && rid in h.rooms
    ensures NO_CID !in h.rooms[rid].byCID
  {
    hide Core, RoomInv, Indexed, Timed, CapacitySafe, Negotiated, Bounded;
    RoomOf(h, rid);
    Parts(h.rooms[rid], h.limit, h.now);
  }

  /** From the host's end_room until a join into the room is accepted or five minutes
      have passed, every validly tokened reconnect is told that the room has ended,
      and creates nothing. */
  lemma EndedRoomTurnsReconnectsAway(h: HubState, limit: int, c: ClientId, at: int, events: seq<(Event, int)>,
                                     d: ClientId, req: JoinRequest, newCid: CID, pick: CID, pick2: CID)
    requires Reachable(h, limit) && h.now <= at && c in h.clients && EndRoomAccepts(h, c) && req.rid == Info(h, c).rid
    requires Enabled(h, End(c), at) && Run(Step(h, End(c), at), events)
    requires NoneAccepted(Step(h, End(c), at), events, req.rid)
    requires After(Step(h, End(c), at), events).now <= at + ROOM_TOMBSTONE_TTL
    requires d in After(Step(h, End(c), at), events).clients && req.check == ValidId && Proven(req)
    ensures
      var k := After(Step(h, End(c), at), events);
      var l := JoinMessage(k, d, req, newCid, pick, pick2);
      && req.rid !in k.rooms && AnsweredByError(l, d, RoomEndedError)
      && req.rid !in l.rooms && l.rooms == AfterLeave(k, d, pick).rooms
  {
    hide Core, Reachable, Run, After, NoneAccepted, JoinMessage, AfterLeave, Enabled, Step;
    ReachableCore(h, limit);
    var ended := Step(h, End(c), at);
    EndRoomEnds(h, c, at);
    StepKeeps(h, End(c), at);
    RunKeeps(ended, events);
    EndedThroughout(ended, events, req.rid, at + ROOM_TOMBSTONE_TTL);
    ReconnectToEnded(After(ended, events), d, req, newCid, pick, pick2, at + ROOM_TOMBSTONE_TTL);
  }
}
