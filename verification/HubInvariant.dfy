/** The hub invariant: transports, attachments, rooms and tombstones agree.
    These lemmas say that the building blocks of the handlers keep it. */
module HubInvariant {
  import opened Wrappers
  import opened SignalingTypes
  import opened RoomSpec
  import opened RoomInvariant
  import opened HubSpec

  /** `clients` and `bySID` are in bijection, and subscribers are registered. */
  ghost predicate Registered(clients: set<ClientId>, bySID: map<SID, ClientId>, info: map<ClientId, ClientInfo>,
                             watchers: map<RID, set<ClientId>>) {
    && (forall c :: c in clients ==>
          c in info && !info[c].replaced && info[c].sid in bySID && bySID[info[c].sid] == c)
    && (forall s :: s in bySID ==> bySID[s] in clients && bySID[s] in info && info[bySID[s]].sid == s)
    && (forall rid :: rid in watchers ==> watchers[rid] <= clients)
  }

  /** A pending transport has not been registered, let alone attached. */
  ghost predicate Waiting(pending: map<SID, ClientId>, clients: set<ClientId>, info: map<ClientId, ClientInfo>) {
    forall s :: s in pending ==>
      && pending[s] in info && pending[s] !in clients
      && info[pending[s]] == ClientInfo(s, NO_CID, NO_RID, false)
  }

  /** An attached transport is registered and names its room and participant. */
  ghost predicate AttachmentsAgree(
      rooms: map<RID, RoomState>, clients: set<ClientId>, info: map<ClientId, ClientInfo>)
  {
    forall rid, c :: rid in rooms && c in rooms[rid].byClient ==>
      && c in clients && c in info
      && info[c].rid == rid && info[c].cid == rooms[rid].byClient[c]
  }

  ghost predicate RoomsSound(rooms: map<RID, RoomState>, limit: int, now: int, nextRoom: nat) {
    && NO_RID !in rooms
    && forall rid :: rid in rooms ==> RoomInv(rooms[rid], limit, now) && rooms[rid].id < nextRoom
  }

  ghost predicate Core(h: HubState) {
    && h.now >= 1 && h.limit >= 2
    && Registered(h.clients, h.bySID, h.info, h.watchers)
    && Waiting(h.pending, h.clients, h.info)
    && AttachmentsAgree(h.rooms, h.clients, h.info)
    && RoomsSound(h.rooms, h.limit, h.now, h.nextRoom)
    && h.rooms.Keys !! h.tombstones.Keys
  }

  predicate Unattached(h: HubState, c: ClientId) {
    forall rid :: rid in h.rooms ==> c !in h.rooms[rid].byClient
  }

  // ----- the building blocks -----------------------------------------------------

  lemma ClockKeeps(h: HubState, at: int)
    requires Core(h) && h.now <= at
    ensures Core(h.(now := at))
  {
    hide RoomInv, Registered, Waiting, AttachmentsAgree;
    forall rid | rid in h.rooms
      ensures RoomInv(h.rooms[rid], h.limit, at)
    {
      TimePasses(h.rooms[rid], h.limit, h.now, at);
    }
  }

  lemma ElsewhereUnattached(h: HubState, c: ClientId)
    requires AttachmentsAgree(h.rooms, h.clients, h.info)
    requires Info(h, c).rid in h.rooms ==> c !in h.rooms[Info(h, c).rid].byClient
    ensures Unattached(h, c)
  {}

  ghost predicate Fits(h: HubState, rid: RID, r: RoomState) {
    && rid != NO_RID && RoomInv(r, h.limit, h.now) && r.id < h.nextRoom
    && forall c :: c in r.byClient ==>
         c in h.clients && c in h.info && h.info[c].rid == rid && h.info[c].cid == r.byClient[c]
  }

  lemma PutKeeps(h: HubState, rid: RID, r: RoomState)
    requires Core(h) && Fits(h, rid, r) && rid !in h.tombstones
    ensures Core(PutRoom(h, rid, r))
  {
    hide RoomInv, Registered, Waiting, AttachmentsAgree, RoomsSound;
    PutSound(h.rooms, rid, r, h.limit, h.now, h.nextRoom);
    PutAgrees(h.rooms, h.clients, h.info, rid, r);
  }

  lemma PutAgrees(rooms: map<RID, RoomState>, clients: set<ClientId>, info: map<ClientId, ClientInfo>, rid: RID,
      r: RoomState)
    requires AttachmentsAgree(rooms, clients, info)
    requires forall c :: c in r.byClient ==>
               c in clients && c in info && info[c].rid == rid && info[c].cid == r.byClient[c]
    ensures AttachmentsAgree(rooms[rid := r], clients, info)
  {}

  lemma PutSound(rooms: map<RID, RoomState>, rid: RID, r: RoomState, limit: int, now: int, nextRoom: nat)
    requires RoomsSound(rooms, limit, now, nextRoom) && rid != NO_RID && RoomInv(r, limit, now) && r.id < nextRoom
    ensures RoomsSound(rooms[rid := r], limit, now, nextRoom)
  {
    hide RoomInv;
  }

  lemma DropKeeps(h: HubState, rid: RID)
    requires Core(h)
    ensures Core(DropRoom(h, rid))
  {
    hide RoomInv, Registered, Waiting;
  }

  lemma DeregisterKeeps(h: HubState, c: ClientId)
    requires Core(h) && Unattached(h, c) && c in h.clients
    ensures Core(Deregister(h, c))
  {
    hide RoomsSound;
    var d := Deregister(h, c);
    forall rid | rid in d.watchers
      ensures d.watchers[rid] <= d.clients
    {
      assert h.watchers[rid] <= h.clients;
    }
  }

  lemma ClaimKeeps(h: HubState, c: ClientId, cid: CID, rid: RID)
    requires Core(h) && Unattached(h, c) && c in h.clients
    ensures Core(Claim(h, c, cid, rid)) && Unattached(Claim(h, c, cid, rid), c)
  {
    hide RoomsSound;
  }

  lemma RegisterKeeps(h: HubState, c: ClientId, sid: SID)
    requires Core(h) && c !in h.info && sid !in h.bySID
    ensures Core(Register(h, c, sid))
  {
    hide RoomsSound;
    RegistersOne(h.clients, h.bySID, h.info, h.watchers, c, sid);
    hide Registered;
  }

  lemma RegistersOne(clients: set<ClientId>, bySID: map<SID, ClientId>, info: map<ClientId, ClientInfo>,
                     watchers: map<RID, set<ClientId>>, c: ClientId, sid: SID)
    requires Registered(clients, bySID, info, watchers) && c !in info && sid !in bySID
    ensures Registered(clients + {c}, bySID[sid := c], info[c := ClientInfo(sid, NO_CID, NO_RID, false)], watchers)
  {
    forall rid | rid in watchers
      ensures watchers[rid] <= clients + {c}
    {
      assert watchers[rid] <= clients;
    }
  }

  // ----- takeovers ---------------------------------------------------------------

  /** What a transport must be to take over `prev`: known, idle, unregistered and not waiting. */
  ghost predicate Successor(h: HubState, prev: ClientId, next: ClientId) {
    && prev in h.clients && prev in h.info && next in h.info && next !in h.clients
    && h.info[next] == ClientInfo(h.info[prev].sid, NO_CID, NO_RID, false)
    && (forall s :: s in h.pending ==> h.pending[s] != next)
  }

  lemma ReplaceKeeps(h: HubState, prev: ClientId, next: ClientId)
    requires Core(h) && Successor(h, prev, next)
    ensures Core(Replace(h, prev, next))
  {
    hide RoomsSound;
    ReplaceFields(h, prev, next);
    ReplaceRegisters(h, prev, next);
    ReplaceAttaches(h, prev, next);
    ReplaceRooms(h, prev, next);
  }

  lemma NoNullRoom(h: HubState)
    requires Core(h)
    ensures NO_RID !in h.rooms
  {
    hide RoomInv;
  }

  /** The room that a takeover touches, if any. */
  predicate Moves(h: HubState, prev: ClientId) {
    var rid := Info(h, prev).rid;
    rid != NO_RID && rid in h.rooms && prev in h.rooms[rid].byClient
  }

  lemma ReplaceFields(h: HubState, prev: ClientId, next: ClientId)
    requires prev in h.info && next in h.info && prev != next
    ensures
      var p, rid := Replace(h, prev, next), h.info[prev].rid;
      && p.now == h.now && p.limit == h.limit && p.nextRoom == h.nextRoom
      && p.pending == h.pending && p.tombstones == h.tombstones
      && p.clients == h.clients - {prev} + {next}
      && p.bySID == h.bySID[h.info[next].sid := next]
      && p.watchers == Rewatch(h.watchers, prev, next)
      && p.info == h.info[next := if Moves(h, prev) then h.info[next].(cid := h.rooms[rid].byClient[prev], rid := rid)
                                  else h.info[next]]
                         [prev := h.info[prev].(replaced := true)]
      && p.rooms == (if Moves(h, prev) then h.rooms[rid := SwapTransport(h.rooms[rid], prev, next)] else h.rooms)
  {
    hide SwapTransport, Rewatch;
    assert h.info[next := h.info[next]][prev := h.info[prev].(replaced := true)]
        == h.info[prev := h.info[prev].(replaced := true)];
  }

  lemma ReplaceRegisters(h: HubState, prev: ClientId, next: ClientId)
    requires Core(h) && Successor(h, prev, next)
    ensures
      var p := Replace(h, prev, next);
      && Registered(p.clients, p.bySID, p.info, p.watchers)
      && Waiting(p.pending, p.clients, p.info)
  {
    hide RoomsSound, AttachmentsAgree, Replace, Registered, Waiting, Rewatch;
    ReplaceFields(h, prev, next);
    var p := Replace(h, prev, next);
    RegistrationPasses(h.clients, h.bySID, h.info, h.watchers, p.info, prev, next);
    PendingKept(h.pending, h.clients, h.info, p.info, prev, next);
  }

  /** `after` differs from `before` in the records of a takeover. */
  ghost predicate PassedOver(
      before: map<ClientId, ClientInfo>, after: map<ClientId, ClientInfo>, prev: ClientId, next: ClientId)
  {
    && prev in before && next in after && prev in after
    && (forall c :: c in before && c != prev && c != next ==> c in after && after[c] == before[c])
    && after[next].sid == before[prev].sid && !after[next].replaced && after[prev].sid == before[prev].sid
  }

  lemma RegistrationPasses(clients: set<ClientId>, bySID: map<SID, ClientId>, info: map<ClientId, ClientInfo>,
                           watchers: map<RID, set<ClientId>>, after: map<ClientId, ClientInfo>,
                           prev: ClientId, next: ClientId)
    requires Registered(clients, bySID, info, watchers) && PassedOver(info, after, prev, next)
    requires prev in clients && next !in clients
    ensures Registered(clients - {prev} + {next}, bySID[info[prev].sid := next], after, Rewatch(watchers, prev, next))
  {
    SubscribersPass(clients, watchers, prev, next);
    hide Rewatch;
  }

  lemma SubscribersPass(clients: set<ClientId>, watchers: map<RID, set<ClientId>>, prev: ClientId, next: ClientId)
    requires forall rid :: rid in watchers ==> watchers[rid] <= clients
    ensures
      var w := Rewatch(watchers, prev, next);
      forall rid :: rid in w ==> w[rid] <= clients - {prev} + {next}
  {
    var w := Rewatch(watchers, prev, next);
    forall rid | rid in w
      ensures w[rid] <= clients - {prev} + {next}
    {
      assert watchers[rid] <= clients;
    }
  }

  lemma PendingKept(pending: map<SID, ClientId>, clients: set<ClientId>, info: map<ClientId, ClientInfo>,
                    after: map<ClientId, ClientInfo>, prev: ClientId, next: ClientId)
    requires Waiting(pending, clients, info) && PassedOver(info, after, prev, next) && prev in clients
    requires forall s :: s in pending ==> pending[s] != next
    ensures Waiting(pending, clients - {prev} + {next}, after)
  {}

  lemma ReplaceAttaches(h: HubState, prev: ClientId, next: ClientId)
    requires Core(h) && Successor(h, prev, next)
    ensures AttachmentsAgree(Replace(h, prev, next).rooms, Replace(h, prev, next).clients, Replace(h, prev, next).info)
  {
    hide RoomsSound, Registered, Replace, AttachmentsAgree, SwapTransport;
    ReplaceFields(h, prev, next);
    var rid := h.info[prev].rid;
    assert NO_RID !in h.rooms by { NoNullRoom(h); }
    if Moves(h, prev) {
      SwappedIndex(h.rooms[rid], prev, next);
      MovedAgree(h.rooms, h.clients, h.info, rid, SwapTransport(h.rooms[rid], prev, next), prev, next);
    } else {
      UnmovedAgree(h.rooms, h.clients, h.info, prev, next);
    }
  }

  lemma MovedAgree(rooms: map<RID, RoomState>, clients: set<ClientId>, info: map<ClientId, ClientInfo>,
                   rid: RID, r: RoomState, prev: ClientId, next: ClientId)
    requires AttachmentsAgree(rooms, clients, info) && next !in clients
    requires rid in rooms && prev in rooms[rid].byClient && prev in info && next in info
    requires r.byClient == (rooms[rid].byClient - {prev})[next := rooms[rid].byClient[prev]]
    ensures AttachmentsAgree(rooms[rid := r], clients - {prev} + {next},
                             info[next := info[next].(cid := rooms[rid].byClient[prev], rid := rid)]
                                 [prev := info[prev].(replaced := true)])
  {}

  lemma UnmovedAgree(rooms: map<RID, RoomState>, clients: set<ClientId>, info: map<ClientId, ClientInfo>,
                     prev: ClientId, next: ClientId)
    requires AttachmentsAgree(rooms, clients, info) && next !in clients && prev in info && next in info
    requires info[prev].rid in rooms ==> prev !in rooms[info[prev].rid].byClient
    ensures AttachmentsAgree(rooms, clients - {prev} + {next},
                             info[next := info[next]][prev := info[prev].(replaced := true)])
  {}

  lemma SwappedIndex(r: RoomState, prev: ClientId, next: ClientId)
    requires prev in r.byClient
    ensures SwapTransport(r, prev, next).byClient == (r.byClient - {prev})[next := r.byClient[prev]]
  {}

  lemma AttachedInfo(h: HubState, rid: RID, c: ClientId)
    requires AttachmentsAgree(h.rooms, h.clients, h.info) && rid in h.rooms && c in h.rooms[rid].byClient
    ensures c in h.clients && c in h.info && h.info[c].rid == rid && h.info[c].cid == h.rooms[rid].byClient[c]
  {}

  lemma ReplaceRooms(h: HubState, prev: ClientId, next: ClientId)
    requires Core(h) && Successor(h, prev, next)
    ensures
      var p := Replace(h, prev, next);
      RoomsSound(p.rooms, p.limit, p.now, p.nextRoom) && p.rooms.Keys == h.rooms.Keys
  {
    hide RoomInv, Registered, Waiting, Replace, SwapTransport, AttachmentsAgree, RoomsSound;
    ReplaceFields(h, prev, next);
    if Moves(h, prev) {
      MovedRoom(h, prev, next);
      PutSound(h.rooms, h.info[prev].rid, SwapTransport(h.rooms[h.info[prev].rid], prev, next), h.limit, h.now,
          h.nextRoom);
    }
  }

  lemma MovedRoom(h: HubState, prev: ClientId, next: ClientId)
    requires Core(h) && Successor(h, prev, next) && Moves(h, prev)
    ensures
      var r := SwapTransport(h.rooms[h.info[prev].rid], prev, next);
      RoomInv(r, h.limit, h.now) && r.id < h.nextRoom
  {
    hide RoomInv, Registered, Waiting, SwapTransport;
    ElsewhereUnattached(h, next);
    SwapKeeps(h.rooms[h.info[prev].rid], prev, next, h.limit, h.now);
  }

  lemma KnownKeeps(h: HubState, c: ClientId, sid: SID)
    requires Core(h) && c !in h.info
    ensures Core(h.(info := h.info[c := ClientInfo(sid, NO_CID, NO_RID, false)]))
  {
    hide RoomsSound;
  }

  lemma ServeSSEKeeps(h: HubState, c: ClientId, sid: SID)
    requires Core(h) && c !in h.info
    ensures Core(ServeSSE(h, c, sid))
  {
    hide RoomsSound;
    var known := h.(info := h.info[c := ClientInfo(sid, NO_CID, NO_RID, false)]);
    KnownKeeps(h, c, sid);
    if sid in h.bySID {
      if Info(h, h.bySID[sid]).rid == NO_RID {
        ReplaceKeeps(known, h.bySID[sid], c);
      }
    } else {
      RegisterKeeps(h, c, sid);
    }
  }

  lemma PromoteKeeps(h: HubState, sid: SID)
    requires Core(h)
    ensures Core(PromotePending(h, sid))
  {
    hide Core, Successor, Replace;
    if sid in h.pending && sid in h.bySID {
      var bare := h.(pending := h.pending - {sid});
      var prev, next := h.bySID[sid], h.pending[sid];
      PromotionReady(h, sid);
      RegisteredPair(h, sid);
      WaitingOne(h, sid);
      ReplaceKeeps(bare, prev, next);
      ReplacePending(h, bare, prev, next);
    }
  }

  /** Taken off the waiting list, the pending transport may take over. */
  lemma PromotionReady(h: HubState, sid: SID)
    requires Core(h) && sid in h.pending && sid in h.bySID
    ensures
      var bare := h.(pending := h.pending - {sid});
      Core(bare) && Successor(bare, h.bySID[sid], h.pending[sid])
  {
    hide RoomsSound, Registered, AttachmentsAgree;
    RegisteredPair(h, sid);
  }

  lemma ReplacePending(h: HubState, bare: HubState, prev: ClientId, next: ClientId)
    requires bare == h.(pending := bare.pending) && prev in h.info && next in h.info && prev != next
    ensures Replace(h, prev, next).(pending := bare.pending) == Replace(bare, prev, next)
    ensures Replace(h, prev, next).pending == h.pending
  {
    hide Replace, SwapTransport, Rewatch;
    ReplaceFields(h, prev, next);
    ReplaceFields(bare, prev, next);
    ReplaceSent(h, prev, next);
    ReplaceSent(bare, prev, next);
  }

  lemma RegisteredPair(h: HubState, sid: SID)
    requires Core(h) && sid in h.bySID
    ensures h.bySID[sid] in h.clients && h.bySID[sid] in h.info && h.info[h.bySID[sid]].sid == sid
  {
    hide RoomsSound;
  }

  lemma AbandonKeeps(h: HubState, c: ClientId)
    requires Core(h)
    ensures Core(AbandonSSE(h, c))
  {
    hide RoomsSound, AttachmentsAgree;
    assert Info(h, c).replaced ==> h.clients - {c} == h.clients;
  }

  lemma ReplaceSent(h: HubState, prev: ClientId, next: ClientId)
    ensures Replace(h, prev, next).sent == h.sent + [TookOver(prev, next)]
  {
    hide SwapTransport, Rewatch;
  }

  lemma Newborn(h: HubState, c: ClientId)
    requires Core(h) && c !in h.info
    ensures c !in h.clients
  {
    hide RoomsSound, Waiting, AttachmentsAgree;
  }

  lemma WaitingOne(h: HubState, sid: SID)
    requires Core(h) && sid in h.pending
    ensures h.pending[sid] in h.info && h.pending[sid] !in h.clients && h.info[h.pending[sid]].sid == sid
  {
    hide RoomsSound, Registered, AttachmentsAgree;
  }

  lemma Unsubscribed(h: HubState, c: ClientId)
    requires Core(h) && c !in h.clients
    ensures forall o :: o in h.watchers ==> c !in h.watchers[o]
  {
    hide RoomsSound, Waiting, AttachmentsAgree;
  }
}
