/** Lost negotiation and ghost eviction: what peers are told and who is evicted early. */
module NegotiationTheorems {
  import opened Wrappers
  import opened SignalingTypes
  import opened RoomSpec
  import opened RoomInvariant
  import opened HubSpec
  import opened HubInvariant
  import opened HubSteps
  import opened RoomHistory
  import opened HubTheorems
  import opened ReachableRooms

  // ----- pending renegotiation ---------------------------------------------------------

  /** `negotiationDirty` is exactly the pairs (from, to) such that a negotiation
      message of `from` missed `to`, and since then `to` has not completed an attach
      and neither record was removed; both are distinct members and `to` is suspended. */
  lemma DirtyTableExact(h: HubState, limit: int, rid: RID)
    requires Reachable(h, limit) && rid in h.rooms
    ensures
      var r := h.rooms[rid];
      forall f, t ::
        && (Dirtied(r.dirty, f, t) <==> Pending(r.log, f, t))
        && (Dirtied(r.dirty, f, t) ==> f in r.byCID && t in r.byCID && f != t && Suspended(r, t))
  {
    hide Core, RoomInv, Reachable, Indexed, Timed, Populated, CapacitySafe, Bounded, Pending;
    ReachableCore(h, limit);
    RoomOf(h, rid);
    Parts(h.rooms[rid], h.limit, h.now);
  }

  /** The members whose negotiation with `cid` is pending. */
  ghost function PendingSenders(r: RoomState, cid: CID): set<CID> {
    set f | f in r.byCID && Pending(r.log, f, cid)
  }

  /** An accepted reconnect tells exactly the pending senders that have a transport,
      and leaves nothing pending for the returned participant. */
  lemma ReturnTellsPendingSenders(h: HubState, c: ClientId, req: JoinRequest, newCid: CID)
    requires JoinReady(h, c, req, newCid) && req.rid in h.rooms && FateOf(h, req).Rejoined?
    ensures
      var k, done, cid := JoinRoom(h, c, req, newCid), FateRoom(h, c, req, newCid), req.reconnectCid;
      var senders := PendingSenders(h.rooms[req.rid], cid);
      && (senders != {} ==>
            |k.sent| > |h.sent| + 3
            && k.sent[|h.sent| + 3] == Sent(TransportsOf(done, senders), NegotiationDirty(cid)))
      && (forall f :: !Pending(done.log, f, cid))
  {
    hide Core, RoomInv, TakeSlot, Admit, EvictGhost, Indexed, Timed, Populated, CapacitySafe, Bounded, JoinRoom;
    hide Complete, DirtyPartners, PendingSenders, Negotiated, Pending, FateRoom, FateOf, Claim;
    var rid, cid, r := req.rid, req.reconnectCid, h.rooms[req.rid];
    RejoinIs(h, c, req, newCid);
    var taken, former := TakeSlot(r, cid, c), r.byCID[cid].client;
    RoomOf(h, rid);
    Parts(r, h.limit, h.now);
    SendersAreDirty(r, cid);
    TakenTables(r, cid, c);
    var put := PutRoom(Claim(h, c, cid, rid), rid, taken);
    ClaimFields(h, c, cid, rid);
    GhostRooms(put, former);
    if DirtyPartners(taken.dirty, cid) != {} {
      AdmitNotifies(EvictGhost(put, former), c, rid, taken, cid, Reattached);
    }
    NothingPending(taken, cid);
  }

  /** The transports `to` include that of `cid`. */
  predicate Told(r: RoomState, to: set<ClientId>, cid: CID) {
    cid in r.byCID && r.byCID[cid].client.Some? && r.byCID[cid].client.value in to
  }

  /** So a pending sender is told of the return if and only if it is attached at that
      moment; either way it is pending no more, and will not be told later. */
  lemma PendingSenderTold(h: HubState, c: ClientId, req: JoinRequest, newCid: CID, f: CID)
    requires JoinReady(h, c, req, newCid) && req.rid in h.rooms && FateOf(h, req).Rejoined?
    requires Pending(h.rooms[req.rid].log, f, req.reconnectCid)
    ensures
      var r, k, done := h.rooms[req.rid], JoinRoom(h, c, req, newCid), FateRoom(h, c, req, newCid);
      && f in r.byCID && |k.sent| > |h.sent| + 3
      && var notice := k.sent[|h.sent| + 3];
      && notice.Sent? && notice.body == NegotiationDirty(req.reconnectCid)
      && (Told(done, notice.to, f) <==> r.byCID[f].client.Some?)
      && !Pending(done.log, f, req.reconnectCid)
  {
    hide Core, RoomInv, Indexed, Timed, Populated, CapacitySafe, Bounded, JoinRoom, Pending, FateRoom, FateOf;
    var rid, cid, r := req.rid, req.reconnectCid, h.rooms[req.rid];
    RoomOf(h, rid);
    Parts(r, h.limit, h.now);
    assert Dirtied(r.dirty, f, cid);
    assert f in PendingSenders(r, cid);
    ReturnTellsPendingSenders(h, c, req, newCid);
    RejoinIs(h, c, req, newCid);
    OthersStay(r, cid, c, f);
  }

  lemma OthersStay(r: RoomState, cid: CID, c: ClientId, f: CID)
    requires cid in r.byCID && f != cid && f in r.byCID
    ensures
      var done := Complete(TakeSlot(r, cid, c), cid);
      f in done.byCID && done.byCID[f] == r.byCID[f]
  {}

  // ----- a renegotiation that nobody is told about -----------------------------------------------------

  /** A reconnect by a client that can serve any room, without a token. */
  function ComesBack(rid: RID, cid: CID): JoinRequest {
    JoinRequest(rid, ValidId, cid, false, TokenBad, 4, Some(4))
  }

  /** For every room and every two members: `a` missed `b`, dropped itself, and was still
      away when `b` came back.  The notice goes to nobody, and the pair is forgotten. */
  lemma NobodyTold(rid: RID, a: CID, b: CID) returns (h: HubState, e: Event)
    requires rid != NO_RID && a != NO_CID && b != NO_CID && a != b
    ensures Reachable(h, 4) && Enabled(h, e, h.now) && rid in h.rooms
    ensures Pending(h.rooms[rid].log, a, b) && Suspended(h.rooms[rid], a) && Suspended(h.rooms[rid], b)
    ensures
      var k := Step(h, e, h.now);
      && rid in k.rooms && a in k.rooms[rid].byCID && !Suspended(k.rooms[rid], b) && !Pending(k.rooms[rid].log, a, b)
      && |k.sent| > |h.sent| + 3 && k.sent[|h.sent| + 3] == Sent({}, NegotiationDirty(b))
  {
    hide Core, Reachable, Enabled, Step, Suspend, MarkMissed, SuspendedAudience, Pending, JoinMessage, JoinRoom;
    hide FateRoom, Unattached, PendingSenders, FateOf, RoomInv, TransportsOf, TakeSlot, Complete, PushesNobodyOut;
    h := MissedAndGone(rid, a, b);
    var r := h.rooms[rid];
    ReachableCore(h, 4);
    RoomOf(h, rid);
    DirtyTableExact(h, 4, rid);
    NobodysTransport(h, rid, 2);
    NewName(a, b);
    var newCid := CID("x" + a.name + b.name);
    e := Join(2, ComesBack(rid, b), newCid, NO_CID, NO_CID);
    JoinStep(h, 2, ComesBack(rid, b), newCid);
    PlainJoin(h, 2, ComesBack(rid, b), newCid);
    FitsBack(h, rid, b);
    ReturnTellsPendingSenders(h, 2, ComesBack(rid, b), newCid);
    PendingSenderTold(h, 2, ComesBack(rid, b), newCid, a);
    RejoinIs(h, 2, ComesBack(rid, b), newCid);
    OthersStay(r, b, 2, a);
    NoTransports(r, a, b, 2);
  }

  lemma FitsBack(h: HubState, rid: RID, cid: CID)
    requires Core(h) && h.limit == 4 && rid in h.rooms && cid in h.rooms[rid].byCID && cid != NO_CID
    ensures FateOf(h, ComesBack(rid, cid)).Rejoined?
  {
    hide Core, RoomInv, Indexed, Timed, Populated, Negotiated, Bounded;
    RoomOf(h, rid);
    Parts(h.rooms[rid], h.limit, h.now);
  }

  lemma NoTransports(r: RoomState, a: CID, b: CID, c: ClientId)
    requires r.byCID.Keys == {a, b} && a != b && Suspended(r, a) && Pending(r.log, a, b) && !Pending(r.log, b, b)
    ensures
      var done := Complete(TakeSlot(r, b, c), b);
      && PendingSenders(r, b) == {a} && TransportsOf(done, PendingSenders(r, b)) == {}
      && !Suspended(done, b) && a in done.byCID
  {
    hide Pending;
    var done := Complete(TakeSlot(r, b, c), b);
    forall f | f in PendingSenders(r, b)
      ensures done.byCID[f].client.None?
    {
      assert f == a;
    }
  }

  /** The room after `a` missed `b` and dropped. */
  lemma MissedAndGone(rid: RID, a: CID, b: CID) returns (h: HubState)
    requires rid != NO_RID && a != NO_CID && b != NO_CID && a != b
    ensures Reachable(h, 4) && h.rooms.Keys == {rid} && 2 in h.clients
    ensures
      var r := h.rooms[rid];
      && r.byClient == map[] && r.byCID.Keys == {a, b} && Suspended(r, a) && Suspended(r, b)
      && Dirtied(r.dirty, a, b)
  {
    hide Core, Reachable, Enabled, Step, Suspend, MarkMissed, SuspendedAudience;
    var l := TwoInReached(rid, a, b);
    var r := l.rooms[rid];
    DropStep(l, rid, b, 1);
    var m := Step(l, Drop(1), l.now);
    AwayFrom(l, rid, a, b);
    OfferStep(m, rid, a, 0);
    var n := Step(m, RelayEvent(0, Offer, NO_CID), m.now);
    DropStep(n, rid, a, 0);
    h := Step(n, Drop(0), n.now);
  }

  /** What the three steps do to the room. */
  lemma AwayFrom(h: HubState, rid: RID, a: CID, b: CID)
    requires Reachable(h, 4) && TwoIn(h, rid, a, b) && a != b
    ensures
      var r := h.rooms[rid];
      var s := Suspend(r, b, h.now);
      var t := MarkMissed(s, a, SuspendedAudience(s, a, NO_CID));
      var u := Suspend(t, a, h.now);
      && s.byClient == map[0 := a] && t.byClient == map[0 := a]
      && u.byClient == map[] && u.byCID.Keys == {a, b} && Suspended(u, a) && Suspended(u, b) && Dirtied(u.dirty, a, b)
  {
    hide Core, Reachable, Suspend, MarkMissed, SuspendedAudience;
    ReachableCore(h, 4);
    AttachedRecord(h, rid, 0);
    AttachedRecord(h, rid, 1);
    var r := h.rooms[rid];
    var s := Suspend(r, b, h.now);
    Dropped(r, a, b, h.now);
    Marked(s, a, b);
    DroppedToo(MarkMissed(s, a, SuspendedAudience(s, a, NO_CID)), a, b, h.now);
  }

  lemma Dropped(r: RoomState, a: CID, b: CID, now: int)
    requires r.byClient == map[0 := a, 1 := b] && r.byCID.Keys == {a, b} && AttachedTo(r, a, 0) && AttachedTo(r, b, 1)
    requires a != b
    ensures
      var s := Suspend(r, b, now);
      s.byClient == map[0 := a] && s.byCID.Keys == {a, b} && AttachedTo(s, a, 0) && Suspended(s, b)
  {
    assert Suspend(r, b, now).byClient == map[0 := a];
  }

  lemma Marked(s: RoomState, a: CID, b: CID)
    requires s.byCID.Keys == {a, b} && a != b && Suspended(s, b)
    ensures
      var t := MarkMissed(s, a, SuspendedAudience(s, a, NO_CID));
      t.byClient == s.byClient && t.byCID == s.byCID && Dirtied(t.dirty, a, b)
  {
    assert b in SuspendedAudience(s, a, NO_CID);
  }

  lemma DroppedToo(t: RoomState, a: CID, b: CID, now: int)
    requires t.byClient == map[0 := a] && t.byCID.Keys == {a, b} && AttachedTo(t, a, 0) && Suspended(t, b)
    ensures
      var u := Suspend(t, a, now);
      && u.byClient == map[] && u.byCID.Keys == {a, b} && Suspended(u, a) && Suspended(u, b) && u.dirty == t.dirty
  {
    assert Suspend(t, a, now).byClient == map[];
  }

  lemma NothingPending(r: RoomState, cid: CID)
    ensures forall f :: !Pending(Complete(r, cid).log, f, cid)
  {
    forall f
      ensures !Pending(Complete(r, cid).log, f, cid)
    {
      PendingAppend(r.log, Attached(cid), f, cid);
    }
  }

  lemma TakenTables(r: RoomState, cid: CID, c: ClientId)
    requires cid in r.byCID
    ensures TakeSlot(r, cid, c).dirty == r.dirty && TakeSlot(r, cid, c).log == r.log
  {}

  lemma RejoinIs(h: HubState, c: ClientId, req: JoinRequest, newCid: CID)
    requires req.rid in h.rooms && FateOf(h, req).Rejoined?
    ensures
      var r, cid := h.rooms[req.rid], req.reconnectCid;
      && cid in r.byCID
      && var taken := TakeSlot(r, cid, c);
      FateRoom(h, c, req, newCid) == Complete(taken, cid)
      && JoinRoom(h, c, req, newCid)
      == Admit(EvictGhost(PutRoom(Claim(h, c, cid, req.rid), req.rid, taken), r.byCID[cid].client),
               c, req.rid, taken, cid, Reattached)
  {
    hide TakeSlot, Admit, EvictGhost, Park, Complete;
  }

  lemma SendersAreDirty(r: RoomState, cid: CID)
    requires Negotiated(r)
    ensures DirtyPartners(r.dirty, cid) == PendingSenders(r, cid)
  {
    hide Pending;
    forall f
      ensures f in DirtyPartners(r.dirty, cid) <==> f in PendingSenders(r, cid)
    {
      assert Dirtied(r.dirty, f, cid) <==> Pending(r.log, f, cid);
    }
  }

  lemma AdmitNotifies(h: HubState, c: ClientId, rid: RID, r: RoomState, cid: CID, outcome: Outcome)
    requires DirtyPartners(r.dirty, cid) != {}
    ensures
      var k, done := Admit(h, c, rid, r, cid, outcome), Complete(r, cid);
      |k.sent| > |h.sent| + 3
      && k.sent[|h.sent| + 3] == Sent(TransportsOf(done, DirtyPartners(r.dirty, cid)), NegotiationDirty(cid))
  {
    hide Complete, Snap, Status, DirtyPartners, TransportsOf;
    var done := Complete(r, cid);
    var h1 := PutRoom(h, rid, done).(tombstones := h.tombstones - {rid});
    var h2 := Send(h1, {c}, Joined(rid, done.id, Snap(done), cid, outcome));
    var h3 := BroadcastState(StateTo(h2, rid, {c}), rid);
    assert |h3.sent| == |h.sent| + 3;
    var h4 := Send(h3, TransportsOf(done, DirtyPartners(r.dirty, cid)), NegotiationDirty(cid));
    StatusExtends(h4, rid);
  }

  // ----- ghosts ------------------------------------------------------------------------------

  /** Suspended for 30 s by millisecond stamps, and no positive report in the last 30 s. */
  ghost function StaleSuspended(r: RoomState, nowMs: int): set<CID> {
    set cid | cid in r.byCID && r.byCID[cid].client.None? && r.byCID[cid].suspendedAt != 0
           && nowMs - r.byCID[cid].suspendedAt / MILLISECOND >= 30_000
           && !(cid in r.liveness && nowMs - r.liveness[cid] <= 30_000)
  }

  /** The nested scan is a plain filter: the sender of the report is itself a fresh,
      attached reporter for every suspended participant. */
  lemma GhostScanIsFilter(r: RoomState, sender: CID, c: ClientId, reports: seq<CID>, nowMs: int)
    requires AttachedTo(r, sender, c)
    ensures
      var m := RecordReports(r, sender, reports, nowMs);
      Ghosts(m, nowMs) == StaleSuspended(m, nowMs)
  {
    var m := RecordReports(r, sender, reports, nowMs);
    assert m.reporters[sender] >= nowMs;
    forall cid
      ensures cid in Ghosts(m, nowMs) <==> cid in StaleSuspended(m, nowMs)
    {
      if cid in StaleSuspended(m, nowMs) {
        assert FreshReporter(m, sender, cid, nowMs);
      }
    }
  }

  /** A ghost by milliseconds has no recent media by nanoseconds: it is never deferred. */
  lemma GhostsAreEvicted(r: RoomState, cid: CID, now: int)
    requires Excluded(r, cid, now / MILLISECOND)
    ensures Suspended(r, cid) && !RecentMedia(r, cid, now)
  {}

  /** Nothing but this room and the outgoing messages changed. */
  predicate OnlyRoom(h: HubState, k: HubState, rid: RID) {
    k == h.(rooms := k.rooms, sent := k.sent) && k.rooms - {rid} == h.rooms - {rid}
  }

  lemma {:induction false} EvictAllRoom(h: HubState, rid: RID, order: seq<CID>, picks: seq<CID>, sender: CID,
      c: ClientId)
    requires Core(h) && rid in h.rooms && |picks| == |order|
    requires AttachedTo(h.rooms[rid], sender, c)
    requires forall i, j :: 0 <= i < j < |order| ==> order[i] != order[j]
    requires forall o :: o in order ==> Excluded(h.rooms[rid], o, h.now / MILLISECOND)
    ensures
      var r, k := h.rooms[rid], EvictAll(h, rid, h.rooms[rid].id, order, picks);
      && rid in k.rooms && k.rooms[rid].id == r.id && k.now == h.now
      && k.rooms[rid].byCID == r.byCID - (set o | o in order)
      && k.rooms[rid].liveness == r.liveness - (set o | o in order)
      && k.rooms[rid].reporters == r.reporters - (set o | o in order)
      && OnlyRoom(h, k, rid)
    decreases |order|
  {
    hide Core, RoomInv, EvictionFires;
    if order == [] {
      assert h.rooms[rid].byCID - {} == h.rooms[rid].byCID;
    } else {
      var k := EvictionFires(h, rid, h.rooms[rid].id, order[0], picks[0]);
      assert order[0] in order;
      EvictOne(h, rid, order[0], picks[0], sender);
      EvictionFiresKeeps(h, rid, h.rooms[rid].id, order[0], picks[0]);
      StillExcluded(h.rooms[rid], k.rooms[rid], order, h.now / MILLISECOND);
      EvictAllRoom(k, rid, order[1..], picks[1..], sender, c);
      assert (set o | o in order) == {order[0]} + (set o | o in order[1..]);
    }
  }

  lemma StillExcluded(r: RoomState, s: RoomState, order: seq<CID>, nowMs: int)
    requires order != [] && s.byCID == r.byCID - {order[0]} && s.liveness == r.liveness - {order[0]}
    requires forall i, j :: 0 <= i < j < |order| ==> order[i] != order[j]
    requires forall o :: o in order ==> Excluded(r, o, nowMs)
    ensures forall o :: o in order[1..] ==> Excluded(s, o, nowMs)
  {
    forall o | o in order[1..]
      ensures Excluded(s, o, nowMs)
    {
      var i :| 0 <= i < |order[1..]| && order[1..][i] == o;
      assert order[i + 1] == o && order[0] != order[i + 1];
      assert o in order && Excluded(r, o, nowMs);
    }
  }

  lemma EvictOne(h: HubState, rid: RID, cid: CID, pick: CID, sender: CID)
    requires Core(h) && rid in h.rooms && Excluded(h.rooms[rid], cid, h.now / MILLISECOND)
    requires sender in h.rooms[rid].byCID && sender != cid
    ensures
      var k := EvictionFires(h, rid, h.rooms[rid].id, cid, pick);
      && rid in k.rooms && k.rooms[rid].id == h.rooms[rid].id && k.now == h.now
      && k.rooms[rid].byCID == h.rooms[rid].byCID - {cid}
      && k.rooms[rid].liveness == h.rooms[rid].liveness - {cid}
      && k.rooms[rid].reporters == h.rooms[rid].reporters - {cid}
      && OnlyRoom(h, k, rid)
  {
    hide Core, RoomInv, Remove, Settle, Excluded, RecentMedia, EvictionFires, TakeOut;
    GhostsAreEvicted(h.rooms[rid], cid, h.now);
    TakenOut(h, rid, cid, pick);
    var v := Remove(h.rooms[rid], cid, pick, h.now);
    var out := TakeOut(h, rid, cid, pick);
    SettleIs(out, rid);
    RemovedTables(h.rooms[rid], cid, pick, h.now);
    assert sender in v.byCID;
    EvictsNow(h, rid, cid, pick);
  }

  lemma TakenOut(h: HubState, rid: RID, cid: CID, pick: CID)
    requires rid in h.rooms && cid in h.rooms[rid].byCID
    ensures TakeOut(h, rid, cid, pick) == PutRoom(h, rid, Remove(h.rooms[rid], cid, pick, h.now))
  {}

  lemma EvictsNow(h: HubState, rid: RID, cid: CID, pick: CID)
    requires rid in h.rooms && Suspended(h.rooms[rid], cid) && !RecentMedia(h.rooms[rid], cid, h.now)
    ensures EvictionFires(h, rid, h.rooms[rid].id, cid, pick) == Settle(TakeOut(h, rid, cid, pick), rid)
  {
    hide Settle, TakeOut;
  }

  /** After a media_liveness message no stale suspended record is left in the room,
      and every record that was not stale is still there. */
  lemma NoGhostsLeft(h: HubState, c: ClientId, reports: seq<CID>, order: seq<CID>, picks: seq<CID>)
    requires Core(h) && LivenessAccepted(h, c) && |picks| == |order|
    requires forall i, j :: 0 <= i < j < |order| ==> order[i] != order[j]
    requires (set cid | cid in order) == Ghosts(Reported(h, c, reports), h.now / MILLISECOND)
    ensures
      var rid, k := Info(h, c).rid, LivenessMessage(h, c, reports, order, picks);
      var m, nowMs := Reported(h, c, reports), h.now / MILLISECOND;
      && rid in k.rooms
      && k.rooms[rid].byCID == m.byCID - StaleSuspended(m, nowMs)
      && k.rooms[rid].liveness == m.liveness - StaleSuspended(m, nowMs)
      && k.rooms[rid].reporters == m.reporters - StaleSuspended(m, nowMs)
      && StaleSuspended(k.rooms[rid], nowMs) == {}
      && OnlyRoom(h, k, rid)
  {
    hide Core, RoomInv, Ghosts, EvictAll, Fits, RecordReports;
    var rid, m, nowMs := Info(h, c).rid, Reported(h, c, reports), h.now / MILLISECOND;
    var r := h.rooms[rid];
    AttachedRecord(h, rid, c);
    var sender := r.byClient[c];
    RoomOf(h, rid);
    GhostScanIsFilter(r, sender, c, reports, nowMs);
    RecordedSame(r, sender, reports, nowMs);
    ReportFits(h, c, reports);
    PutKeeps(h, rid, m);
    forall o | o in order
      ensures Excluded(m, o, nowMs)
    {
      assert o in StaleSuspended(m, nowMs);
    }
    EvictAllRoom(PutRoom(h, rid, m), rid, order, picks, sender, c);
  }

  lemma RecordedSame(r: RoomState, sender: CID, reports: seq<CID>, nowMs: int)
    ensures RecordReports(r, sender, reports, nowMs).byCID == r.byCID
    ensures RecordReports(r, sender, reports, nowMs).id == r.id
  {}

  /** Suspended for 30 s, not reported now, and not reported in the last 30 s. */
  ghost function GivenUp(r: RoomState, reports: seq<CID>, nowMs: int): set<CID> {
    set cid | cid in r.byCID && r.byCID[cid].client.None? && nowMs - r.byCID[cid].suspendedAt / 1_000_000 >= 30_000
           && cid !in reports && !(cid in r.liveness && nowMs - r.liveness[cid] <= 30_000)
  }

  /** Latest wins. */
  function Later(m: map<CID, int>, cid: CID, atMs: int): int {
    if cid in m && m[cid] > atMs then m[cid] else atMs
  }

  /** A media report stamps exactly the members it names other than the sender, and the
      sender as a reporter, in milliseconds; a stamp never goes back.  It removes exactly
      the suspended members whom nobody has seen lately. */
  lemma MediaReport(h: HubState, c: ClientId, rid: RID, sender: CID, reports: seq<CID>, order: seq<CID>,
                    picks: seq<CID>, at: int)
    requires Core(h) && Enabled(h, Liveness(c, reports, order, picks), at)
    requires rid in h.rooms && AttachedTo(h.rooms[rid], sender, c)
    ensures
      var k, r, nowMs := Step(h, Liveness(c, reports, order, picks), at), h.rooms[rid], at / 1_000_000;
      && rid in k.rooms && OnlyRoom(h.(now := at), k, rid)
      && var s := k.rooms[rid];
         && s.byCID == r.byCID - GivenUp(r, reports, nowMs)
         && s.liveness.Keys <= s.byCID.Keys && s.reporters.Keys <= s.byCID.Keys
         && (forall cid :: cid in s.byCID ==>
               if cid in reports && cid != sender
               then cid in s.liveness && s.liveness[cid] == Later(r.liveness, cid, nowMs)
               else && (cid in s.liveness <==> cid in r.liveness)
                    && (cid in s.liveness ==> s.liveness[cid] == r.liveness[cid]))
         && (forall cid :: cid in s.byCID ==>
               if cid == sender then cid in s.reporters && s.reporters[cid] == Later(r.reporters, cid, nowMs)
               else && (cid in s.reporters <==> cid in r.reporters)
                    && (cid in s.reporters ==> s.reporters[cid] == r.reporters[cid]))
  {
    hide Core, RoomInv, Ghosts, LivenessMessage, RecordReports, StaleSuspended, GivenUp, Later, Enabled, Step;
    hide Indexed, CapacitySafe, Negotiated, Bounded;
    var n, r, nowMs := h.(now := at), h.rooms[rid], at / 1_000_000;
    Promised(h, Liveness(c, reports, order, picks), at);
    ClockKeeps(h, at);
    TransportsOff(n, rid, sender, c);
    RoomOf(n, rid);
    Parts(r, n.limit, at);
    NoNullCid(n, rid);
    ScanPromised(h, c, reports, order, picks, at);
    Stamped(r, sender, reports, nowMs);
    StaleIsGivenUp(r, sender, reports, nowMs);
    NoGhostsLeft(n, c, reports, order, picks);
  }

  lemma ScanPromised(h: HubState, c: ClientId, reports: seq<CID>, order: seq<CID>, picks: seq<CID>, at: int)
    requires Enabled(h, Liveness(c, reports, order, picks), at) && c in h.clients
    requires LivenessAccepted(h.(now := at), c)
    ensures
      var n := h.(now := at);
      && |picks| == |order| && (forall i, j :: 0 <= i < j < |order| ==> order[i] != order[j])
      && (set cid | cid in order) == Ghosts(Reported(n, c, reports), at / MILLISECOND)
      && Step(h, Liveness(c, reports, order, picks), at) == LivenessMessage(n, c, reports, order, picks)
  {
    hide Ghosts, Reported, LivenessAccepted, LivenessMessage;
  }

  lemma Stamped(r: RoomState, sender: CID, reports: seq<CID>, nowMs: int)
    requires sender in r.byCID && NO_CID !in r.byCID
    requires r.liveness.Keys <= r.byCID.Keys && r.reporters.Keys <= r.byCID.Keys
    ensures
      var m := RecordReports(r, sender, reports, nowMs);
      && m.byCID == r.byCID && m.liveness.Keys <= r.byCID.Keys && m.reporters.Keys <= r.byCID.Keys
      && (forall cid :: cid in r.byCID ==>
            if cid in reports && cid != sender
            then cid in m.liveness && m.liveness[cid] == Later(r.liveness, cid, nowMs)
            else && (cid in m.liveness <==> cid in r.liveness)
                 && (cid in m.liveness ==> m.liveness[cid] == r.liveness[cid]))
      && (forall cid :: cid in r.byCID ==>
            if cid == sender then cid in m.reporters && m.reporters[cid] == Later(r.reporters, cid, nowMs)
            else && (cid in m.reporters <==> cid in r.reporters)
                 && (cid in m.reporters ==> m.reporters[cid] == r.reporters[cid]))
  {}

  lemma StaleIsGivenUp(r: RoomState, sender: CID, reports: seq<CID>, nowMs: int)
    requires Timed(r) && sender in r.byCID && r.byCID[sender].client.Some? && NO_CID !in r.byCID
    requires r.liveness.Keys <= r.byCID.Keys && r.reporters.Keys <= r.byCID.Keys
    ensures StaleSuspended(RecordReports(r, sender, reports, nowMs), nowMs) == GivenUp(r, reports, nowMs)
  {
    hide RecordReports;
    Stamped(r, sender, reports, nowMs);
  }
}
