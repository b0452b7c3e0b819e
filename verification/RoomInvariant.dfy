/** What every room in the hub keeps, and that each room transition keeps it. */
module RoomInvariant {
  import opened Wrappers
  import opened SignalingTypes
  import opened RoomSpec

  /** `byClient` is the exact inverse of the attached part of `byCID`. */
  ghost predicate Indexed(r: RoomState) {
    && (forall c :: c in r.byClient ==> AttachedTo(r, r.byClient[c], c))
    && (forall cid :: cid in r.byCID && r.byCID[cid].client.Some? ==>
          r.byCID[cid].client.value in r.byClient && r.byClient[r.byCID[cid].client.value] == cid)
  }

  /** Timers cover exactly what they must. */
  ghost predicate Timed(r: RoomState) {
    && (forall cid :: cid in r.byCID ==>
          && (r.byCID[cid].client.None? <==> r.byCID[cid].evictAt.Some?)
          && (r.byCID[cid].client.None? <==> r.byCID[cid].suspendedAt != 0))
    && (r.idleAt.Some? <==> r.byClient == map[])
  }

  /** The room has members, one of them hosts, and the side tables speak of members only. */
  ghost predicate Populated(r: RoomState) {
    && r.host in r.byCID
    && NO_CID !in r.byCID
    && r.liveness.Keys <= r.byCID.Keys
    && r.reporters.Keys <= r.byCID.Keys
    && r.epoch >= 1
  }

  /** The capacity the room ends up with, as far as its present members promised. */
  function FinalMax(r: RoomState): int {
    if r.locked then r.maxParticipants else r.requestedMax
  }

  /** A client that declared this supports a room of this size; everybody supports two. */
  predicate Supports(cap: Option<int>, size: int) {
    size <= 2 || (cap.Some? && cap.value >= size)
  }

  ghost predicate CapacitySafe(r: RoomState, limit: int) {
    && 2 <= r.maxParticipants <= r.requestedMax <= limit
    && 1 <= |r.byCID| <= r.maxParticipants
    && (!r.locked ==> |r.byCID| == 1 && r.maxParticipants == 2)
    && (forall cid :: cid in r.byCID ==> Supports(r.byCID[cid].cap, FinalMax(r)))
  }

  predicate Dirtied(dirty: map<CID, set<CID>>, from: CID, to: CID) {
    from in dirty && to in dirty[from]
  }

  predicate Misses(o: Obs, from: CID, to: CID) {
    o.Missed? && o.from == from && to in o.targets
  }

  /** A completed attach of `to`, or the removal of either record, settles a missed message. */
  predicate Settles(o: Obs, from: CID, to: CID) {
    o == Attached(to) || o == Removed(from) || o == Removed(to)
  }

  /** `from` missed `to` and nothing has settled it since. */
  ghost predicate Pending(log: seq<Obs>, from: CID, to: CID) {
    exists i :: 0 <= i < |log| && Misses(log[i], from, to)
             && forall j :: i < j < |log| ==> !Settles(log[j], from, to)
  }

  /** `negotiationDirty` is exactly the pending pairs; each joins two distinct
      members, the second of them suspended. */
  ghost predicate Negotiated(r: RoomState) {
    && (forall f :: f in r.dirty ==> r.dirty[f] != {})
    && (forall f, t :: Dirtied(r.dirty, f, t) <==> Pending(r.log, f, t))
    && (forall f, t :: Dirtied(r.dirty, f, t) ==> f in r.byCID && f != t && Suspended(r, t))
  }

  /** The latest moment at which the eviction timer of `cid` may be set. */
  function EvictionBound(r: RoomState, cid: CID): int
    requires cid in r.byCID
  {
    var hard := r.byCID[cid].suspendedAt + SUSPEND_HARD_EVICTION_TIMEOUT;
    if cid in r.liveness
    then Max(hard, r.liveness[cid] * MILLISECOND + MEDIA_LIVENESS_FRESHNESS_WINDOW + HARD_EVICT_MEDIA_ACTIVE_DEFERRAL)
    else hard
  }

  ghost predicate Bounded(r: RoomState, now: int) {
    && (forall cid :: cid in r.byCID ==> 0 <= r.byCID[cid].suspendedAt <= now)
    && (forall cid :: cid in r.byCID && r.byCID[cid].evictAt.Some? ==>
          r.byCID[cid].evictAt.value <= EvictionBound(r, cid))
    && (forall cid :: cid in r.liveness ==> r.liveness[cid] * MILLISECOND <= now)
    && (r.idleAt.Some? ==> r.idleAt.value <= now + NO_ACTIVE_ROOM_TIMEOUT)
  }

  ghost predicate RoomInv(r: RoomState, limit: int, now: int) {
    Indexed(r) && Timed(r) && Populated(r) && CapacitySafe(r, limit) && Negotiated(r) && Bounded(r, now)
  }

  /** The invariant taken apart, for proofs that look at one part only. */
  lemma Parts(r: RoomState, limit: int, now: int)
    requires RoomInv(r, limit, now)
    ensures Indexed(r) && Timed(r) && Populated(r) && CapacitySafe(r, limit) && Negotiated(r) && Bounded(r, now)
  {
    hide Indexed, Timed, Populated, CapacitySafe, Negotiated, Bounded;
  }

  // ----- history ---------------------------------------------------------

  lemma PendingAppend(log: seq<Obs>, o: Obs, f: CID, t: CID)
    ensures Pending(log + [o], f, t) <==> Misses(o, f, t) || (Pending(log, f, t) && !Settles(o, f, t))
  {
    var ext := log + [o];
    if Misses(o, f, t) {
      assert ext[|log|] == o;
    }
    if Pending(log, f, t) && !Settles(o, f, t) {
      var i :| 0 <= i < |log| && Misses(log[i], f, t) && forall j :: i < j < |log| ==> !Settles(log[j], f, t);
      assert ext[i] == log[i];
      assert forall j :: i < j < |ext| ==> !Settles(ext[j], f, t);
    }
    if Pending(ext, f, t) && !Misses(o, f, t) {
      var i :| 0 <= i < |ext| && Misses(ext[i], f, t) && forall j :: i < j < |ext| ==> !Settles(ext[j], f, t);
      assert i < |log| && ext[|log|] == o;
      assert forall j :: i < j < |log| ==> !Settles(log[j], f, t) by {
        forall j | i < j < |log| ensures !Settles(log[j], f, t) { assert ext[j] == log[j]; }
      }
    }
  }

  // ----- the slot of one participant changes hands -------------------------

  /** `s` differs from `r` in the record of `cid` and in the index entry that goes with it. */
  ghost predicate SlotChanged(r: RoomState, s: RoomState, cid: CID) {
    && s.byCID.Keys == r.byCID.Keys + {cid}
    && (forall o :: o in r.byCID && o != cid ==> s.byCID[o] == r.byCID[o])
    && (forall c :: c in s.byClient <==> s.byCID[cid].client == Some(c) || (c in r.byClient && r.byClient[c] != cid))
    && (forall c :: c in s.byClient ==>
          s.byClient[c] == if s.byCID[cid].client == Some(c) then cid else r.byClient[c])
    && (forall c :: s.byCID[cid].client == Some(c) && c in r.byClient ==> r.byClient[c] == cid)
  }

  ghost predicate TablesKept(r: RoomState, s: RoomState) {
    && s.dirty == r.dirty && s.log == r.log && s.liveness == r.liveness && s.reporters == r.reporters
    && s.host == r.host && s.epoch >= r.epoch && s.locked == r.locked
    && s.maxParticipants == r.maxParticipants && s.requestedMax == r.requestedMax
  }

  /** A record is consistent on its own: it has a timer exactly when it has no transport. */
  ghost predicate RecordOk(r: RoomState, cid: CID, now: int)
    requires cid in r.byCID
  {
    var p := r.byCID[cid];
    && (p.client.None? <==> p.evictAt.Some?)
    && (p.client.None? <==> p.suspendedAt != 0)
    && 0 <= p.suspendedAt <= now
    && (p.evictAt.Some? ==> p.evictAt.value <= EvictionBound(r, cid))
  }

  ghost predicate IdleOk(r: RoomState, now: int) {
    && (r.idleAt.Some? <==> r.byClient == map[])
    && (r.idleAt.Some? ==> r.idleAt.value <= now + NO_ACTIVE_ROOM_TIMEOUT)
  }

  lemma SlotIndexed(r: RoomState, s: RoomState, cid: CID)
    requires Indexed(r) && SlotChanged(r, s, cid)
    ensures Indexed(s)
  {}

  lemma SlotKeeps(r: RoomState, s: RoomState, cid: CID, limit: int, now: int)
    requires RoomInv(r, limit, now) && cid in r.byCID
    requires SlotChanged(r, s, cid) && TablesKept(r, s)
    requires s.byCID[cid].cap == r.byCID[cid].cap && RecordOk(s, cid, now) && IdleOk(s, now)
    ensures Indexed(s) && Timed(s) && Populated(s) && CapacitySafe(s, limit) && Bounded(s, now)
    ensures s.byCID[cid].client.None? ==> Negotiated(s)
  {
    SlotIndexed(r, s, cid);
    SlotTimed(r, s, cid, limit, now);
    SlotCapacity(r, s, cid, limit);
    if s.byCID[cid].client.None? {
      forall f, t | Dirtied(s.dirty, f, t)
        ensures f in s.byCID && f != t && Suspended(s, t)
      {
        assert Dirtied(r.dirty, f, t);
      }
    }
  }

  lemma SlotTimed(r: RoomState, s: RoomState, cid: CID, limit: int, now: int)
    requires Timed(r) && Bounded(r, now) && cid in r.byCID
    requires SlotChanged(r, s, cid) && TablesKept(r, s) && RecordOk(s, cid, now) && IdleOk(s, now)
    ensures Timed(s) && Bounded(s, now)
  {
    assert forall o :: o in s.byCID && o != cid ==> EvictionBound(s, o) == EvictionBound(r, o);
  }

  lemma SlotCapacity(r: RoomState, s: RoomState, cid: CID, limit: int)
    requires CapacitySafe(r, limit) && Populated(r) && cid in r.byCID
    requires SlotChanged(r, s, cid) && TablesKept(r, s) && s.byCID[cid].cap == r.byCID[cid].cap
    ensures CapacitySafe(s, limit) && Populated(s)
  {
    assert s.byCID.Keys == r.byCID.Keys;
    SameSize(s, r);
  }

  lemma SameSize(a: RoomState, b: RoomState)
    requires a.byCID.Keys == b.byCID.Keys
    ensures |a.byCID| == |b.byCID|
  {
    assert |a.byCID| == |a.byCID.Keys| && |b.byCID| == |b.byCID.Keys|;
  }

  lemma TakenSlot(r: RoomState, cid: CID, c: ClientId)
    requires Indexed(r) && cid in r.byCID && c !in r.byClient
    ensures SlotChanged(r, TakeSlot(r, cid, c), cid)
  {}

  lemma ParkedSlot(r: RoomState, cid: CID, now: int)
    requires Indexed(r) && cid in r.byCID
    ensures SlotChanged(r, Park(r, cid, now), cid)
  {}

  lemma SwappedSlot(r: RoomState, prev: ClientId, next: ClientId)
    requires Indexed(r) && prev in r.byClient && next !in r.byClient
    ensures SlotChanged(r, SwapTransport(r, prev, next), r.byClient[prev])
  {}

  lemma AttachedSlot(r: RoomState, cid: CID, c: ClientId, cap: Option<int>)
    requires Indexed(r) && cid !in r.byCID && c !in r.byClient
    ensures SlotChanged(r, Attach(r, cid, c, cap), cid)
  {}

  // ----- transitions -----------------------------------------------------

  lemma TimePasses(r: RoomState, limit: int, now: int, later: int)
    requires RoomInv(r, limit, now) && now <= later
    ensures RoomInv(r, limit, later)
  {}

  lemma CompleteNegotiated(r: RoomState, cid: CID)
    requires forall f :: f in r.dirty ==> r.dirty[f] != {}
    requires forall f, t :: Dirtied(r.dirty, f, t) <==> Pending(r.log, f, t)
    requires forall f, t :: Dirtied(r.dirty, f, t) ==> f in r.byCID && f != t && (t == cid || Suspended(r, t))
    ensures Negotiated(Complete(r, cid))
    ensures forall f :: !Dirtied(Complete(r, cid).dirty, f, cid)
  {
    forall f, t
      ensures Dirtied(Complete(r, cid).dirty, f, t) <==> Pending(Complete(r, cid).log, f, t)
      ensures Dirtied(Complete(r, cid).dirty, f, t) <==> Dirtied(r.dirty, f, t) && t != cid
    {
      PendingAppend(r.log, Attached(cid), f, t);
      DrainedPair(r.dirty, cid, f, t);
    }
  }

  lemma DrainedPair(dirty: map<CID, set<CID>>, cid: CID, f: CID, t: CID)
    ensures Dirtied(DrainDirty(dirty, cid), f, t) <==> Dirtied(dirty, f, t) && t != cid
  {
    if Dirtied(dirty, f, t) && t != cid {
      assert t in dirty[f] - {cid};
    }
  }

  lemma DroppedPair(dirty: map<CID, set<CID>>, cid: CID, f: CID, t: CID)
    ensures Dirtied(DropDirty(dirty, cid), f, t) <==> Dirtied(dirty, f, t) && f != cid && t != cid
  {
    if Dirtied(dirty, f, t) && f != cid && t != cid {
      assert t in dirty[f] - {cid};
    }
  }

  /** A room in which `cid` just got its transport, short of the completion step. */
  ghost predicate Seated(r: RoomState, cid: CID, limit: int, now: int) {
    && Indexed(r) && Timed(r) && CapacitySafe(r, limit) && Bounded(r, now)
    && cid in r.byCID && NO_CID !in r.byCID
    && (r.host == NO_CID || r.host in r.byCID)
    && r.liveness.Keys <= r.byCID.Keys
    && r.reporters.Keys <= r.byCID.Keys
    && (forall f :: f in r.dirty ==> r.dirty[f] != {})
    && (forall f, t :: Dirtied(r.dirty, f, t) <==> Pending(r.log, f, t))
    && (forall f, t :: Dirtied(r.dirty, f, t) ==> f in r.byCID && f != t && (t == cid || Suspended(r, t)))
  }

  lemma CompleteKeeps(r: RoomState, cid: CID, limit: int, now: int)
    requires Seated(r, cid, limit, now)
    ensures RoomInv(Complete(r, cid), limit, now)
  {
    CompleteNegotiated(r, cid);
    var d := Complete(r, cid);
    assert forall o :: o in d.byCID ==> EvictionBound(d, o) == EvictionBound(r, o);
  }

  /** The first participant of a new room. */
  lemma FoundKeeps(id: nat, createMax: int, cid: CID, c: ClientId, cap: Option<int>, limit: int, now: int)
    requires 2 <= createMax <= limit && Supports(cap, createMax) && cid != NO_CID && now > 0
    ensures RoomInv(Complete(Attach(NewRoom(id, createMax), cid, c, cap), cid), limit, now)
  {
    var n := NewRoom(id, createMax);
    AttachedSlot(n, cid, c, cap);
    var a := Attach(n, cid, c, cap);
    SlotIndexed(n, a, cid);
    assert a.byCID.Keys == {cid};
    assert |a.byCID| == |a.byCID.Keys| == 1;
    assert c in a.byClient;
    CompleteKeeps(a, cid, limit, now);
  }

  /** A further participant of a room whose capacity is final. */
  lemma JoinKeeps(r: RoomState, cid: CID, c: ClientId, cap: Option<int>, limit: int, now: int)
    requires RoomInv(r, limit, now) && r.locked && |r.byCID| < r.maxParticipants
    requires cid !in r.byCID && cid != NO_CID && c !in r.byClient && Supports(cap, r.maxParticipants)
    ensures RoomInv(Complete(Attach(r, cid, c, cap), cid), limit, now)
  {
    var a := Attach(r, cid, c, cap);
    AttachedSlot(r, cid, c, cap);
    SlotIndexed(r, a, cid);
    AttachedTimed(r, cid, c, cap, limit, now);
    assert a.byCID.Keys == r.byCID.Keys + {cid};
    assert |a.byCID| == |a.byCID.Keys| == |r.byCID| + 1;
    SlotNegotiated(r, a, cid);
    CompleteKeeps(a, cid, limit, now);
  }

  lemma AttachedTimed(r: RoomState, cid: CID, c: ClientId, cap: Option<int>, limit: int, now: int)
    requires Timed(r) && Bounded(r, now) && cid !in r.byCID && 0 <= now
    ensures Timed(Attach(r, cid, c, cap)) && Bounded(Attach(r, cid, c, cap), now)
  {
    var a := Attach(r, cid, c, cap);
    assert c in a.byClient;
    assert forall o :: o in r.byCID ==> EvictionBound(a, o) == EvictionBound(r, o);
  }

  lemma SlotNegotiated(r: RoomState, s: RoomState, cid: CID)
    requires Negotiated(r) && SlotChanged(r, s, cid) && s.dirty == r.dirty
    ensures forall f, t :: Dirtied(s.dirty, f, t) ==> f in s.byCID && f != t && (t == cid || Suspended(s, t))
  {
    forall f, t | Dirtied(s.dirty, f, t)
      ensures f in s.byCID && f != t && (t == cid || Suspended(s, t))
    {
      assert Dirtied(r.dirty, f, t) && Suspended(r, t);
    }
  }

  lemma LockKeeps(r: RoomState, clientMax: int, limit: int, now: int)
    requires RoomInv(r, limit, now) && !r.locked && clientMax >= 2
    ensures RoomInv(LockCapacity(r, clientMax), limit, now)
    ensures |r.byCID| < LockCapacity(r, clientMax).maxParticipants <= clientMax
  {
    assert Negotiated(LockCapacity(r, clientMax)) by {
      NegotiatedSame(r, LockCapacity(r, clientMax));
    }
  }

  lemma NegotiatedSame(r: RoomState, s: RoomState)
    requires Negotiated(r) && s.dirty == r.dirty && s.log == r.log && s.byCID == r.byCID
    ensures Negotiated(s)
  {
    forall f, t | Dirtied(s.dirty, f, t)
      ensures f in s.byCID && f != t && Suspended(s, t)
    {
      assert Dirtied(r.dirty, f, t) && Suspended(r, t);
    }
  }

  /** An accepted reconnect. */
  lemma ReattachKeeps(r: RoomState, cid: CID, c: ClientId, limit: int, now: int)
    requires RoomInv(r, limit, now) && cid in r.byCID && c !in r.byClient
    ensures RoomInv(Complete(TakeSlot(r, cid, c), cid), limit, now)
  {
    TakenSlot(r, cid, c);
    var b := TakeSlot(r, cid, c);
    assert c in b.byClient;
    SlotKeeps(r, b, cid, limit, now);
    SlotNegotiated(r, b, cid);
    CompleteKeeps(b, cid, limit, now);
  }

  /** A refused reconnect leaves the slot as a transport drop would, but for the epoch. */
  lemma RollbackIsPark(r: RoomState, cid: CID, c: ClientId, now: int)
    requires Indexed(r) && cid in r.byCID && c !in r.byClient
    ensures Park(TakeSlot(r, cid, c), cid, now) == Park(r.(idleAt := None), cid, now)
  {
    assert Unlinked(r, cid)[c := cid] - {c} == Unlinked(r, cid);
  }

  lemma RollbackKeeps(r: RoomState, cid: CID, c: ClientId, limit: int, now: int)
    requires RoomInv(r, limit, now) && cid in r.byCID && c !in r.byClient && now > 0
    ensures RoomInv(Park(TakeSlot(r, cid, c), cid, now), limit, now)
  {
    RollbackIsPark(r, cid, c, now);
    var n := r.(idleAt := None);
    ParkedSlot(n, cid, now);
    ParkedOk(r, n, cid, now);
    hide Park, TakeSlot;
    SlotKeeps(r, Park(n, cid, now), cid, limit, now);
  }

  lemma ParkedOk(r: RoomState, n: RoomState, cid: CID, now: int)
    requires Indexed(r) && cid in r.byCID && n == r.(idleAt := n.idleAt) && now > 0
    requires n.idleAt.Some? ==> r.byClient == map[] && n.idleAt.value <= now + NO_ACTIVE_ROOM_TIMEOUT
    ensures
      var s := Park(n, cid, now);
      && TablesKept(r, s) && RecordOk(s, cid, now) && IdleOk(s, now)
      && s.byCID[cid].cap == r.byCID[cid].cap && s.byCID[cid].client.None?
      && (SlotChanged(n, s, cid) <==> SlotChanged(r, s, cid))
  {
    assert cid in Park(n, cid, now).byCID;
  }

  lemma SuspendKeeps(r: RoomState, cid: CID, limit: int, now: int)
    requires RoomInv(r, limit, now) && cid in r.byCID && r.byCID[cid].client.Some? && now > 0
    ensures RoomInv(Suspend(r, cid, now), limit, now)
  {
    ParkedSlot(r, cid, now);
    SlotKeeps(r, Suspend(r, cid, now), cid, limit, now);
  }

  lemma SwapKeeps(r: RoomState, prev: ClientId, next: ClientId, limit: int, now: int)
    requires RoomInv(r, limit, now) && prev in r.byClient && next !in r.byClient
    ensures RoomInv(SwapTransport(r, prev, next), limit, now) && SwapTransport(r, prev, next).id == r.id
  {
    var s, cid := SwapTransport(r, prev, next), r.byClient[prev];
    SwappedSlot(r, prev, next);
    assert next in s.byClient;
    SlotKeeps(r, s, cid, limit, now);
    forall f, t | Dirtied(s.dirty, f, t)
      ensures f in s.byCID && f != t && Suspended(s, t)
    {
      assert Dirtied(r.dirty, f, t);
    }
  }

  lemma DeferKeeps(r: RoomState, cid: CID, limit: int, now: int)
    requires RoomInv(r, limit, now) && Suspended(r, cid) && RecentMedia(r, cid, now)
    ensures RoomInv(Defer(r, cid, now), limit, now)
  {
    var d := Defer(r, cid, now);
    assert SlotChanged(r, d, cid);
    SlotKeeps(r, d, cid, limit, now);
  }

  lemma MarkMissedKeeps(r: RoomState, from: CID, targets: set<CID>, limit: int, now: int)
    requires RoomInv(r, limit, now) && from in r.byCID && from !in targets
    requires forall t :: t in targets ==> Suspended(r, t)
    ensures RoomInv(MarkMissed(r, from, targets), limit, now)
  {
    hide Indexed, Timed, CapacitySafe, Negotiated;
    SameTables(r, MarkMissed(r, from, targets), limit, now);
    MarkNegotiated(r, from, targets);
  }

  lemma MarkNegotiated(r: RoomState, from: CID, targets: set<CID>)
    requires Negotiated(r) && from in r.byCID && from !in targets && forall t :: t in targets ==> Suspended(r, t)
    ensures Negotiated(MarkMissed(r, from, targets))
  {
    hide Pending;
    var m := MarkMissed(r, from, targets);
    if targets != {} {
      forall f, t
        ensures Dirtied(m.dirty, f, t) <==> Dirtied(r.dirty, f, t) || (f == from && t in targets)
        ensures Dirtied(m.dirty, f, t) <==> Pending(m.log, f, t)
      {
        PendingAppend(r.log, Missed(from, targets), f, t);
      }
    }
  }

  /** Only negotiation and liveness tables differ, the latter upwards. */
  lemma SameTables(r: RoomState, m: RoomState, limit: int, now: int)
    requires RoomInv(r, limit, now)
    requires m == r.(dirty := m.dirty, log := m.log, liveness := m.liveness, reporters := m.reporters)
    requires m.liveness.Keys <= r.byCID.Keys && m.reporters.Keys <= r.byCID.Keys
    requires forall cid :: cid in m.liveness ==> m.liveness[cid] * MILLISECOND <= now
    requires forall cid :: cid in r.liveness ==> cid in m.liveness && r.liveness[cid] <= m.liveness[cid]
    ensures Indexed(m) && Timed(m) && Populated(m) && CapacitySafe(m, limit) && Bounded(m, now)
  {
    hide Negotiated;
  }

  lemma RecordKeeps(r: RoomState, sender: CID, reports: seq<CID>, limit: int, now: int)
    requires RoomInv(r, limit, now) && sender in r.byCID
    ensures RoomInv(RecordReports(r, sender, reports, now / MILLISECOND), limit, now)
  {
    hide Indexed, Timed, CapacitySafe, Negotiated;
    var m := RecordReports(r, sender, reports, now / MILLISECOND);
    SameTables(r, m, limit, now);
    NegotiatedSame(r, m);
  }

  // ----- removal ---------------------------------------------------------

  lemma DropDirtyPairs(r: RoomState, cid: CID)
    requires Negotiated(r)
    ensures forall f :: f in DropDirty(r.dirty, cid) ==> DropDirty(r.dirty, cid)[f] != {}
    ensures forall f, t :: Dirtied(DropDirty(r.dirty, cid), f, t) <==> Dirtied(r.dirty, f, t) && f != cid && t != cid
    ensures forall f, t :: Dirtied(DropDirty(r.dirty, cid), f, t) <==> Pending(r.log + [Removed(cid)], f, t)
  {
    forall f, t
      ensures Dirtied(DropDirty(r.dirty, cid), f, t) <==> Dirtied(r.dirty, f, t) && f != cid && t != cid
      ensures Dirtied(DropDirty(r.dirty, cid), f, t) <==> Pending(r.log + [Removed(cid)], f, t)
    {
      PendingAppend(r.log, Removed(cid), f, t);
      DroppedPair(r.dirty, cid, f, t);
    }
  }

  /** Exactly the record of `cid` and its index entry go. */
  lemma RemoveIndex(r: RoomState, cid: CID, pick: CID, now: int)
    requires Indexed(r) && cid in r.byCID
    ensures
      var v := Remove(r, cid, pick, now);
      && v.byCID == r.byCID - {cid}
      && (forall c :: c in v.byClient <==> c in r.byClient && r.byClient[c] != cid)
      && (forall c :: c in v.byClient ==> v.byClient[c] == r.byClient[c])
      && |v.byCID| == |r.byCID| - 1 && v.id == r.id
  {
    var v := Remove(r, cid, pick, now);
    assert v.byCID.Keys == r.byCID.Keys - {cid};
    assert |v.byCID.Keys| == |v.byCID|;
  }

  lemma RemoveKeeps(r: RoomState, cid: CID, pick: CID, limit: int, now: int)
    requires RoomInv(r, limit, now) && cid in r.byCID && |r.byCID| > 1
    ensures RoomInv(Remove(r, cid, pick, now), limit, now)
  {
    var v := Remove(r, cid, pick, now);
    RemoveIndex(r, cid, pick, now);
    HostStays(r, cid, pick, now);
    RemoveNegotiated(r, cid, pick, now);
    RemoveTimers(r, cid, pick, limit, now);
  }

  lemma RemoveTimers(r: RoomState, cid: CID, pick: CID, limit: int, now: int)
    requires RoomInv(r, limit, now) && cid in r.byCID && |r.byCID| > 1
    ensures Indexed(Remove(r, cid, pick, now)) && Timed(Remove(r, cid, pick, now))
    ensures Bounded(Remove(r, cid, pick, now), now)
  {
    RemoveIndex(r, cid, pick, now);
    var v := Remove(r, cid, pick, now);
    assert v.byCID != map[];
    assert r.byClient == map[] ==> v.byClient == map[];
    assert forall o :: o in v.byCID ==> EvictionBound(v, o) == EvictionBound(r, o);
  }

  lemma RemoveNegotiated(r: RoomState, cid: CID, pick: CID, now: int)
    requires Negotiated(r) && cid in r.byCID
    ensures Negotiated(Remove(r, cid, pick, now))
  {
    var v := Remove(r, cid, pick, now);
    DropDirtyPairs(r, cid);
    forall f, t | Dirtied(v.dirty, f, t)
      ensures f in v.byCID && f != t && Suspended(v, t)
    {
      assert Dirtied(r.dirty, f, t) && Suspended(r, t);
    }
  }

  /** After a removal the host is a member; a departing host is followed by an
      attached member whenever there is one. */
  lemma HostStays(r: RoomState, cid: CID, pick: CID, now: int)
    requires Indexed(r) && r.host in r.byCID && cid in r.byCID && |r.byCID| > 1
    ensures
      var v := Remove(r, cid, pick, now);
      && v.host in v.byCID
      && (r.host != cid ==> v.host == r.host)
      && (r.host == cid && v.byClient != map[] ==> v.byCID[v.host].client.Some?)
  {
    var v := Remove(r, cid, pick, now);
    RemoveIndex(r, cid, pick, now);
    assert v.byCID.Keys != {};
    if v.byClient != map[] {
      var c :| c in v.byClient;
      assert v.byClient[c] in v.byClient.Values;
    }
  }
}
