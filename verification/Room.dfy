/** The room object of the signaling server.  Its methods update the fields in
    place; each one is proved against the function of the same operation in RoomSpec. */
module SignalingRoom {
  import opened Wrappers
  import opened SignalingTypes
  import opened RoomSpec
  import opened HubSpec

  class Room {
    const rid: RID
    ghost const id: nat
    var byCID: map<CID, Participant>
    var byClient: map<ClientId, CID>
    var host: CID
    var maxParticipants: int
    var requestedMax: int
    var locked: bool
    var epoch: nat
    var dirty: map<CID, set<CID>>
    var liveness: map<CID, int>
    var reporters: map<CID, int>
    var idleAt: Option<int>
    ghost var log: seq<Obs>

    ghost function View(): RoomState
      reads this
    {
      RoomState(id, byCID, byClient, host, maxParticipants, requestedMax, locked, epoch, dirty, liveness, reporters,
                idleAt, log)
    }

    /** A group-capable room starts with room for two, to be locked by the second member. */
    constructor (rid: RID, createMax: int, ghost id: nat)
      ensures this.rid == rid && View() == NewRoom(id, createMax)
    {
      this.rid, this.id := rid, id;
      byCID, byClient, host := map[], map[], NO_CID;
      maxParticipants, requestedMax, locked := createMax, createMax, true;
      epoch, dirty, liveness, reporters, idleAt, log := 0, map[], map[], map[], None, [];
      if createMax > 2 {
        maxParticipants, locked := 2, false;
      }
    }

    method BumpEpoch() returns (now: nat)
      modifies this`epoch
      ensures now == epoch == old(epoch) + 1
    {
      epoch := epoch + 1;
      now := epoch;
    }

    // ----- lost negotiation -----------------------------------------------------------

    method MarkNegotiationDirty(from: CID, to: CID)
      modifies this`dirty
      ensures dirty == MarkDirty(old(dirty), from, {to})
    {
      if from !in dirty {
        dirty := dirty[from := {}];
      }
      dirty := dirty[from := dirty[from] + {to}];
    }

    /** Hands out, and forgets, the senders that owe `cid` a renegotiation. */
    method DrainDirtyPartnersFor(cid: CID) returns (partners: seq<CID>)
      modifies this`dirty
      ensures dirty == DrainDirty(old(dirty), cid)
      ensures Distinct(partners) && SetOf(partners) == DirtyPartners(old(dirty), cid)
    {
      partners := [];
      var was, rest := dirty, dirty.Keys;
      while rest != {}
        invariant rest <= was.Keys && Distinct(partners)
        invariant forall f :: f in partners <==> f in was && f !in rest && cid in was[f]
        invariant forall f :: f in dirty <==> f in was && (f !in rest && cid in was[f] ==> was[f] - {cid} != {})
        invariant forall f :: f in dirty ==> dirty[f] == if f in rest then was[f] else was[f] - {cid}
      {
        var f :| f in rest;
        rest := rest - {f};
        if cid in dirty[f] {
          partners := partners + [f];
          dirty := dirty[f := dirty[f] - {cid}];
          if dirty[f] == {} {
            dirty := dirty - {f};
          }
        }
      }
    }

    method DropCIDFromDirty(cid: CID)
      modifies this`dirty
      ensures dirty == DropDirty(old(dirty), cid)
    {
      dirty := dirty - {cid};
      var was, rest := dirty, dirty.Keys;
      while rest != {}
        invariant rest <= was.Keys
        invariant forall f :: f in dirty <==> f in was && (f in rest || was[f] - {cid} != {})
        invariant forall f :: f in dirty ==> dirty[f] == if f in rest then was[f] else was[f] - {cid}
      {
        var f :| f in rest;
        rest := rest - {f};
        dirty := dirty[f := dirty[f] - {cid}];
        if dirty[f] == {} {
          dirty := dirty - {f};
        }
      }
    }

    // ----- media liveness -------------------------------------------------------------

    method RecordMediaLiveness(cid: CID, atMs: int)
      modifies this`liveness
      ensures liveness == Stamp(old(liveness), cid, atMs)
    {
      if cid in liveness && liveness[cid] >= atMs {
        return;
      }
      liveness := liveness[cid := atMs];
    }

    method RecordMediaLivenessReporter(cid: CID, atMs: int)
      modifies this`reporters
      ensures reporters == Stamp(old(reporters), cid, atMs)
    {
      if cid in reporters && reporters[cid] >= atMs {
        return;
      }
      reporters := reporters[cid := atMs];
    }

    method HasRecentMediaLiveness(cid: CID, now: int) returns (recent: bool)
      ensures recent <==> RecentMedia(View(), cid, now)
    {
      if cid !in liveness {
        return false;
      }
      recent := now - liveness[cid] * MILLISECOND <= MEDIA_LIVENESS_FRESHNESS_WINDOW;
    }

    method DropMediaLivenessFor(cid: CID)
      modifies this`liveness, this`reporters
      ensures liveness == old(liveness) - {cid} && reporters == old(reporters) - {cid}
    {
      liveness, reporters := liveness - {cid}, reporters - {cid};
    }

    /** The reports of one media_liveness message: the sender is a reporter, and every
        other member it names was seen. */
    method RecordReports(sender: CID, reports: seq<CID>, nowMs: int)
      modifies this`liveness, this`reporters
      ensures View() == RoomSpec.RecordReports(old(View()), sender, reports, nowMs)
    {
      hide Reportable, StampAll, Stamp;
      ghost var r := View();
      RecordMediaLivenessReporter(sender, nowMs);
      NoReports(r, sender, nowMs);
      for i := 0 to |reports|
        invariant View() == r.(reporters := reporters, liveness := liveness)
        invariant reporters == Stamp(r.reporters, sender, nowMs)
        invariant liveness == StampAll(r.liveness, Reportable(r, sender, reports[..i]), nowMs)
      {
        var cid := reports[i];
        assert reports[..i + 1] == reports[..i] + [cid];
        OneMoreReport(r, sender, reports[..i], cid, nowMs);
        if cid == NO_CID || cid == sender || cid !in byCID {
          continue;
        }
        RecordMediaLiveness(cid, nowMs);
      }
      assert reports[..|reports|] == reports;
    }

    /** The nested scan for suspended members that nobody sees any more. */
    method SuspendedGhostsExcludedByActiveReporters(nowMs: int) returns (ghosts: seq<CID>)
      ensures Distinct(ghosts) && SetOf(ghosts) == Ghosts(View(), nowMs)
    {
      ghosts := [];
      var rest := byCID.Keys;
      while rest != {}
        invariant rest <= byCID.Keys && Distinct(ghosts)
        invariant forall cid :: cid in ghosts <==> cid in Ghosts(View(), nowMs) && cid !in rest
      {
        var cid :| cid in rest;
        rest := rest - {cid};
        var p := byCID[cid];
        if p.client.Some? || p.suspendedAt == 0 {
          continue;
        }
        if nowMs - p.suspendedAt / MILLISECOND < GHOST_EVICT_MIN_DWELL / MILLISECOND {
          continue;
        }
        if cid in liveness && nowMs - liveness[cid] <= MEDIA_LIVENESS_FRESHNESS_WINDOW / MILLISECOND {
          continue;
        }
        var anyFresh := ScanReporters(cid, nowMs);
        if anyFresh {
          ghosts := ghosts + [cid];
        }
      }
    }

    /** The inner loop of the scan. */
    method ScanReporters(cid: CID, nowMs: int) returns (anyFresh: bool)
      ensures anyFresh <==> AnyFreshReporter(View(), cid, nowMs)
    {
      anyFresh := false;
      var rest := byCID.Keys;
      while rest != {}
        invariant rest <= byCID.Keys && !anyFresh
        invariant forall peer :: peer !in rest ==> !FreshReporter(View(), peer, cid, nowMs)
      {
        var peer :| peer in rest;
        rest := rest - {peer};
        if peer == cid || byCID[peer].client.None? {
          continue;
        }
        if peer in reporters && nowMs - reporters[peer] <= MEDIA_LIVENESS_FRESHNESS_WINDOW / MILLISECOND {
          assert FreshReporter(View(), peer, cid, nowMs);
          return true;
        }
      }
    }

    // ----- members ----------------------------------------------------------------------

    method CancelNoActiveTimer()
      modifies this`idleAt
      ensures idleAt == None
    {
      idleAt := None;
    }

    method AttachParticipant(cid: CID, c: ClientId, cap: Option<int>)
      modifies this`byCID, this`byClient, this`idleAt
      ensures View() == Attach(old(View()), cid, c, cap)
    {
      byCID := byCID[cid := Participant(Some(c), 0, None, cap)];
      byClient := byClient[c := cid];
      CancelNoActiveTimer();
    }

    /** Gives the record of `cid` the transport `c`. */
    method ReattachClient(cid: CID, c: ClientId)
      requires cid in byCID && byCID[cid].client.None?
      modifies this`byCID, this`byClient, this`idleAt
      ensures View() == TakeSlot(old(View()), cid, c)
    {
      byCID := byCID[cid := byCID[cid].(client := Some(c), suspendedAt := 0)];
      if byCID[cid].evictAt.Some? {
        byCID := byCID[cid := byCID[cid].(evictAt := None)];
      }
      byClient := byClient[c := cid];
      CancelNoActiveTimer();
    }

    /** Takes the transport away from an active ghost, so that its record can be reattached. */
    method EvictTransport(cid: CID) returns (former: ClientId)
      requires cid in byCID && byCID[cid].client.Some?
      modifies this`byCID, this`byClient
      ensures old(byCID[cid].client) == Some(former)
      ensures View() == old(View()).(byCID := old(byCID)[cid := old(byCID)[cid].(client := None)],
                                     byClient := Unlinked(old(View()), cid))
    {
      former := byCID[cid].client.value;
      byClient := byClient - {former};
      byCID := byCID[cid := byCID[cid].(client := None)];
    }

    /** The reconnect path: an active ghost is pushed out, a suspended record just reattached. */
    method Reclaim(cid: CID, c: ClientId) returns (ghostToEvict: Option<ClientId>)
      requires cid in byCID
      modifies this`byCID, this`byClient, this`idleAt
      ensures ghostToEvict == old(byCID)[cid].client
      ensures View() == TakeSlot(old(View()), cid, c)
    {
      ghostToEvict := None;
      if byCID[cid].client.Some? {
        var former := EvictTransport(cid);
        ghostToEvict := Some(former);
      }
      ReattachClient(cid, c);
    }

    method DetachClient(cid: CID, now: int)
      requires cid in byCID
      modifies this`byCID, this`byClient
      ensures View() == if old(byCID[cid].client).None? then old(View()) else
        old(View()).(byCID := old(byCID)[cid := old(byCID)[cid].(client := None, suspendedAt := now)],
                     byClient := Unlinked(old(View()), cid))
    {
      if byCID[cid].client.None? {
        return;
      }
      byClient := byClient - {byCID[cid].client.value};
      byCID := byCID[cid := byCID[cid].(client := None, suspendedAt := now)];
    }

    method ArmHardEviction(cid: CID, at: int)
      requires cid in byCID
      modifies this`byCID
      ensures byCID == old(byCID)[cid := old(byCID)[cid].(evictAt := Some(at))]
    {
      byCID := byCID[cid := byCID[cid].(evictAt := Some(at))];
    }

    method ArmNoActiveTimer(now: int)
      modifies this`idleAt
      ensures View() == ArmIdle(old(View()), now)
    {
      if byClient.Keys != {} || byCID.Keys == {} || idleAt.Some? {
        return;
      }
      idleAt := Some(now + NO_ACTIVE_ROOM_TIMEOUT);
    }

    /** A transport drop: the record stays, without transport. */
    method SuspendParticipant(cid: CID, now: int)
      requires cid in byCID && byCID[cid].client.Some?
      modifies this
      ensures View() == Suspend(old(View()), cid, now)
    {
      DetachClient(cid, now);
      var e := BumpEpoch();
      ArmHardEviction(cid, now + SUSPEND_HARD_EVICTION_TIMEOUT);
      if byClient.Keys == {} {
        ArmNoActiveTimer(now);
      }
    }

    /** The refused reconnect gives the slot back, suspended. */
    method RollBack(cid: CID, now: int)
      requires cid in byCID && byCID[cid].client.Some?
      modifies this
      ensures View() == Park(old(View()), cid, now)
    {
      DetachClient(cid, now);
      ArmHardEviction(cid, now + SUSPEND_HARD_EVICTION_TIMEOUT);
      ArmNoActiveTimer(now);
    }

    method RemoveParticipant(cid: CID) returns (former: Option<ClientId>)
      requires cid in byCID
      modifies this`byCID, this`byClient
      ensures former == old(byCID)[cid].client
      ensures byCID == old(byCID) - {cid} && byClient == Unlinked(old(View()), cid)
    {
      former := byCID[cid].client;
      if former.Some? {
        byClient := byClient - {former.value};
      }
      byCID := byCID - {cid};
    }

    /** A departing host hands over to an attached member, or else to any other. */
    method TransferHostIfNeeded(departing: CID) returns (ghost pick: CID)
      modifies this`host
      ensures host == if old(host) == departing then NextHost(byCID, byClient, pick) else old(host)
    {
      pick := NO_CID;
      if host != departing {
        return;
      }
      var next := NO_CID;
      if byClient.Keys != {} {
        var c :| c in byClient;
        next := byClient[c];
        assert next in byClient.Values;
      } else if byCID.Keys != {} {
        assert byClient.Values == {};
        next :| next in byCID;
      } else {
        assert byClient.Values == {};
      }
      host, pick := next, next;
    }

    /** A participant leaves for good: all tables forget it.  Tells the transport it had. */
    method Depart(cid: CID, now: int) returns (former: Option<ClientId>, ghost pick: CID)
      requires cid in byCID
      modifies this
      ensures former == old(byCID)[cid].client
      ensures View() == Remove(old(View()), cid, pick, now)
    {
      hide DropDirty, NextHost, Unlinked;
      former := RemoveParticipant(cid);
      DropCIDFromDirty(cid);
      DropMediaLivenessFor(cid);
      pick := TransferHostIfNeeded(cid);
      var e := BumpEpoch();
      log := log + [Removed(cid)];
      ghost var expelled := View();
      assert expelled == Expel(old(View()), cid, pick);
      hide Expel;
      if byCID.Keys != {} && byClient.Keys == {} {
        ArmNoActiveTimer(now);
      }
    }

    /** A takeover: the record of `prev` goes to `next`. */
    method ReplaceTransport(prev: ClientId, next: ClientId) returns (cid: CID)
      requires prev in byClient
      modifies this`byCID, this`byClient
      ensures cid == old(byClient)[prev]
      ensures View() == SwapTransport(old(View()), prev, next)
    {
      cid := byClient[prev];
      byClient := byClient - {prev};
      if cid in byCID {
        byCID := byCID[cid := byCID[cid].(client := Some(next))];
      }
      byClient := byClient[next := cid];
    }

    /** Walks the members a message is for: the attached ones get it, and negotiation
        that misses a suspended one is marked. */
    method RouteMessage(sender: CID, to: CID, negotiates: bool) returns (targets: set<ClientId>, missed: set<CID>)
      modifies this`dirty, this`log
      ensures targets == TransportsOf(old(View()), Audience(old(View()), sender, to))
      ensures missed == if negotiates then SuspendedAudience(old(View()), sender, to) else {}
      ensures View() == MarkMissed(old(View()), sender, missed)
    {
      hide TransportsOf, Audience, SuspendedAudience, MarkDirty;
      targets, missed := {}, {};
      NoneSeen(View(), sender, to);
      ghost var r := View();
      var rest := byCID.Keys;
      ghost var seen: set<CID> := {};
      while rest != {}
        invariant rest <= byCID.Keys && seen == byCID.Keys - rest
        invariant targets == TransportsOf(r, Audience(r, sender, to) * seen)
        invariant missed == if negotiates then SuspendedAudience(r, sender, to) * seen else {}
        invariant dirty == MarkDirty(r.dirty, sender, missed)
        invariant View() == r.(dirty := dirty)
      {
        var cid :| cid in rest;
        rest, seen := rest - {cid}, seen + {cid};
        OneMoreMember(r, sender, to, seen - {cid}, cid);
        assert seen - {cid} + {cid} == seen;
        if cid == sender || (to != NO_CID && to != cid) {
          continue;
        }
        if byCID[cid].client.Some? {
          targets := targets + {byCID[cid].client.value};
          continue;
        }
        if negotiates {
          MarkNegotiationDirty(sender, cid);
          MarkedOneMore(r.dirty, sender, missed, cid);
          missed := missed + {cid};
        }
      }
      assert seen == r.byCID.Keys;
      AllSeen(r, sender, to);
      if missed != {} {
        log := log + [Missed(sender, missed)];
      }
    }

    /** A room that left the hub lets go of its tables. */
    method Clear()
      modifies this
      ensures byCID == map[] && byClient == map[] && host == NO_CID
      ensures dirty == map[] && liveness == map[] && reporters == map[] && idleAt == None
    {
      byCID, byClient, host := map[], map[], NO_CID;
      dirty, liveness, reporters, idleAt := map[], map[], map[], None;
    }

    // ----- joins --------------------------------------------------------------------------

    /** The second distinct participant fixes the capacity. */
    method LockCapacityFor(clientMax: int)
      modifies this`maxParticipants, this`locked
      ensures View() == LockCapacity(old(View()), clientMax)
    {
      var m := requestedMax;
      if m < 2 {
        m := 2;
      }
      if clientMax < m {
        m := clientMax;
      }
      maxParticipants, locked := m, true;
    }

    /** The end of an accepted join: host, epoch, and the pending renegotiations. */
    method CompleteJoin(cid: CID) returns (partners: seq<CID>)
      modifies this
      ensures View() == Complete(old(View()), cid)
      ensures SetOf(partners) == DirtyPartners(old(dirty), cid)
    {
      if host == NO_CID {
        host := cid;
      }
      var e := BumpEpoch();
      partners := DrainDirtyPartnersFor(cid);
      log := log + [Attached(cid)];
    }
  }

  lemma NoReports(r: RoomState, sender: CID, nowMs: int)
    ensures StampAll(r.liveness, Reportable(r, sender, []), nowMs) == r.liveness
  {}

  lemma OneMoreReport(r: RoomState, sender: CID, reports: seq<CID>, cid: CID, nowMs: int)
    ensures
      var known := StampAll(r.liveness, Reportable(r, sender, reports), nowMs);
      StampAll(r.liveness, Reportable(r, sender, reports + [cid]), nowMs)
      == if cid == NO_CID || cid == sender || cid !in r.byCID then known else Stamp(known, cid, nowMs)
  {
    var before, after := Reportable(r, sender, reports), Reportable(r, sender, reports + [cid]);
    if cid == NO_CID || cid == sender || cid !in r.byCID {
      assert after == before;
    } else {
      assert after == before + {cid};
    }
  }

  lemma MarkedOneMore(dirty: map<CID, set<CID>>, from: CID, targets: set<CID>, cid: CID)
    ensures MarkDirty(MarkDirty(dirty, from, targets), from, {cid}) == MarkDirty(dirty, from, targets + {cid})
  {
    var owed := if from in dirty then dirty[from] else {};
    assert owed + targets + {cid} == owed + (targets + {cid});
    if targets == {} {
      assert targets + {cid} == {cid};
    }
  }

  /** What the walk over the members of a room adds at `cid`. */
  lemma OneMoreMember(r: RoomState, sender: CID, to: CID, seen: set<CID>, cid: CID)
    requires cid in r.byCID
    ensures
      var meant, p := cid != sender && (to == NO_CID || to == cid), r.byCID[cid];
      && TransportsOf(r, Audience(r, sender, to) * (seen + {cid}))
         == TransportsOf(r, Audience(r, sender, to) * seen) + (if meant && p.client.Some? then {p.client.value} else {})
      && SuspendedAudience(r, sender, to) * (seen + {cid})
         == SuspendedAudience(r, sender, to) * seen + (if meant && p.client.None? then {cid} else {})
  {
    var all := Audience(r, sender, to);
    assert all * (seen + {cid}) == all * seen + if cid in all then {cid} else {};
  }

  lemma AllSeen(r: RoomState, sender: CID, to: CID)
    ensures Audience(r, sender, to) * r.byCID.Keys == Audience(r, sender, to)
    ensures SuspendedAudience(r, sender, to) * r.byCID.Keys == SuspendedAudience(r, sender, to)
  {}

  lemma NoneSeen(r: RoomState, sender: CID, to: CID)
    ensures TransportsOf(r, Audience(r, sender, to) * {}) == {} && SuspendedAudience(r, sender, to) * {} == {}
    ensures MarkDirty(r.dirty, sender, {}) == r.dirty
  {}
}
