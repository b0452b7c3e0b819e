/** Timed bounds over runs in which timers are prompt, and the one way past them:
    a reconnect that the capability check refuses starts both timers afresh. */
module TimedTheorems {
  import opened Wrappers
  import opened SignalingTypes
  import opened RoomSpec
  import opened RoomInvariant
  import opened HubSpec
  import opened HubInvariant
  import opened HubSteps
  import opened RoomHistory
  import opened HubTheorems
  import opened ReachableRooms

  /** No armed timer of the room is overdue. */
  ghost predicate Prompt(r: RoomState, now: int) {
    && (r.idleAt.Some? ==> now <= r.idleAt.value)
    && (forall cid :: cid in r.byCID && r.byCID[cid].evictAt.Some? ==> now <= r.byCID[cid].evictAt.value)
  }

  /** The step is a reconnect to a member of the room, refused for its capability. */
  ghost predicate Refuses(h: HubState, e: Event, at: int, rid: RID) {
    Meets(h, e, at, Refused) && e.req.rid == rid
  }

  ghost predicate RefusesSlot(h: HubState, e: Event, at: int, rid: RID, cid: CID) {
    Refuses(h, e, at, rid) && e.req.reconnectCid == cid
  }

  ghost predicate Idle(h: HubState, rid: RID, id: nat) {
    rid in h.rooms && h.rooms[rid].id == id && h.rooms[rid].byClient == map[]
  }

  // ----- single steps ------------------------------------------------------------------

  /** The no-active deadline of a room that stays idle moves exactly when a reconnect is refused. */
  lemma StepIdle(h: HubState, e: Event, at: int, rid: RID, id: nat)
    requires Core(h) && Enabled(h, e, at) && Idle(h, rid, id) && Idle(Step(h, e, at), rid, id)
    ensures Step(h, e, at).rooms[rid].idleAt
         == if Refuses(h, e, at, rid) then Some(at + NO_ACTIVE_ROOM_TIMEOUT) else h.rooms[rid].idleAt
  {
    hide Core, Enabled, Step;
    if e.Join? {
      JoinIdle(h, e, at, rid, id);
    } else {
      StepQuiet(h, e, at);
    }
  }

  lemma JoinIdle(h: HubState, e: Event, at: int, rid: RID, id: nat)
    requires Core(h) && Enabled(h, e, at) && e.Join? && Idle(h, rid, id) && Idle(Step(h, e, at), rid, id)
    ensures Step(h, e, at).rooms[rid].idleAt
         == if Refuses(h, e, at, rid) then Some(at + NO_ACTIVE_ROOM_TIMEOUT) else h.rooms[rid].idleAt
  {
    hide Core, RoomInv, JoinRoom, JoinMessage, AfterLeave, Arrival, Enabled, FateRoom, FateOf, Reaches;
    var n := h.(now := at);
    Promised(h, e, at);
    ClockKeeps(h, at);
    RoomOf(h, rid);
    if e.c in h.clients {
      JoinSplit(n, e.c, e.req, e.newCid, e.pick, e.pick2);
      var x := Arrival(n, e.c, e.req, e.pick);
      if Reaches(AfterLeave(n, e.c, e.pick), e.req) {
        JoinRooms(x, e.c, e.req, e.newCid);
        if e.req.rid == rid {
          FateIdle(x, e.c, e.req, e.newCid);
          FateFounds(x, e.req);
        }
      }
    }
  }

  lemma FateFounds(h: HubState, req: JoinRequest)
    ensures FateOf(h, req).Founded? <==> req.rid !in h.rooms
  {}

  lemma FateIdle(h: HubState, c: ClientId, req: JoinRequest, newCid: CID)
    ensures
      var s := FateRoom(h, c, req, newCid);
      match FateOf(h, req)
      case Refused => s.byClient == map[] ==> s.idleAt == Some(h.now + NO_ACTIVE_ROOM_TIMEOUT)
      case Rejected => s == h.rooms[req.rid]
      case Founded => s.id == h.nextRoom
      case _ => s.byClient != map[]
  {
    var s := FateRoom(h, c, req, newCid);
    if FateOf(h, req).Refused? {
      assert req.reconnectCid in s.byCID;
    } else if Accepted(FateOf(h, req)) {
      assert c in s.byClient;
    }
  }

  /** The suspension stamp of a participant that stays suspended moves exactly when
      its own reconnect is refused. */
  lemma StepSlot(h: HubState, e: Event, at: int, rid: RID, cid: CID)
    requires Core(h) && Enabled(h, e, at) && rid in h.rooms && Suspended(h.rooms[rid], cid)
    requires rid in Step(h, e, at).rooms && Suspended(Step(h, e, at).rooms[rid], cid)
    requires Step(h, e, at).rooms[rid].id == h.rooms[rid].id
    ensures Step(h, e, at).rooms[rid].byCID[cid].suspendedAt
         == if RefusesSlot(h, e, at, rid, cid) then at else h.rooms[rid].byCID[cid].suspendedAt
  {
    hide Core, Enabled, Step;
    if e.Join? {
      JoinSlot(h, e, at, rid, cid);
    } else {
      StepQuiet(h, e, at);
    }
  }

  lemma JoinSlot(h: HubState, e: Event, at: int, rid: RID, cid: CID)
    requires Core(h) && Enabled(h, e, at) && e.Join? && rid in h.rooms && Suspended(h.rooms[rid], cid)
    requires rid in Step(h, e, at).rooms && Suspended(Step(h, e, at).rooms[rid], cid)
    requires Step(h, e, at).rooms[rid].id == h.rooms[rid].id
    ensures Step(h, e, at).rooms[rid].byCID[cid].suspendedAt
         == if RefusesSlot(h, e, at, rid, cid) then at else h.rooms[rid].byCID[cid].suspendedAt
  {
    hide Core, RoomInv, JoinRoom, JoinMessage, AfterLeave, Arrival, Enabled, FateRoom;
    var n := h.(now := at);
    Promised(h, e, at);
    ClockKeeps(h, at);
    RoomOf(h, rid);
    if e.c in h.clients {
      JoinSplit(n, e.c, e.req, e.newCid, e.pick, e.pick2);
      var x := Arrival(n, e.c, e.req, e.pick);
      if Reaches(AfterLeave(n, e.c, e.pick), e.req) {
        JoinRooms(x, e.c, e.req, e.newCid);
        if e.req.rid == rid {
          FateSlot(x, e.c, e.req, e.newCid, cid);
        }
      }
    }
  }

  lemma FateSlot(h: HubState, c: ClientId, req: JoinRequest, newCid: CID, cid: CID)
    ensures req.rid !in h.rooms ==> FateRoom(h, c, req, newCid).id == h.nextRoom
    ensures
      req.rid in h.rooms ==>
        var r, s := h.rooms[req.rid], FateRoom(h, c, req, newCid);
        Suspended(s, cid) ==>
          && cid in r.byCID
          && s.byCID[cid].suspendedAt ==
             if FateOf(h, req).Refused? && req.reconnectCid == cid then h.now else r.byCID[cid].suspendedAt
  {}

  // ----- runs ------------------------------------------------------------------------------

  /** The room is there, the same one, and without transports in every state of the run. */
  ghost predicate IdleThrough(h: HubState, events: seq<(Event, int)>, rid: RID, id: nat)
    requires Run(h, events)
    decreases |events|
  {
    && Idle(h, rid, id)
    && (events == [] || IdleThrough(Step(h, events[0].0, events[0].1), events[1..], rid, id))
  }

  /** When the run last refused a reconnect to the room, or `since` if it never did. */
  ghost function LastRefusal(h: HubState, events: seq<(Event, int)>, rid: RID, since: int): int
    requires Run(h, events)
    decreases |events|
  {
    if events == [] then since
    else
      var e, at := events[0].0, events[0].1;
      LastRefusal(Step(h, e, at), events[1..], rid, if Refuses(h, e, at, rid) then at else since)
  }

  /** Some reconnect to the room was refused later than `since`. */
  ghost predicate RefusedAfter(h: HubState, events: seq<(Event, int)>, rid: RID, since: int)
    requires Run(h, events)
    decreases |events|
  {
    && events != []
    && (var e, at := events[0].0, events[0].1;
        (Refuses(h, e, at, rid) && at > since) || RefusedAfter(Step(h, e, at), events[1..], rid, since))
  }

  /** While a room stays idle its deadline is ten seconds after the last refused
      reconnect, or after the moment it was armed. */
  lemma {:induction false} IdleDeadline(h: HubState, events: seq<(Event, int)>, rid: RID, id: nat, since: int)
    requires Core(h) && Run(h, events) && IdleThrough(h, events, rid, id)
    requires h.rooms[rid].idleAt == Some(since + NO_ACTIVE_ROOM_TIMEOUT)
    ensures Idle(After(h, events), rid, id)
    ensures After(h, events).rooms[rid].idleAt == Some(LastRefusal(h, events, rid, since) + NO_ACTIVE_ROOM_TIMEOUT)
    decreases |events|
  {
    hide Core, Step, Enabled, Refuses;
    if events != [] {
      var e, at := events[0].0, events[0].1;
      StepKeeps(h, e, at);
      StepIdle(h, e, at, rid, id);
      IdleDeadline(Step(h, e, at), events[1..], rid, id, if Refuses(h, e, at, rid) then at else since);
    }
  }

  lemma {:induction false} RefusalsLater(h: HubState, events: seq<(Event, int)>, rid: RID, since: int, start: int)
    requires Core(h) && Run(h, events) && start <= since <= h.now
    ensures since <= LastRefusal(h, events, rid, since) <= After(h, events).now
    ensures LastRefusal(h, events, rid, since) > start <==> since > start || RefusedAfter(h, events, rid, start)
    decreases |events|
  {
    hide Core, Step, Enabled, Refuses;
    if events != [] {
      var e, at := events[0].0, events[0].1;
      StepKeeps(h, e, at);
      StepTime(h, e, at);
      Promised(h, e, at);
      RefusalsLater(Step(h, e, at), events[1..], rid, if Refuses(h, e, at, rid) then at else since, start);
    }
  }

  lemma ArmedWhen(h: HubState, rid: RID, id: nat)
    requires Core(h) && Idle(h, rid, id)
    ensures h.rooms[rid].idleAt.Some? && h.rooms[rid].idleAt.value <= h.now + NO_ACTIVE_ROOM_TIMEOUT
  {
    hide Core, RoomInv, Indexed, Populated, CapacitySafe, Negotiated;
    RoomOf(h, rid);
    Parts(h.rooms[rid], h.limit, h.now);
  }

  /** With prompt timers an idle room is gone ten seconds after the last refused
      reconnect; without one, ten seconds after any moment since which it is idle.
      Its deadline passes the one it was armed with if and only if a reconnect was
      refused in between. */
  lemma IdleRoomBound(h: HubState, limit: int, events: seq<(Event, int)>, rid: RID, id: nat)
    requires Reachable(h, limit) && Run(h, events) && IdleThrough(h, events, rid, id)
    requires rid in After(h, events).rooms ==> Prompt(After(h, events).rooms[rid], After(h, events).now)
    ensures After(h, events).now <= LastRefusal(h, events, rid, h.now) + NO_ACTIVE_ROOM_TIMEOUT
    ensures !RefusedAfter(h, events, rid, h.now) ==> After(h, events).now <= h.now + NO_ACTIVE_ROOM_TIMEOUT
    ensures Idle(h, rid, id) && h.rooms[rid].idleAt.Some?
    ensures Idle(After(h, events), rid, id) && After(h, events).rooms[rid].idleAt.Some?
    ensures After(h, events).rooms[rid].idleAt.value > h.rooms[rid].idleAt.value
      <==> RefusedAfter(h, events, rid, h.rooms[rid].idleAt.value - NO_ACTIVE_ROOM_TIMEOUT)
  {
    hide Core, Reachable, Run, After, IdleThrough, LastRefusal, RefusedAfter;
    ReachableCore(h, limit);
    assert Idle(h, rid, id) by { ThroughStart(h, events, rid, id); }
    ArmedWhen(h, rid, id);
    var since := h.rooms[rid].idleAt.value - NO_ACTIVE_ROOM_TIMEOUT;
    IdleDeadline(h, events, rid, id, since);
    RefusalsLater(h, events, rid, since, since);
    RefusalsLater(h, events, rid, h.now, h.now);
    LaterStart(h, events, rid, since, h.now);
  }

  lemma ThroughStart(h: HubState, events: seq<(Event, int)>, rid: RID, id: nat)
    requires Run(h, events) && IdleThrough(h, events, rid, id)
    ensures Idle(h, rid, id)
  {}

  lemma {:induction false} LaterStart(h: HubState, events: seq<(Event, int)>, rid: RID, a: int, b: int)
    requires Run(h, events) && a <= b
    ensures LastRefusal(h, events, rid, a) <= LastRefusal(h, events, rid, b)
    decreases |events|
  {
    hide Step, Enabled, Refuses;
    if events != [] {
      var e, at := events[0].0, events[0].1;
      if !Refuses(h, e, at, rid) {
        LaterStart(Step(h, e, at), events[1..], rid, a, b);
      }
    }
  }

  // ----- suspended participants ---------------------------------------------------------------

  ghost predicate SuspendedThrough(h: HubState, events: seq<(Event, int)>, rid: RID, id: nat, cid: CID)
    requires Run(h, events)
    decreases |events|
  {
    && rid in h.rooms && h.rooms[rid].id == id && Suspended(h.rooms[rid], cid)
    && (events == [] || SuspendedThrough(Step(h, events[0].0, events[0].1), events[1..], rid, id, cid))
  }

  ghost function LastSlotRefusal(h: HubState, events: seq<(Event, int)>, rid: RID, cid: CID, since: int): int
    requires Run(h, events)
    decreases |events|
  {
    if events == [] then since
    else
      var e, at := events[0].0, events[0].1;
      LastSlotRefusal(Step(h, e, at), events[1..], rid, cid, if RefusesSlot(h, e, at, rid, cid) then at else since)
  }

  /** Some reconnect to `cid` in the room was refused later than `since`. */
  ghost predicate RefusedSlotAfter(h: HubState, events: seq<(Event, int)>, rid: RID, cid: CID, since: int)
    requires Run(h, events)
    decreases |events|
  {
    && events != []
    && (var e, at := events[0].0, events[0].1;
        (RefusesSlot(h, e, at, rid, cid) && at > since)
        || RefusedSlotAfter(Step(h, e, at), events[1..], rid, cid, since))
  }

  lemma {:induction false} SlotRefusalsLater(
      h: HubState, events: seq<(Event, int)>, rid: RID, cid: CID, since: int, start: int)
    requires Core(h) && Run(h, events) && start <= since <= h.now
    ensures since <= LastSlotRefusal(h, events, rid, cid, since) <= After(h, events).now
    ensures LastSlotRefusal(h, events, rid, cid, since) > start
      <==> since > start || RefusedSlotAfter(h, events, rid, cid, start)
    decreases |events|
  {
    hide Core, Step, Enabled, RefusesSlot;
    if events != [] {
      var e, at := events[0].0, events[0].1;
      StepKeeps(h, e, at);
      StepTime(h, e, at);
      Promised(h, e, at);
      var s := if RefusesSlot(h, e, at, rid, cid) then at else since;
      SlotRefusalsLater(Step(h, e, at), events[1..], rid, cid, s, start);
    }
  }

  lemma {:induction false} SuspendedStamp(h: HubState, events: seq<(Event, int)>, rid: RID, id: nat, cid: CID)
    requires Core(h) && Run(h, events) && SuspendedThrough(h, events, rid, id, cid)
    ensures
      var k := After(h, events);
      && rid in k.rooms && k.rooms[rid].id == id && Suspended(k.rooms[rid], cid)
      && k.rooms[rid].byCID[cid].suspendedAt
         == LastSlotRefusal(h, events, rid, cid, h.rooms[rid].byCID[cid].suspendedAt)
    decreases |events|
  {
    hide Core, Step, Enabled, RefusesSlot;
    if events != [] {
      var e, at := events[0].0, events[0].1;
      StepKeeps(h, e, at);
      ThroughSlot(h, events, rid, id, cid);
      StepSlot(h, e, at, rid, cid);
      SuspendedStamp(Step(h, e, at), events[1..], rid, id, cid);
    }
  }

  lemma ThroughSlot(h: HubState, events: seq<(Event, int)>, rid: RID, id: nat, cid: CID)
    requires Run(h, events) && events != [] && SuspendedThrough(h, events, rid, id, cid)
    ensures
      var k := Step(h, events[0].0, events[0].1);
      rid in k.rooms && k.rooms[rid].id == id && Suspended(k.rooms[rid], cid)
  {
    hide Step, Enabled;
  }

  /** When a participant suspended, or last refused, at `s` has to be gone. */
  function SlotDeadline(r: RoomState, cid: CID, s: int): int {
    if cid in r.liveness
    then Max(s + SUSPEND_HARD_EVICTION_TIMEOUT, r.liveness[cid] * MILLISECOND + 60 * SECOND)
    else s + SUSPEND_HARD_EVICTION_TIMEOUT
  }

  /** With prompt timers a participant suspended at S, or refused a reconnect at S, is
      gone ten minutes later, or a minute after the last media report for it.  The
      moment it counts from passes the original one if and only if a reconnect to the
      participant itself was refused in between. */
  lemma SuspendedSlotBound(h: HubState, limit: int, events: seq<(Event, int)>, rid: RID, id: nat, cid: CID)
    requires Reachable(h, limit) && Run(h, events) && SuspendedThrough(h, events, rid, id, cid)
    requires rid in After(h, events).rooms ==> Prompt(After(h, events).rooms[rid], After(h, events).now)
    ensures rid in h.rooms && Suspended(h.rooms[rid], cid)
    ensures rid in After(h, events).rooms && Suspended(After(h, events).rooms[rid], cid)
    ensures
      var k, start := After(h, events), h.rooms[rid].byCID[cid].suspendedAt;
      var s := LastSlotRefusal(h, events, rid, cid, start);
      && k.rooms[rid].byCID[cid].suspendedAt == s
      && k.now <= SlotDeadline(k.rooms[rid], cid, s)
      && (s > start <==> RefusedSlotAfter(h, events, rid, cid, start))
      && (!RefusedSlotAfter(h, events, rid, cid, start) ==> k.now <= SlotDeadline(k.rooms[rid], cid, start))
  {
    hide Core, Reachable, RoomInv, Indexed, Populated, CapacitySafe, Negotiated, LastSlotRefusal, RefusedSlotAfter;
    ReachableCore(h, limit);
    assert rid in h.rooms && Suspended(h.rooms[rid], cid) by { SlotStart(h, events, rid, id, cid); }
    SuspendedStamp(h, events, rid, id, cid);
    RunKeeps(h, events);
    hide Run, SuspendedThrough, After;
    RoomOf(h, rid);
    Parts(h.rooms[rid], h.limit, h.now);
    var start := h.rooms[rid].byCID[cid].suspendedAt;
    SlotRefusalsLater(h, events, rid, cid, start, start);
    var k := After(h, events);
    RoomOf(k, rid);
    Parts(k.rooms[rid], k.limit, k.now);
  }

  lemma SlotStart(h: HubState, events: seq<(Event, int)>, rid: RID, id: nat, cid: CID)
    requires Run(h, events) && SuspendedThrough(h, events, rid, id, cid)
    ensures rid in h.rooms && h.rooms[rid].id == id && Suspended(h.rooms[rid], cid)
  {}

  // ----- the bound fails with refused reconnects ------------------------------------------------

  /** A reconnect by a client that declares no capability and presents no token. */
  function LegacyReconnect(rid: RID, cid: CID): JoinRequest {
    JoinRequest(rid, ValidId, cid, false, TokenBad, 0, None)
  }

  /** A room left to its one suspended member, with no timer due soon. */
  ghost predicate Deserted(r: RoomState, cid: CID, now: int) {
    && r.byClient == map[] && r.byCID.Keys == {cid} && r.byCID[cid].client.None? && r.maxParticipants > 2
    && Prompt(r, now + 9 * SECOND)
  }

  /** A deserted room, and a registered transport outside of any room. */
  ghost predicate Renewable(h: HubState, rid: RID, id: nat, cid: CID, c: ClientId) {
    && Core(h) && rid in h.rooms && h.rooms[rid].id == id && Deserted(h.rooms[rid], cid, h.now)
    && c in h.clients && Unattached(h, c)
  }

  function Refusal(rid: RID, cid: CID, c: ClientId): Event {
    Join(c, LegacyReconnect(rid, cid), CID("x" + cid.name), NO_CID, NO_CID)
  }

  /** One refused reconnect nine seconds later leaves the room as renewable as before. */
  lemma RefusalRenews(h: HubState, rid: RID, id: nat, cid: CID, c: ClientId)
    requires Renewable(h, rid, id, cid, c)
    ensures Enabled(h, Refusal(rid, cid, c), h.now + 9 * SECOND)
    ensures Renewable(Step(h, Refusal(rid, cid, c), h.now + 9 * SECOND), rid, id, cid, c)
    ensures Step(h, Refusal(rid, cid, c), h.now + 9 * SECOND).now == h.now + 9 * SECOND
  {
    hide Core, RoomInv, Enabled, Handle, Park, TakeSlot, Prompt, Refusal;
    var at, e := h.now + 9 * SECOND, Refusal(rid, cid, c);
    RefusalEnabled(h, rid, cid, c, at);
    ClockKeeps(h, at);
    StepKeeps(h, e, at);
    NoNullCid(h, rid);
    NameDiffers(cid);
    RefusedStep(h.(now := at), rid, cid, c);
    DesertedAgain(h.rooms[rid], cid, c, h.now, at);
    StillUnattached(h, Step(h, e, at), rid, c);
  }

  lemma StillUnattached(h: HubState, k: HubState, rid: RID, c: ClientId)
    requires Unattached(h, c) && k.rooms.Keys == h.rooms.Keys && rid in h.rooms
    requires forall o :: o in k.rooms && o != rid ==> k.rooms[o] == h.rooms[o]
    requires k.rooms[rid].byClient == map[]
    ensures Unattached(k, c)
  {}

  lemma NameDiffers(cid: CID)
    ensures CID("x" + cid.name) != cid && CID("x" + cid.name) != NO_CID
  {
    assert |"x" + cid.name| == |cid.name| + 1;
  }

  lemma RefusalEnabled(h: HubState, rid: RID, cid: CID, c: ClientId, at: int)
    requires rid in h.rooms && h.rooms[rid].byCID.Keys == {cid} && h.now <= at
    ensures Enabled(h, Refusal(rid, cid, c), at)
  {
    NameDiffers(cid);
  }

  lemma DesertedAgain(r: RoomState, cid: CID, c: ClientId, before: int, now: int)
    requires Deserted(r, cid, before) && now == before + 9 * SECOND
    ensures Deserted(Park(TakeSlot(r, cid, c), cid, now), cid, now) && Park(TakeSlot(r, cid, c), cid, now).id == r.id
  {
    var s := Park(TakeSlot(r, cid, c), cid, now);
    assert s.byClient == map[] && s.byCID.Keys == {cid};
  }

  /** `n` refused reconnects, nine seconds apart. */
  function Refusals(rid: RID, cid: CID, c: ClientId, now: int, n: nat): seq<(Event, int)>
    decreases n
  {
    if n == 0 then []
    else [(Refusal(rid, cid, c), now + 9 * SECOND)] + Refusals(rid, cid, c, now + 9 * SECOND, n - 1)
  }

  /** No timer of the room is overdue in any state of the run. */
  ghost predicate PromptThrough(h: HubState, events: seq<(Event, int)>, rid: RID)
    requires Run(h, events)
    decreases |events|
  {
    && (rid in h.rooms ==> Prompt(h.rooms[rid], h.now))
    && (events == [] || PromptThrough(Step(h, events[0].0, events[0].1), events[1..], rid))
  }

  lemma {:induction false} RefusalsRenew(h: HubState, rid: RID, id: nat, cid: CID, c: ClientId, n: nat)
    requires Renewable(h, rid, id, cid, c)
    ensures
      var events := Refusals(rid, cid, c, h.now, n);
      && Run(h, events)
      && IdleThrough(h, events, rid, id) && SuspendedThrough(h, events, rid, id, cid) && PromptThrough(h, events, rid)
      && After(h, events).now == h.now + n * (9 * SECOND)
    decreases n
  {
    hide Core, Enabled, Step, Unattached, Refusal;
    var events := Refusals(rid, cid, c, h.now, n);
    if n > 0 {
      RefusalRenews(h, rid, id, cid, c);
      var k := Step(h, Refusal(rid, cid, c), h.now + 9 * SECOND);
      RefusalsRenew(k, rid, id, cid, c, n - 1);
      assert events[1..] == Refusals(rid, cid, c, k.now, n - 1);
    }
  }

  /** The step of the refused reconnect: a transport in no room leaves none. */
  lemma RefusedStep(h: HubState, rid: RID, cid: CID, c: ClientId)
    requires Core(h) && rid in h.rooms && Suspended(h.rooms[rid], cid) && h.rooms[rid].maxParticipants > 2
    requires c in h.clients && Unattached(h, c) && cid != NO_CID && CID("x" + cid.name) !in h.rooms[rid].byCID
    ensures
      var k := Handle(h, Refusal(rid, cid, c));
      && k.rooms == h.rooms[rid := Park(TakeSlot(h.rooms[rid], cid, c), cid, h.now)]
      && k.now == h.now && k.clients == h.clients
  {
    hide Core, RoomInv, JoinMessage, Park, TakeSlot, Unattached;
    NameDiffers(cid);
    RoomOf(h, rid);
    PlainJoin(h, c, LegacyReconnect(rid, cid), CID("x" + cid.name));
  }

  // ----- such a room is reachable ---------------------------------------------------------------

  /** `b` left again; the capacity stays. */
  ghost predicate OneLeft(h: HubState, rid: RID, a: CID) {
    && h.now == 1 && h.clients == {0, 1, 2} && h.rooms.Keys == {rid}
    && var r := h.rooms[rid];
       r.byClient == map[0 := a] && r.byCID.Keys == {a} && r.maxParticipants == 4
  }

  lemma OneLeftReached(rid: RID, a: CID, b: CID) returns (h: HubState)
    requires rid != NO_RID && a != NO_CID && b != NO_CID && a != b
    ensures Reachable(h, 4) && OneLeft(h, rid, a)
  {
    hide Core, Reachable, Handle, Enabled;
    var l := TwoInReached(rid, a, b);
    ReachableCore(l, 4);
    assert Enabled(l, Leave(1, NO_CID), 1) by { AlwaysEnabled(l, Leave(1, NO_CID)); }
    ReachableStep(l, 4, Leave(1, NO_CID), 1);
    h := Step(l, Leave(1, NO_CID), 1);
    assert l.(now := 1) == l;
    LeaverGone(l, rid, b, 1);
  }

  lemma LeaverGone(h: HubState, rid: RID, cid: CID, c: ClientId)
    requires Core(h) && rid in h.rooms && c in h.rooms[rid].byClient && h.rooms[rid].byClient[c] == cid
    requires |h.rooms[rid].byCID.Keys| > 1
    ensures
      var k, r := Handle(h, Leave(c, NO_CID)), h.rooms[rid];
      && k.now == h.now && k.clients == h.clients && k.rooms.Keys == h.rooms.Keys
      && var s := k.rooms[rid];
         s.byClient == r.byClient - {c} && s.byCID == r.byCID - {cid} && s.maxParticipants == r.maxParticipants
  {
    hide Core, RoomInv, Settle, Remove, Fits;
    AttachedRecord(h, rid, c);
    RoomOf(h, rid);
    TakeOutRoom(h, rid, cid, NO_CID);
    assert |h.rooms[rid].byCID| == |h.rooms[rid].byCID.Keys|;
    SettleIs(TakeOut(h, rid, cid, NO_CID), rid);
    RemovedPlace(h.rooms[rid], cid, c, h.now);
  }

  lemma RemovedPlace(r: RoomState, cid: CID, c: ClientId, now: int)
    requires AttachedTo(r, cid, c)
    ensures
      var s := Remove(r, cid, NO_CID, now);
      s.byClient == r.byClient - {c} && s.byCID == r.byCID - {cid} && s.maxParticipants == r.maxParticipants
  {}

  /** Every room name has a reachable state in which the room is renewable. */
  lemma RenewableReached(rid: RID, a: CID, b: CID) returns (h: HubState, id: nat)
    requires rid != NO_RID && a != NO_CID && b != NO_CID && a != b
    ensures Reachable(h, 4) && Renewable(h, rid, id, a, 1)
  {
    hide Core, Reachable, Handle, Enabled, Suspend;
    var l := OneLeftReached(rid, a, b);
    ReachableCore(l, 4);
    DropStep(l, rid, a, 0);
    h := Step(l, Drop(0), 1);
    id := l.rooms[rid].id;
    ReachableCore(h, 4);
    RoomOf(l, rid);
    AttachedRecord(l, rid, 0);
    IdleOff(l, rid);
    SuspendedAlone(l.rooms[rid], a, 0, 1, l.limit);
  }

  lemma SuspendedAlone(r: RoomState, cid: CID, c: ClientId, now: int, limit: int)
    requires r.byClient == map[c := cid] && r.byCID.Keys == {cid} && r.maxParticipants > 2 && AttachedTo(r, cid, c)
    requires r.idleAt.None?
    ensures Deserted(Suspend(r, cid, now), cid, now) && Suspend(r, cid, now).id == r.id
  {
    assert Suspend(r, cid, now).byCID.Keys == {cid};
  }

  /** The ten seconds and the ten minutes are no bounds once reconnects may be refused:
      for any length there is a run from a reachable state in which every timer is
      prompt, the room stays without transports throughout, and its one participant
      stays suspended throughout. */
  lemma NoBoundWithRefusals(rid: RID, a: CID, b: CID, n: nat) returns (h: HubState, events: seq<(Event, int)>, id: nat)
    requires rid != NO_RID && a != NO_CID && b != NO_CID && a != b
    ensures Reachable(h, 4) && Run(h, events)
    ensures IdleThrough(h, events, rid, id) && SuspendedThrough(h, events, rid, id, a) && PromptThrough(h, events, rid)
    ensures After(h, events).now == h.now + n * (9 * SECOND)
  {
    hide Reachable, Renewable, Run, After, IdleThrough, SuspendedThrough, PromptThrough;
    h, id := RenewableReached(rid, a, b);
    events := Refusals(rid, a, 1, h.now, n);
    RefusalsRenew(h, rid, id, a, 1, n);
  }
  // ----- a suspension under an unchanged epoch ---------------------------------------------------

  /** Every room name has a reachable state and an enabled event that suspends a member
      with a live transport while the room keeps its epoch: a third transport that
      declares no capability reconnects to `b` and is refused. */
  lemma SuspendedUnderSameEpoch(rid: RID, a: CID, b: CID) returns (h: HubState, e: Event)
    requires rid != NO_RID && a != NO_CID && b != NO_CID && a != b
    ensures Reachable(h, 4) && Enabled(h, e, h.now)
    ensures
      var k := Step(h, e, h.now);
      && rid in h.rooms && rid in k.rooms
      && var r, s := h.rooms[rid], k.rooms[rid];
         && s.id == r.id && s.epoch == r.epoch
         && b in r.byCID && r.byCID[b].client.Some? && SuspendedCIDs(s) == SuspendedCIDs(r) + {b}
  {
    hide Core, Reachable, JoinMessage, FateRoom, Unattached, SuspendedCIDs;
    h := TwoInReached(rid, a, b);
    ReachableCore(h, 4);
    NobodysTransport(h, rid, 2);
    AttachedRecord(h, rid, 1);
    NewName(a, b);
    var newCid := CID("x" + a.name + b.name);
    e := Join(2, LegacyReconnect(rid, b), newCid, NO_CID, NO_CID);
    assert newCid !in {a, b};
    PlainJoin(h, 2, LegacyReconnect(rid, b), newCid);
    assert h.(now := h.now) == h;
    RefusedSuspends(h, 2, rid, b, newCid);
  }

  lemma RefusedSuspends(h: HubState, c: ClientId, rid: RID, cid: CID, newCid: CID)
    requires rid in h.rooms && cid in h.rooms[rid].byCID && cid != NO_CID && h.rooms[rid].maxParticipants > 2
    ensures
      var r, s := h.rooms[rid], FateRoom(h, c, LegacyReconnect(rid, cid), newCid);
      s.id == r.id && s.epoch == r.epoch && SuspendedCIDs(s) == SuspendedCIDs(r) + {cid}
  {}
}
