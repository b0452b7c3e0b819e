# Serenada: a verified model of the signaling protocol

This Dafny project models the behaviour of the Serenada call server and of two
pieces of its iOS client, and proves properties of that model. Check it with
`dafny verify dfyconfig.toml`.

## What is modelled

**The signaling hub and its rooms** (`server/signaling.go`, and the takeover
steps of `server/sse.go`). Participants are stable records keyed by CID;
transports attach to them, drop, are replaced and return. The hub is a state
machine: every message, timer callback and transport event is one atomic step
on a clock in nanoseconds.

- `SignalingTypes`, `RoomSpec` and `HubSpec` give the state and every operation
  as functions on values. Outgoing messages are a log; a room also keeps a
  history of missed negotiation, completed attaches and removals, which no
  operation reads. Choices left open by map iteration (the next host, the order
  in which ghosts are evicted), generated identifiers, and the outcome of token
  and room-id validation are parameters of a step.
- `Room.dfy` and `Hub.dfy` are the imperative classes: their methods update
  fields in place and loop over maps as the server does, and each is proved to
  compute the function of the same operation. `Hub.HandleMessage` (for what
  transports send) and `Hub.HandleOccurrence` (for transports that come and go,
  HTTP leaves and timers) each make the one enabled step of the state machine
  that belongs to their message or occurrence, so whatever is proved about runs
  holds of the objects. `Hub.HandlePost` is the request that may combine two.
- `RoomInvariant`, `HubInvariant` and `HubSteps` hold the invariant and its
  preservation; `RoomHistory` says how a room may change from step to step.
- `EventTheorems`, `MessageTheorems`, `NegotiationTheorems` and `JoinTheorems`
  say what every single event does, in terms of the event as it came in and of
  the state alone: who is where, what is armed until when, who is sent what.
- `HubTheorems`, `TimedTheorems`, `WatcherTheorems`, `PayloadTheorems`,
  `ViewTheorems` and `TakeoverTheorems` state what the protocol promises over
  every run from the empty hub; `ReachableRooms` holds the small rooms that the
  witnesses start from.

**Smaller models**: the per-address rate limiter in real arithmetic
(`RateLimit`), reconnect tokens (`ReconnectToken`), the event stream and its
standard parser (`SseFraming`), the seqlock between the broadcast extension and
the app, one store at a time (`Seqlock`, `BroadcastFrame`,
`BroadcastGeneration`), and the content stage (`ContentStage`).

## Where the code and its promises differ

- *Ten seconds without transports, ten minutes suspended.* The comments at
  `server/signaling.go:39-43` and `:1914-1919` promise that an idle room is
  deleted after 10 s and a suspended participant after 10 min unless it
  reattaches. A reconnect that is refused for its capability reattaches the
  record, gives it back suspended, and thereby starts both timers afresh
  (`:1136-1150`). `NoBoundWithRefusals` gives runs of any length,
  `IdleRoomBound` and `SuspendedSlotBound` the exact bounds: a deadline moves if
  and only if such a reconnect was refused.
- *Suspended flags and the epoch.* The same refusal suspends a member that had
  a live transport without a new epoch; `SuspensionsVersioned` shows that this
  is the only way, `SuspendedUnderSameEpoch` that it can happen: it gives a
  reachable state and the step.
- *Host across a takeover.* `server/signaling.go:1112-1114` says that the host
  assignment is preserved across reconnects. A takeover of an event stream hands
  the seat to the new transport and then handles the join it came with
  (`server/sse.go:166,179`), and a join first leaves the room that its transport
  sits in (`server/signaling.go:901-906`). So the participant is removed, its
  peers are told, and it comes back as a recovered newcomer or is turned away for
  its capability. `TakeoverGivesSeatUp` gives the exact outcome: the host seat is
  kept if and only if nobody else was in the room. `TakeoverLosesHost` gives
  reachable states.
- *Missed negotiation.* A pending sender is told of its target's return if and
  only if it is attached at that moment (`PendingSenderTold`). One that is away
  itself is not told, and as the pair is forgotten it is not told later either
  (`NobodyTold`).
- *The most recent share.* `ContentRendering.swift:369` and `:708` promise the
  most recent share in the spotlight. The list behind it has everybody who
  presents anything, in the order in which they started to, so whoever turns
  from a camera to its screen keeps its old place (`CameraFirst`).
  `LatestShareInSpotlight` says whose share is in the spotlight and exactly when
  it is the latest.
- *Tile ids.* `parseStageTileId` inverts `stageTileId` for every CID but the
  empty one (`TileIdRoundTrip`).
- *Token binding.* The MAC input joins CID and room by '|'. A token is good for
  its own pair only, whatever it is presented with, if and only if neither
  identifier it was issued for contains '|' (`TokenBindsExactly`). Generated
  CIDs are "C-" and hexadecimal digits, and validated room ids are 27 characters
  of base64url (`server/room_id.go`), so no token of the server is good for
  another pair (`ServerTokensBind`).

## Model

| member | source | states |
|---|---|---|
| `HubTheorems.AttachmentCoherence` | server/signaling.go:544-615 | In every reachable hub `byClient` is the exact inverse of the attached part of `byCID`, an attached transport is registered, sits in one room only and carries that room and participant, and `clients` and `clientsBySID` are in bijection. |
| `HubTheorems.AuthorityChecksAgree` | server/signaling.go:1497-1510 | The four authority checks (active participant, media state, relay, end_room) accept exactly the attached transports; end_room adds only that the participant is host. |
| `HubTheorems.TimersCoverExactly` | server/signaling.go:1440-1449 | A record has an eviction timer and a suspension stamp iff it has no transport; the no-active timer is armed iff no member has a transport; on every path, refused reconnects included. |
| `HubTheorems.CapacitySafety` | server/signaling.go:996-1015 | 2 <= maximum <= requested <= server limit and 1 <= members <= maximum; an unlocked room has one member and maximum 2; every member first declared a capability at or above the room's final maximum. |
| `HubTheorems.OnlyAcceptedJoinsLock` | server/signaling.go:1121-1133 | The capacity is locked only by an accepted newcomer's join, at the smaller of its capability and the request, and never changes afterwards. |
| `HubTheorems.CreatorAccepted` | server/signaling.go:1052-1076 | A join that creates its room can never be rejected afterwards: it ends as the only member and host of a room with the clamped request and maximum 2, and no tombstone. |
| `HubTheorems.JoinAnswer` | server/signaling.go:1087-1370 | A join that reaches its room is accepted with the room's new state, seat and outcome in `joined`, or refused with the error of exactly its case. |
| `HubTheorems.EpochVersionsMembership` | server/signaling.go:349-355 | Between any two moments of any run, a room that is still the same one has kept its members, host and capacity or moved to a larger epoch. |
| `HubTheorems.SuspensionsVersioned` | server/signaling.go:1143-1150 | Under an unchanged epoch the set of suspended members changes if and only if a reconnect to a member with a live transport was refused for its capability. |
| `TimedTheorems.SuspendedUnderSameEpoch` | server/signaling.go:1098-1171 | The exception occurs: for every room and any two members there is a reachable state and an enabled reconnect, refused for its capability, that suspends a member with a live transport under the same epoch. |
| `HubTheorems.TombstonesApart` | server/signaling.go:699-744 | No room is in the hub and in the tombstones at once. |
| `HubTheorems.EndedThroughout` | server/signaling.go:1307-1313 | After an end_room the room stays out of the hub and its tombstone in place over every run, until a join into it is accepted or the tombstone expires. |
| `HubTheorems.ReconnectToEnded` | server/signaling.go:1036-1050 | A validly tokened reconnect to a room with a live tombstone gets ROOM_ENDED and creates no room. |
| `HubTheorems.EndedRoomTurnsReconnectsAway` | server/signaling.go:699-744 | The two together: from end_room until the next accepted join, for five minutes, every validly tokened reconnect gets ROOM_ENDED and creates nothing. |
| `HubTheorems.RemovalPaths` | server/signaling.go:2052-2081 | Leave, hard eviction, HTTP leave and expired reconnect all do the same abstract removal: no table mentions the departed, others keep their records, the host is a member (attached if any is), an empty room is gone, other rooms are untouched. |
| `HubTheorems.ReachableCore` | server/signaling.go:684-697 | Every reachable state satisfies the hub invariant that single-step theorems start from, under the limit the server was given (at least 2). |
| `HubSteps.StepKeeps` | server/signaling.go:881-932 | Every message, timer callback and transport event keeps the hub invariant. |
| `HubSteps.RunKeeps` | server/signaling.go:684-697 | The invariant holds after every run. |
| `RoomHistory.StepGrows` | server/signaling.go:349-355 | Any single step lets a room that stays grow only: epoch, members, host, capacity. |
| `RoomHistory.StepQuiet` | server/signaling.go:1883-1978 | No event but a join admits anybody, revives a suspended record, moves the stamp or deadline of one that stays suspended, or suspends anybody without a larger epoch. |
| `RoomHistory.JoinRooms` | server/signaling.go:1052-1311 | A join that reaches a room changes that room only, by exactly one of five fates, and clears the tombstone iff it is accepted. |
| `RoomHistory.JoinSplit` | server/signaling.go:901-906 | The join message leaves an earlier room first; it reaches the new room iff it passes the checks, and otherwise only ever evicts an expired suspended record. |
| `NegotiationTheorems.DirtyTableExact` | server/signaling.go:357-408 | `negotiationDirty` is exactly the pairs whose negotiation message missed a suspended member that has not completed an attach since, neither record removed since; both are distinct members, the target suspended. |
| `NegotiationTheorems.ReturnTellsPendingSenders` | server/signaling.go:1294-1297 | An accepted reconnect notifies exactly the transports of the pending senders and leaves nothing pending for the returned member. |
| `NegotiationTheorems.PendingSenderTold` | server/signaling.go:325-330 | A pending sender is told of the return of its target iff it is attached at that moment, and is pending no more either way. |
| `NegotiationTheorems.NobodyTold` | server/signaling.go:1294-1297 | It happens: for every room and any two members there is a reachable state in which the target returns, the notice goes to nobody, and the pair is forgotten. |
| `NegotiationTheorems.GhostScanIsFilter` | server/signaling.go:449-507 | The nested ghost scan equals a one-line filter, because the reporting sender is itself a fresh attached reporter. |
| `NegotiationTheorems.NoGhostsLeft` | server/signaling.go:1839-1872 | After a media_liveness message no stale suspended record is left in the room and every other record still is. |
| `NegotiationTheorems.MediaReport` | server/signaling.go:1821-1876 | A report stamps exactly the members it names other than the sender, and the sender as reporter, and no stamp goes back; it removes exactly the members suspended for 30 s of whom nobody has reported media for 30 s. |
| `TimedTheorems.IdleRoomBound` | server/signaling.go:1440-1489 | With prompt timers a room is without transports for at most ten seconds after the last refused reconnect; its deadline moves past the armed one iff a reconnect was refused in between. |
| `TimedTheorems.SuspendedSlotBound` | server/signaling.go:1984-2034 | With prompt timers a participant suspended, or last refused, at S is gone by the later of S + 10 min and 60 s after the last media report for it; S passes the original suspension iff its own reconnect was refused in between. |
| `TimedTheorems.StepIdle` | server/signaling.go:1143-1150 | While a room stays idle its deadline moves exactly when a reconnect to it is refused. |
| `TimedTheorems.StepSlot` | server/signaling.go:1143-1150 | While a participant stays suspended its stamp moves exactly when its own reconnect is refused. |
| `TimedTheorems.NoBoundWithRefusals` | server/signaling.go:1136-1171 | The counterexample: from a reachable state there are runs of any length with prompt timers throughout which a room stays idle and its member suspended, because refused reconnects re-arm both timers. |
| `WatcherTheorems.WatchersAgree` | server/signaling.go:2378-2474 | After every step the last count sent to each watcher of each room is the room's number of participants, 0 if it is absent; a takeover counts as the same subscriber. |
| `WatcherTheorems.StepTold` | server/signaling.go:820-831 | Every single step keeps that agreement. |
| `WatcherTheorems.SubscriptionsLast` | server/signaling.go:2317-2427 | No event but its own watch_rooms changes the subscriptions of a transport that is registered before and after it. |
| `WatcherTheorems.WatchersHear` | server/signaling.go:2378-2474 | Over any run after a watch_rooms, until the transport asks anew, is taken over or is gone, it watches exactly the rooms it asked for and was last told the present count of each. |
| `PayloadTheorems.PayloadsAgree` | server/signaling.go:2190-2224 | Of any two `joined` or `room_state` payloads of one room ever sent, the later has the larger epoch, or an equal one and the same members, host and capacity. |
| `PayloadTheorems.StepKeepsOrder` | server/signaling.go:1314-1370 | Every single step keeps all payloads ever sent in order. |
| `ViewTheorems.MembersUpToDate` | server/signaling.go:2190-2224 | After every step of every run each attached transport was last told exactly the present members, host, capacity, epoch and suspensions of its room; a takeover counts as the same member. |
| `ViewTheorems.StepUpToDate` | server/signaling.go:1314-1370 | Every single step keeps that, refused reconnects and ghost evictions included. |
| `MessageTheorems.RelayDelivers` | server/signaling.go:1605-1700 | A relayed message is sent to exactly the attached members it is meant for; an offer, answer, candidate or restart request marks exactly the suspended ones it misses and the sender is told which, a content state marks nobody; nothing else changes. |
| `MessageTheorems.MissedIsPending` | server/signaling.go:1655-1678 | So after any kind but a content state each suspended member that it was meant for is pending from the sender. |
| `MessageTheorems.HostEndsRoom` | server/signaling.go:1519-1603 | The host's end_room removes the room, remembers it for five minutes and drops the expired tombstones; room_ended goes to every attached transport of the room and to nobody else. |
| `MessageTheorems.OthersEndNothing` | server/signaling.go:1519-1540 | Anybody else who names a room that is there is told NOT_HOST, and nothing ends. |
| `MessageTheorems.WatchSubscribes` | server/signaling.go:2378-2427 | watch_rooms replaces the subscriptions of its transport by exactly the requested rooms, leaves everybody else's, and answers with the present counts. |
| `EventTheorems.DropSuspends` | server/signaling.go:1883-1978 | A transport drop keeps the member: suspended now, ten minutes to return, ten seconds for the room if it was the last transport, one epoch on, nobody else changed. |
| `EventTheorems.TakeoverMovesSeat` | server/sse.go:160-168 | The first half of an authorized takeover, replaceClient: seat, registration and subscriptions are handed over and the rooms look the same; the join of the same request follows. |
| `EventTheorems.Leaves` | server/signaling.go:2093-2140 | A leave removes the participant that the transport is attached as: record, indexes, pairs and stamps gone, the host passed on, one epoch on; the transport stays registered. |
| `EventTheorems.PostedLeave` | server/signaling.go:2150-2188 | An HTTP leave removes the participant wherever it is and deregisters the transport it has, if any; without such a record it changes nothing. |
| `EventTheorems.EvictionTimerFires` | server/signaling.go:1984-2034 | The eviction timer of one incarnation of a room leaves alone whoever is attached or gone; while a peer saw media within 30 s it waits another 30 s; else it removes the participant. |
| `EventTheorems.IdleTimerFires` | server/signaling.go:1451-1489 | The no-active timer deletes the room it was armed for iff that room has no transport, and changes no other. |
| `EventTheorems.DropElsewhere` | server/signaling.go:1883-1913 | The drop of a transport that is attached nowhere only deregisters it. |
| `EventTheorems.StreamOpens` | server/sse.go:45-97 | A new event stream is registered for an unknown session, waits if the session's transport was ever in a room, and else takes over at once without changing a room. |
| `EventTheorems.StreamAbandoned` | server/sse.go:231-243 | A stream that ends while it waits is forgotten; any other one changes nothing before its drop. |
| `JoinTheorems.JoinLeavesFirst` | server/signaling.go:901-906 | A join is the leave of the earlier room, if any, followed by the join of a transport that sits nowhere. |
| `JoinTheorems.JoinTurnedAway` | server/signaling.go:934-1050 | A join that fails a check is answered by the error of the first one that fails and changes no room, except that an expired authentic token removes its suspended record. |
| `JoinTheorems.JoinFounds` | server/signaling.go:1006-1076 | A join to an absent room founds it: requested maximum the least of max(2, asked), max(2, declared) and the limit, maximum 2, final iff that is 2; the joiner, under its proven or a generated identity, is its only member and host. |
| `JoinTheorems.JoinAdmits` | server/signaling.go:1121-1227 | A newcomer gets a seat iff its declared capability suffices for the size - the locked one, or the one it locks now - and a place is free; else the error says which is missing and no room changes. |
| `JoinTheorems.JoinReturns` | server/signaling.go:1087-1171 | A reconnect pushes out the transport the record has; with enough capability it takes the seat and clears the pairs that waited for it, else the record is suspended afresh under the same epoch and the join refused. |
| `JoinTheorems.DeclaredSizes` | server/signaling.go:996-1015 | In terms of the declared number only: whoever ends in a room of more than 2 declared at least its maximum; whoever is told ROOM_CAPACITY_UNSUPPORTED met a maximum above 2 and declared nothing or less. |
| `TakeoverTheorems.OwnSeatGivenUp` | server/signaling.go:901-906 | A join by a transport that sits in the very seat it reconnects to gives the seat up first: founded anew if it was alone, turned away if its capability does not suffice, else back as a recovered newcomer; never reattached; host still iff it was alone; peers told that it left. |
| `TakeoverTheorems.TakeoverGivesSeatUp` | server/sse.go:125-181 | The whole takeover request from any reachable state: the new transport gets the seat, and the join of the request takes it out again, with exactly that outcome and answer. |
| `TakeoverTheorems.TakeoverLosesHost` | server/signaling.go:1112-1114 | It happens: for every room and any two members there is a reachable state in which a takeover and its join leave the same members and the host seat with the other one. |
| `MessageTheorems.GateAnswers` | server/signaling.go:934-1050 | A join that fails a check before the room gets that check's error and changes no room, except that an expired authentic token gives up its suspended record. |
| `RoomInvariant.CompleteKeeps` | server/signaling.go:1283-1297 | Completing a join keeps the room invariant and clears the pairs of the returned participant. |
| `RoomInvariant.RemoveKeeps` | server/signaling.go:600-670 | A removal that leaves somebody keeps the room invariant. |
| `RoomInvariant.HostStays` | server/signaling.go:640-670 | After a removal the host is a member, and an attached one if the host left and anybody is attached. |
| `RoomInvariant.DropDirtyPairs` | server/signaling.go:395-408 | Dropping a participant from the dirty table removes exactly its pairs and leaves no empty entry. |
| `RoomInvariant.RollbackIsPark` | server/signaling.go:1143-1150 | A refused reconnect leaves the slot as a fresh suspension would, but for the epoch. |
| `SignalingRoom.Room.constructor` | server/signaling.go:1055-1076 | A group-capable room starts at maximum 2, unlocked; any other is final at once. |
| `SignalingRoom.Room.BumpEpoch` | server/signaling.go:349-355 | The epoch is one larger. |
| `SignalingRoom.Room.MarkNegotiationDirty` | server/signaling.go:357-371 | The pair is added, everything else kept. |
| `SignalingRoom.Room.DrainDirtyPartnersFor` | server/signaling.go:373-393 | Returns exactly the senders that owe the participant, once each, and forgets exactly those pairs. |
| `SignalingRoom.Room.DropCIDFromDirty` | server/signaling.go:395-408 | Forgets the participant as sender and as target. |
| `SignalingRoom.Room.RecordMediaLiveness` | server/signaling.go:410-421 | The stamp is the later of old and new. |
| `SignalingRoom.Room.RecordMediaLivenessReporter` | server/signaling.go:447-457 | The reporter stamp is the later of old and new. |
| `SignalingRoom.Room.HasRecentMediaLiveness` | server/signaling.go:423-434 | True iff a report lies within the window. |
| `SignalingRoom.Room.DropMediaLivenessFor` | server/signaling.go:436-445 | Both liveness tables forget the participant. |
| `SignalingRoom.Room.RecordReports` | server/signaling.go:1852-1860 | The loop over the reported CIDs stamps all reportable members at once. |
| `SignalingRoom.Room.SuspendedGhostsExcludedByActiveReporters` | server/signaling.go:459-507 | Returns exactly the ghosts of the nested scan, once each. |
| `SignalingRoom.Room.AttachParticipant` | server/signaling.go:542-556 | A new active record and its index entry; the no-active timer is off. |
| `SignalingRoom.Room.ReattachClient` | server/signaling.go:558-583 | The record gets the transport, loses its timer and stamp; the no-active timer is off. |
| `SignalingRoom.Room.Reclaim` | server/signaling.go:1098-1119 | A suspended record is reattached; an active ghost is pushed out first and reported. |
| `SignalingRoom.Room.DetachClient` | server/signaling.go:585-595 | The record loses its transport and is stamped; nothing if it had none. |
| `SignalingRoom.Room.SuspendParticipant` | server/signaling.go:1944-1960 | A transport drop on the room: detached, epoch bumped, both timers as they must be. |
| `SignalingRoom.Room.RollBack` | server/signaling.go:1143-1150 | The refused reconnect gives the slot back suspended. |
| `SignalingRoom.Room.RemoveParticipant` | server/signaling.go:597-615 | The record and its index entry are gone; the transport it had is returned. |
| `SignalingRoom.Room.TransferHostIfNeeded` | server/signaling.go:640-670 | A departing host is replaced by an attached member, else any member, else nobody. |
| `SignalingRoom.Room.Depart` | server/signaling.go:2106-2122 | The steps shared by all removal paths amount to the abstract removal. |
| `SignalingRoom.Room.ArmNoActiveTimer` | server/signaling.go:1438-1449 | Armed iff no transport is left, somebody is, and it was not armed. |
| `SignalingRoom.Room.LockCapacityFor` | server/signaling.go:1121-1133 | The maximum becomes the smaller of request and capability, finally. |
| `SignalingRoom.Room.CompleteJoin` | server/signaling.go:1283-1297 | Host if there was none, one epoch on, pending partners drained. |
| `SignalingRoom.Room.ReplaceTransport` | server/signaling.go:836-848 | The record of the old transport belongs to the new one. |
| `SignalingRoom.Room.RouteMessage` | server/signaling.go:1655-1678 | The walk over the members collects the transports to reach and marks the suspended ones. |
| `SignalingHub.Hub.constructor` | server/signaling.go:684-697 | An empty hub with a limit of at least 2. |
| `SignalingHub.Hub.RegisterClient` | server/signaling.go:746-751 | Registration is the step of the same name. |
| `SignalingHub.Hub.DropSubscriptions` | server/signaling.go:2322-2328 | The loop removes the transport from all watcher sets and drops empty ones. |
| `SignalingHub.Hub.CleanupEvictedClient` | server/signaling.go:2317-2339 | Deregisters the transport. |
| `SignalingHub.Hub.ReplaceClient` | server/signaling.go:820-854 | Registration, subscriptions and room attachment pass to the new transport. |
| `SignalingHub.Hub.OpenEventStream` | server/sse.go:45-97 | A new event stream registers, takes over an idle session, or waits for authority. |
| `SignalingHub.Hub.PromoteTakeover` | server/sse.go:125-167 | The waiting transport takes over, once authorized. |
| `SignalingHub.Hub.AbandonEventStream` | server/sse.go:231-243 | A replaced or waiting transport is forgotten at once. |
| `SignalingHub.Hub.CollectTombstones` | server/signaling.go:737-744 | Exactly the expired tombstones are dropped. |
| `SignalingHub.Hub.RecordTombstone` | server/signaling.go:702-710 | The room is remembered for the TTL, expired ones dropped. |
| `SignalingHub.Hub.LookupTombstone` | server/signaling.go:714-727 | Says whether a tombstone is alive and drops it if expired. |
| `SignalingHub.Hub.RemoveClientFromRoom` | server/signaling.go:2093-2140 | Refines the abstract leave. |
| `SignalingHub.Hub.EvictExpiredReconnect` | server/signaling.go:2040-2081 | Refines the abstract eviction for an expired token. |
| `SignalingHub.Hub.EvictLeaver` | server/signaling.go:2150-2188 | Refines the abstract HTTP leave. |
| `SignalingHub.Hub.HardEvictSuspended` | server/signaling.go:1984-2034 | Refines the eviction timer, which holds the room object it was armed for. |
| `SignalingHub.Hub.CleanupRoomIfNoActive` | server/signaling.go:1451-1489 | Refines the no-active timer. |
| `SignalingHub.Hub.SuspendClientInRoom` | server/signaling.go:1920-1978 | Refines the suspension in the room. |
| `SignalingHub.Hub.DisconnectClient` | server/signaling.go:1883-1913 | Refines the whole transport drop. |
| `SignalingHub.Hub.HandleEndRoom` | server/signaling.go:1519-1603 | Refines end_room. |
| `SignalingHub.Hub.HandleRelay` | server/signaling.go:1605-1700 | Refines the relay. |
| `SignalingHub.Hub.HandleMediaLiveness` | server/signaling.go:1821-1876 | Refines media_liveness, evicting exactly the ghosts found. |
| `SignalingHub.Hub.HandleWatchRooms` | server/signaling.go:2378-2427 | Refines watch_rooms, with the counts of the requested rooms that validate. |
| `SignalingHub.RequestSubscribes` | server/signaling.go:2395-2403 | The message subscribes its transport to exactly the named rooms whose identifiers validate, and leaves everybody else's subscriptions. |
| `SignalingHub.Hub.BroadcastRoomStatusUpdate` | server/signaling.go:2429-2474 | Sends the present count to the watchers, if there are any. |
| `SignalingHub.Hub.BroadcastRoomState` | server/signaling.go:2190-2224 | Sends the room's snapshot to its attached transports. |
| `SignalingHub.Hub.AcceptJoin` | server/signaling.go:1283-1370 | Completes an accepted join and sends its messages in order. |
| `SignalingHub.Hub.FindOrCreateRoom` | server/signaling.go:1052-1076 | Finds the room or files a new one. |
| `SignalingHub.Hub.RejoinRoom` | server/signaling.go:1087-1171 | Refines the reconnect to a record that is there, both ends. |
| `SignalingHub.Hub.AddParticipant` | server/signaling.go:1121-1227 | Refines the newcomer: capacity lock, capability, size, identity recovery. |
| `SignalingHub.Hub.HandleJoin` | server/signaling.go:934-1370 | Refines the join handler as a whole. |
| `SignalingHub.Hub.HandleMessage` | server/signaling.go:881-932 | Whatever message a transport sends, the hub object makes the one enabled step of the state machine that handles this message of this transport; a message of an unregistered transport changes nothing. |
| `SignalingHub.Hub.HandleOccurrence` | server/signaling.go:1883-2034 | So it does for everything else that happens, with the event of this very occurrence: transports that connect, take over, abandon and drop, HTTP leaves, and timers holding any room object they were ever armed for. |
| `SignalingHub.Hub.HandlePost` | server/sse.go:99-181 | Gone iff no transport is registered or waits under the session; with both, the takeover happens iff the body is a join with a CID, a token and a good verdict, and anything else is unauthorized and changes nothing; with one, the message is that of this one. |
| `RateLimit.SimpleTokenBucket.Allow` | server/rate_limit.go:42-60 | Admits iff a token is there after the refill, and spends it. |
| `RateLimit.IPLimiter.PruneStaleEntries` | server/rate_limit.go:158-170 | Drops exactly the buckets unseen for the TTL, when a pruning is due. |
| `RateLimit.IPLimiter.GetLimiter` | server/rate_limit.go:141-156 | Prunes, finds or makes the bucket, and stamps it; other buckets are untouched. |
| `RateLimit.IPLimiter.Handle` | server/rate_limit.go:173-187 | One request through the middleware. |
| `RateLimit.AdmittedExactly` | server/rate_limit.go:42-60 | A request is admitted iff for every start the admissions from there on, itself included, are at most capacity + rate times the time since. |
| `RateLimit.NoWindowExceeds` | server/rate_limit.go:42-60 | No window, wherever it starts and ends, sees more admissions than that. |
| `RateLimit.EachAddressExactly` | server/rate_limit.go:141-187 | The same law for the limiter as a whole: of any requests from any addresses one is admitted iff for every start the admissions of its own address, itself included, are at most burst + rate times the time since. |
| `RateLimit.NoAddressExceeds` | server/rate_limit.go:141-187 | So in no window does any address get more than that, whatever the others do and whatever is pruned. |
| `RateLimit.PruningInvisibleExactly` | server/rate_limit.go:141-170 | For every rate, burst and delay: the limiter answers all requests from all addresses exactly as one that never forgets iff nothing is ever admitted or an idle bucket refills within the TTL, the delay of a request included. |
| `RateLimit.LimitersRefill` | server/main.go:73-92 | Every limiter that main builds meets the condition, even if requests are delayed for all but 20 seconds of the TTL. |
| `Seqlock.NoTornRead` | client-ios/SerenadaCore/BroadcastSupport/SerenadaBroadcastSampleHandler.swift:152-197 | For every interleaving of single stores and loads, an accepted read with fewer than 2^31 publishes during it returns, byte for byte, the memory of one single publish. |
| `Seqlock.AcceptedExactly` | client-ios/SerenadaCore/BroadcastSupport/BroadcastSharedMemory.swift:41-44 | Under the same bound a read is accepted iff no frame was open when it began and nothing was stored during it. |
| `Seqlock.SeqNoCounts` | client-ios/SerenadaCore/BroadcastSupport/SerenadaBroadcastSampleHandler.swift:152-160 | The sequence number counts publishes by two and is odd exactly while a frame is open, abandoned frames included. |
| `Seqlock.TornAfterWrap` | client-ios/SerenadaCore/BroadcastSupport/BroadcastSharedMemory.swift:41-44 | The bound is tight: with exactly 2^31 publishes during it there is an accepted read that returns an old byte next to a new one, which no publish, nor the start, had together. |
| `BroadcastFrame.FrameWriter.constructor` | client-ios/SerenadaCore/BroadcastSupport/SerenadaBroadcastSampleHandler.swift:217-254 | The header is zeroed, whatever the file held; the pixels are left. |
| `BroadcastFrame.FrameWriter.StorePixels` | client-ios/SerenadaCore/BroadcastSupport/SerenadaBroadcastSampleHandler.swift:162-173 | The planes that have an address, one after the other, byte by byte. |
| `BroadcastFrame.FrameWriter.StoreHeader` | client-ios/SerenadaCore/BroadcastSupport/SerenadaBroadcastSampleHandler.swift:175-192 | The eleven header fields at their offsets. |
| `BroadcastFrame.FrameWriter.ProcessSampleBuffer` | client-ios/SerenadaCore/BroadcastSupport/SerenadaBroadcastSampleHandler.swift:95-197 | A writer stops iff a check is due, once a second, and the sidecar is missing, inactive, of another generation or session, or without heartbeat for 3 s; a frame that does not fit is skipped, one without an address given up; every store obeys the seqlock protocol and every publish shows its whole frame. |
| `BroadcastFrame.FrameShown` | client-ios/SerenadaCore/BroadcastSupport/BroadcastSharedMemory.swift:26-40 | After the stores of a frame, decoding the header and pixels returns that frame and its generation. |
| `BroadcastFrame.ValOfLE` | client-ios/SerenadaCore/BroadcastSupport/BroadcastSharedMemory.swift:59-75 | Loading inverts storing of little-endian numbers. |
| `BroadcastFrame.AcceptedFrame` | client-ios/SerenadaCore/BroadcastSupport/BroadcastSharedMemory.swift:41-44 | A reader that follows the contract, with the nonzero live generation, gets one whole frame that the writer published, and the writer is the one of that generation; the zeroed header is never accepted. |
| `BroadcastFrame.LiveFrame` | client-ios/SerenadaCore/BroadcastSupport/BroadcastSessionSidecar.swift:68-85 | With generations from the store: what a reader of share n + k accepts from a writer of share n is a whole frame, and k is a multiple of 2^32 - 1, so no writer of an earlier share is taken for the live one before that. |
| `BroadcastGeneration.GenerationStore.NextGeneration` | client-ios/SerenadaCore/BroadcastSupport/BroadcastSessionSidecar.swift:72-85 | The next counter, and its low 32 bits. |
| `BroadcastGeneration.NeverZero` | client-ios/SerenadaCore/BroadcastSupport/BroadcastSessionSidecar.swift:79-82 | Generation 0 is never issued, whatever was persisted. |
| `BroadcastGeneration.GenerationsRepeat` | client-ios/SerenadaCore/BroadcastSupport/BroadcastSessionSidecar.swift:68-85 | Two calls issue the same generation iff a multiple of 2^32 - 1 calls lies between them. |
| `BroadcastGeneration.FallbackGeneration` | client-ios/SerenadaCore/BroadcastSupport/BroadcastSessionSidecar.swift:74-78 | The clock-derived generation is a nonzero 32-bit number. |
| `SseFraming.SseWriter.WriteMessage` | server/sse.go:207-225 | One message appends its framing. |
| `SseFraming.SseWriter.WriteAll` | server/sse.go:183-205 | The write loop appends the items in order. |
| `SseFraming.StreamRoundTrip` | server/sse.go:183-225 | A stream parses, by section 9.2.6 of the WHATWG HTML Standard, to exactly its messages in order and unchanged iff none contains a carriage return. |
| `SseFraming.BrokenStreamIsPrefix` | server/sse.go:183-205 | However early the connection breaks, what arrived parses to the first of the messages. |
| `ReconnectToken.IssuedToken` | server/signaling.go:119-174 | A token issued for a pair verifies for a pair iff it reads the same, is good up to its expiry second and expired afterwards. |
| `ReconnectToken.BindingExact` | server/signaling.go:127-129 | Only the very pair reads like the given one, whatever is presented, iff neither of its two identifiers contains a bar character. |
| `ReconnectToken.TokenBindsExactly` | server/signaling.go:119-174 | An issued token is good for its own pair only, against any presented pair at any time, iff the identifiers it was issued for contain no bar character. |
| `ReconnectToken.ServerTokensBind` | server/room_id.go:65-102 | For a generated CID and a base64url room id the verdict on an issued token, presented with anything, is good up to its expiry for the very pair, expired afterwards, and bad for every other pair. |
| `ReconnectToken.AcceptedTokens` | server/signaling.go:135-174 | Accepted are exactly the MAC of the presented pair with an expiry that has not passed, and digits of that expiry. |
| `ReconnectToken.ExpiredTokens` | server/signaling.go:135-174 | A token counts as expired, which gives up a suspended record, iff it is the MAC of the presented pair with an expiry that has passed, or the MAC of the pair alone without a dot. |
| `ReconnectToken.ExpiryBound` | server/signaling.go:119-174 | The MAC of one token with the digits of another expiry is bad for every pair at any time. |
| `ReconnectToken.WithoutSecret` | server/signaling.go:119-144 | Without a secret no token is issued and any but the empty one is accepted. |
| `ReconnectToken.IntRoundTrip` | server/signaling.go:126-130 | Parsing inverts printing of 64-bit numbers. |
| `ContentStage.ResolveRemoteContents` | client-ios/SerenadaCallUI/Sources/ContentRendering.swift:282-344 | The loop resolves every presenting remote participant, in order. |
| `ContentStage.RemotesShown` | client-ios/SerenadaCallUI/Sources/ContentRendering.swift:282-344 | The resolved contents are those of the presenting remotes, one each, in order: independent iff flag, peer and type allow it, loading iff their own track has not arrived. |
| `ContentStage.LocalShown` | client-ios/SerenadaCallUI/Sources/ContentRendering.swift:236-277 | The local content is there iff the receiver takes video and presents in one of the three ways; independent only by an active content state that is a screen, waiting iff nobody else is there. |
| `ContentStage.PrimaryIs` | client-ios/SerenadaCallUI/Sources/ContentRendering.swift:355-394 | With the flag off local content wins whenever there is any, else the last remote; with it on, independent remote content, then independent local, then any remote, each by the latest owner in the order or else the last; then the local one. |
| `ContentStage.PickPrimaryContent` | client-ios/SerenadaCallUI/Sources/ContentRendering.swift:355-394 | The backward scans choose the share whose owner is latest in the order, with the fallbacks. |
| `ContentStage.ResolveContentScene` | client-ios/SerenadaCallUI/Sources/ContentRendering.swift:396-406 | The scene of one render. |
| `ContentStage.MaintainOrder` | client-ios/SerenadaCallUI/Sources/SerenadaCallFlow.swift:417-430 | The change handler computes the next recency list. |
| `ContentStage.OrderMaintained` | client-ios/SerenadaCallUI/Sources/SerenadaCallFlow.swift:417-430 | The list stays free of duplicates, names exactly the active sharers, and keeps the old ones in order in front of the new. |
| `ContentStage.OrderCoversSharers` | client-ios/SerenadaCallUI/Sources/SerenadaCallFlow.swift:543-583 | So it covers every remote participant that shares on its own track. |
| `ContentStage.TileIdRoundTrip` | client-ios/SerenadaCallUI/Sources/ContentRendering.swift:630-642 | Parsing inverts printing of a tile id iff the CID is not empty, even when it contains the separator. |
| `ContentStage.ParsedTileId` | client-ios/SerenadaCallUI/Sources/ContentRendering.swift:635-642 | Printing inverts parsing wherever parsing succeeds. |
| `ContentStage.DeriveStageTiles` | client-ios/SerenadaCallUI/Sources/ContentRendering.swift:669-692 | Remote cameras, then local cameras, then independent content, in input order. |
| `ContentStage.TilesShown` | client-ios/SerenadaCallUI/Sources/ContentRendering.swift:669-692 | The tiles are one for each remote camera, then each local camera, then each independent content, each group in input order, with ids of the printed form. |
| `ContentStage.TileIdsDistinct` | client-ios/SerenadaCallUI/Sources/ContentRendering.swift:669-692 | For distinct participants no two tiles share an id. |
| `ContentStage.SpotlightIsLatestShare` | client-ios/SerenadaCallUI/Sources/ContentRendering.swift:355-394 | In any render with an independent share and no pin the spotlight is the content tile of a remote sharer - the latest in the order if any is in it, else the last in input order - or the local one if no remote shares. |
| `ContentStage.SpotlightIsMostRecent` | client-ios/SerenadaCallUI/Sources/SerenadaCallFlow.swift:417-430 | After any calls of the change handler from the empty list the spotlight is the content tile of a remote sharer such that no other one started to present (a camera or a screen) later. |
| `ContentStage.OrderIsRecency` | client-ios/SerenadaCallUI/Sources/SerenadaCallFlow.swift:417-430 | After any changes the list names exactly those who present, once each, whoever started to present later further back. |
| `ContentStage.ShownInOrder` | client-ios/SerenadaCallUI/Sources/SerenadaCallFlow.swift:543-547 | Over the renders of a call, the handler running only when the active participants differ from the render before: the list is in the order in which those on it came onto it, ties as they come in the input. |
| `ContentStage.LatestShareInSpotlight` | client-ios/SerenadaCallUI/Sources/ContentRendering.swift:700-731 | Over the renders of a call the spotlight is the content tile of the remote sharer that came onto the list last; it is the latest share iff some remote sharer both came onto the list last and started its share last, in particular if everybody has shared since coming onto the list. |
| `ContentStage.CameraFirst` | client-ios/SerenadaCallUI/Sources/ContentRendering.swift:366-380 | Otherwise not: for any two participants there is a call in which one presents a camera, the other shares its screen, the first turns to its screen, and the earlier share stays in the spotlight. |
| `ContentStage.PinWins` | client-ios/SerenadaCallUI/Sources/ContentRendering.swift:713-731 | A pin wins while its tile is there, and the spotlight is always one of the tiles. |
| `ContentStage.SpotlightDefault` | client-ios/SerenadaCallUI/Sources/ContentRendering.swift:713-731 | Without the tile of a pin the spotlight is the content tile of the primary share, without that the first tile, and none only without tiles. |

## Left out

- Interleavings inside a handler: each handler and timer callback is one atomic step, although the server drops the room lock around ghost cleanup and updates the hub map after the room. All hub properties are claimed at that granularity. A timer that fires late, or survives being stopped, is an event that may happen at any time.
- Clients as objects: a transport is a number whose fields the hub keeps in a map, and participant records are values in the room's map; aliasing between them is not captured. Rooms and the hub are objects.
- Fields that no property reads: display name, peer id, media state, content state, capability and media-policy advertisements, join times, session ids, and the maximum in room status messages.
- Sockets, HTTP, JSON and its errors, the version check, ping, the bounded send channel and its drops, logging and statistics.
- TURN credentials, push, feedback, device checks, the bypass list of the rate limiter, and the stale-stream scan other than as a transport drop.
- Cryptography and randomness: the MAC is an abstract function, injective where said; generated identifiers are new; validating a room id is a parameter.
- IdleRoomBound: counts from the last refused reconnect, because the bound without it does not hold of the code.
- SuspendedSlotBound: counts from the participant's last refused reconnect, for the same reason.
- PruningInvisibleExactly: takes requests one after the other, with a bound on the time between looking a bucket up and spending from it; two requests that are both between the two are not modelled.
- AdmittedExactly: tokens are real numbers; floating-point rounding is not modelled.
- TakeoverGivesSeatUp: is about a join for the very seat that is taken over; one that proves another identity leaves that seat as well (LeftSeat), and then has one of the five fates of JoinRooms.
- HandlePost: the checks of the request body itself (JSON, version, size) are not modelled, and the takeover and the message follow each other without anything in between.
- NoTornRead: is about readers that overlap with fewer than 2^31 publishes, which TornAfterWrap shows to be needed; sequentially consistent single stores and loads within one writer session; weak-memory effects, and a second session zeroing the header under a reader, are not modelled.
- AcceptedFrame: the pixels of a planar frame are those of the planes whose address could be had, one after the other, as the writer stores them.
- TileIdRoundTrip: strings are sequences of characters; grapheme clusters of Swift strings are not modelled.
- StreamRoundTrip: works on characters; the UTF-8 encoding of the stream is not modelled.
- Other client code: layout, views, Picture in Picture, video rendering, audio routes, and the Android and web clients.
