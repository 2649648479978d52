# Relay sessions, rooms and connections

A Dafny model of the relay's in-memory machinery: the device hub with its grace periods
(`internal/relay/device_hub.go`, `internal/relay/session_grace.go`), outbound connections
(`connection.go`), rooms (`room.go`), the routing of server frames (`ws_handler.go`), the sliding-window
rate limiter (`internal/ratelimit`) and the telemetry aggregate (`internal/telemetry`).

How the files fit together:

- `HubModel.dfy` is the hub as a transition system: one atomic step per critical section of the hub's
  lock, per fired timer callback, and per teardown carried out after the lock was released. Timers are
  callbacks with a deadline and a `stopped` mark, and a stopped callback may still run. `owed` and `sent`
  are the teardowns that still have to be sent and those that were.
- `HubInvariants.dfy` proves what every step keeps; `HubRuns.dfy` proves the theorems about whole runs
  from the empty hub; `HubSteps.dfy` says what a call must establish to be such a step.
- `HubEffects.dfy` says what each step does in the fields of the states before and after it, without any of
  the functions of `HubModel.dfy`, and which steps can close a grace window; `RoomEffects.dfy` does the same
  for the calls on a room.
- `DeviceHub.dfy` is the hub as objects: maps of shared, mutable sessions and rooms, with the source's
  loops. Every call of the hub is proved to be exactly one step of `HubModel` (a refused `AddServer` has a
  step of its own), except `CleanupRoomAdmissions`, which leaves the hub's state alone; so everything in
  `HubRuns.dfy` speaks about any sequence of calls. Work done after unlocking is handed back: the
  sessions to tear down (shown to be exactly the teardowns the step owes), the resumed sessions, and the
  kicked connections. `Valid` holds the validity and the capacity of every room the hub ever made, so calls
  on rooms and calls on the hub can alternate freely: room calls keep the hub valid and its state as it is
  (`RoomCallKeepsValid`) and move nobody in other rooms (`Reseats`), and a hub call changes no seat of any
  room but one that it closes and removes, as its `modifies` clause and `KeepsRooms` say.
- `Lifecycle.dfy` puts these calls together, from an empty hub to a client that gets the frames of a server
  which has replaced the one it joined.
- `Connection.dfy` is the connection object; `ConnectionProtocol.dfy` interleaves any number of `Send`,
  `SendAndClose` and `Close` callers with the writer pump, whose program counter is explicit, down to the
  rendezvous on `writeResult`.
- `RoomModel.dfy` is a room on values, with a specification that never prunes; `Room.dfy` is the room
  object, where a client record handed out by `AttachClient` is the very object the admission holds.
- `OnlineServer.dfy`, `WSHandler.dfy`, `Limiter.dfy` and `Telemetry.dfy` model the rest.

Time is an integer. A critical section has one `now`, which no later critical section undercuts; session
ids are fresh and not empty; both are hypotheses of `HubModel.Enabled`. Whether a socket write succeeds,
which of several equally old index entries a map iteration finds first, and the candidates of
`GenerateRoomID` are choices of the environment.

Where the code falls short of its own comments, the model follows the code:

- `session_grace.go:102` skips the teardown when the evicted session is the one just marked. The comment
  on `markStaleLocked` speaks of the oldest session, but with equal times the session just marked may be
  picked, and then its server is never told. `SkippedTeardownIff` gives the exact condition,
  `TieSkipsTeardown` a reachable run, and `StrictClockSkipsNone` the case in which it cannot happen.
- A session id that `normalizeSessionID` cuts off may end in a space, so normalizing it again changes it;
  `SessionIDStableIff` says exactly when, and `UnstableSessionID` gives such ids.
- `AddServer` gives its new server to the device's room and session and not to its guest registrations
  (`device_hub.go:110-150`), so a later guest session may be bound to a closed server.
  `GuestSessionBoundIff` says exactly when, and `GuestOfReplacedServer` is a reachable run.
- The second check of `closed` in `Send` (`connection.go:95`) can never succeed, since the lock is held
  throughout; and `c.send` is never closed, so the pump never takes its `!ok` branch.

## Model

| member | source | states |
|---|---|---|
| HubRuns.GraceSafety | internal/relay/session_grace.go:81-183 | In every run, when a callback removes a session, that side has been stale without a break since the very drop that armed this timer, one full grace period before the deadline |
| HubRuns.StaleCallbacksDoNothing | internal/relay/session_grace.go:119-135 | A callback acts iff it was not stopped and its session is still registered; callbacks of cancelled or earlier windows, fired late, change nothing |
| HubInvariants.ExpiresIffUnstopped | internal/relay/session_grace.go:123-130 | The flag and generation guard lets a pending callback through exactly when it was never stopped |
| HubRuns.RejoinEndsWindow | internal/relay/device_hub.go:265-276 | A client that rejoins keeps its session, and no callback of its client side can expire it any more |
| HubRuns.ResumeEndsWindow | internal/relay/device_hub.go:132-149 | A returning server of the owner keeps the device's session and ends the server's window for good |
| HubRuns.NoOrphanedStaleSide | internal/relay/session_grace.go:89-167 | Every stale side has exactly one unstopped pending callback, of its generation, due one grace period after the drop; with a clock that fires due timers no side is stale for longer |
| HubRuns.ExactlyOnceTeardown | internal/relay/session_grace.go:99-341 | A session that left the map never returns, its object stays as it was, and it has exactly one teardown, to the connections it left with, if it left by expiry, eviction or device removal, and none otherwise |
| HubRuns.FrozenForGood | internal/relay/session_grace.go:320-341 | A departed session object never changes again in any run, so the unlocked reads of teardownSession see the values at removal |
| HubRuns.NoTeardownWhileRegistered | internal/relay/session_grace.go:320-341 | No teardown is owed or was sent for a session that is still registered |
| HubRuns.SkippedTeardownIff | internal/relay/session_grace.go:99-104 | A client drop can lose its session without any teardown iff the index is full, does not hold the session, and all its entries are as young as the drop |
| HubRuns.StrictClockSkipsNone | internal/relay/session_grace.go:99-104 | With a clock that advances between steps no teardown is skipped |
| HubRuns.TieSkipsTeardown | internal/relay/session_grace.go:99-104 | A run from the empty hub, cap 1, in which the second of two simultaneous drops evicts itself and its connected server is never told |
| HubRuns.PresenceCoherence | internal/relay/device_hub.go:86-276 | In every reachable hub: one session per device, server side stale iff no server iff device offline, stale client side has no connection, a session's server is the registered one iff it is not closed, sessions of CreateSession are bound to the registered server of their owner, and the stale index is exact and within the cap |
| HubRuns.RoomRegistry | internal/relay/device_hub.go:392-548 | In every reachable hub rooms and serverRooms are inverse; registered rooms are open, owned by the user of their device's online server, and routed to it in its generation; guest registrations belong to online devices, and their server is the registered one iff it is not closed |
| HubRuns.GuestSessionBoundIff | internal/relay/device_hub.go:443-474 | In every run a new guest session is bound to the device's registered server iff its guest registration's server has not been closed |
| HubRuns.GuestOfReplacedServer | internal/relay/device_hub.go:110-150 | A run from the empty hub in which AddServer replaces the server of a registered guest, and the guest's next session is bound to the closed server while the device is online |
| HubRuns.SupersededForGood | internal/relay/device_hub.go:110-127 | A server that is not registered any more never is again, and closed servers stay closed |
| HubRuns.ReplacedServerIsCut | internal/relay/ws_handler.go:74-137 | In every run, once AddServer has replaced a server, no frame of it is ever routed, it is closed, and the end of its read pump changes nothing |
| HubRuns.OwnerStability | internal/relay/device_hub.go:86-248 | Between any two moments of a run a session keeps owner, user, device and origin, and any server bound to a session of CreateSession belongs to that first owner |
| HubRuns.RunInv | internal/relay/device_hub.go:51-64 | Every state of every run satisfies all hub invariants |
| HubEffects.ClientDropOpensWindow | internal/relay/session_grace.go:81-106 | A drop of the bound connection, and no other call, makes the client's side stale in the next generation, unbinds the connection and leaves exactly one pending client timer, due one grace period later; nobody else changes, but an oldest stale session leaves if the index is full, and only then can the dropped one leave |
| HubEffects.ServerDropOpensWindow | internal/relay/session_grace.go:143-206 | The same for the server's side of the device's session when its registered server's pump ends |
| HubEffects.ServerDropTakesOffline | internal/relay/device_hub.go:185-200 | When a registered server's pump ends, its server, guests and room go, those of no other device do, and the server is closed; any other pump's end changes nothing |
| HubEffects.RemovalTakesOffline | internal/relay/device_hub.go:164-178 | RemoveServer takes exactly that device offline; its session leaves with both timers stopped and one teardown owed, and every other session is kept with its timers |
| HubEffects.ServerComesBack | internal/relay/device_hub.go:110-150 | AddServer registers its server in the next generation, closes the one before, and reroutes the device's room only; the device's session is bound to it with the server's window ended and the client's side untouched; nobody leaves and no other session changes |
| HubEffects.RefusedIff | internal/relay/device_hub.go:90-108 | AddServer is refused iff the device's server, room or session belongs to another user |
| HubEffects.SessionIsCreated | internal/relay/device_hub.go:217-248 | A session is made iff the device is online, the caller owns its server and it has no session; it is bound to that server, has no client and no stale side; nothing else changes |
| HubEffects.CreateSessionCodes | internal/relay/device_hub.go:217-237 | Which of the three refusals is returned, and when none is |
| HubEffects.GuestSessionIsCreated | internal/relay/device_hub.go:443-474 | The same for guests, owned by the guest registration's user and bound to its server |
| HubEffects.CreateGuestSessionCodes | internal/relay/device_hub.go:443-462 | Which of the refusals is returned, and when none is |
| HubEffects.JoinBindsClient | internal/relay/device_hub.go:265-276 | Joining binds the connection and ends the client's window; the server's side, its timer and every other session are kept |
| HubEffects.SweepRemovesIff | internal/relay/device_hub.go:334-347 | A session is swept iff it is older than maxAge, has no client and no stale side; it leaves without a teardown, and nobody else changes |
| HubEffects.RemovalRemoves | internal/relay/device_hub.go:278-292 | RemoveSession removes that session with its timers stopped and no teardown, and keeps every other |
| HubEffects.CallbackExpires | internal/relay/session_grace.go:123-183 | A callback is used up; iff it was pending and its session registered, the session leaves for the reason of its side, with one teardown owed |
| HubEffects.TeardownIsSent | internal/relay/session_grace.go:320-341 | One owed teardown becomes one sent one, to the connections the session left with and for the reason it left |
| HubEffects.GuestIsRegistered | internal/relay/device_hub.go:392-417 | A guest is registered with the device's server iff its id is free and the device is online; otherwise nothing changes |
| HubEffects.RoomIsCreated | internal/relay/device_hub.go:478-514 | A new room has the first free candidate, and is open, owned by the caller and routed to the device's server; a refused call changes nothing |
| HubEffects.CreateRoomCodes | internal/relay/device_hub.go:478-505 | Which of the four refusals is returned, and when none is |
| HubEffects.RoomIsRemoved | internal/relay/device_hub.go:534-542 | That room and its device's entry go, and nothing else |
| HubEffects.ClientSideKept | internal/relay/session_grace.go:81-167 | The client's side of a session that stays, and its pending timer, change only by a rejoin or a drop of that client: no server's loss or return touches them |
| HubEffects.ServerSideKept | internal/relay/session_grace.go:81-167 | The server's side of a session that stays changes only when its device's server is lost or comes back |
| HubEffects.ClientWindowStaysOpen | internal/relay/session_grace.go:81-167 | In every run an open client window stays open with its timer pending until the client rejoins, drops again, or the session leaves |
| HubEffects.ServerWindowStaysOpen | internal/relay/session_grace.go:143-183 | The same for the server's window, until the device's server comes back or is lost again |
| HubInvariants.NextKeepsInv | internal/relay/session_grace.go:75-318 | Each of the sixteen steps keeps the invariants of sessions, timers, stale index, teardown ledger, registry and presence |
| HubInvariants.MarkStaleIndex | internal/relay/session_grace.go:270-295 | Marking with an eviction of an oldest entry keeps the index exact and within the cap, and the victim is registered |
| HubInvariants.MarkStaleInv | internal/relay/session_grace.go:270-295 | Marking a side and evicting keeps session shape, timers, index and ledger together |
| HubInvariants.RemoveServerInv | internal/relay/session_grace.go:209-242 | Removing a device keeps all invariants and leaves no session of the device |
| HubInvariants.PickRoomIDIsFree | internal/relay/device_hub.go:495-505 | The retry loop yields a candidate that no room has, or none iff all are taken |
| DeviceHubs.DeviceHub.constructor | internal/relay/session_grace.go:41-58 | Grace and cap are defaulted when not positive; the new hub is the start of a run |
| DeviceHubs.DeviceHub.AddServer | internal/relay/device_hub.go:86-157 | Is one step: an addition, or a refusal with ErrNotOwner exactly when room, session or server belongs to another user, which changes nothing; the replaced server is closed before the lock is released; every room keeps its object and its seats; returns the resumed session and its client |
| DeviceHubs.DeviceHub.RemoveServer | internal/relay/device_hub.go:164-178 | Is one step; hands back exactly the sessions whose teardown it owes and the device's attached clients; the device's room is closed, emptied and gone, and no other room changes |
| DeviceHubs.DeviceHub.RemoveServerConn | internal/relay/device_hub.go:185-200 | Is one step, for superseded connections one that changes nothing; hands back exactly the evicted sessions it owes a teardown and the device's attached clients; no room but the device's changes |
| DeviceHubs.DeviceHub.CreateSession | internal/relay/device_hub.go:217-248 | Is one step, with the step's error code, and returns the registered object |
| DeviceHubs.DeviceHub.CreateGuestSession | internal/relay/device_hub.go:443-474 | Is one step, with the step's error code, bound to the guest registration's own server |
| DeviceHubs.DeviceHub.SetSessionClient | internal/relay/device_hub.go:265-276 | Is one step; reports whether the session exists and its server at that moment |
| DeviceHubs.DeviceHub.MarkClientStale | internal/relay/session_grace.go:81-106 | Is one step that acts iff expected is still bound; hands back exactly the sessions it owes a teardown |
| DeviceHubs.DeviceHub.RemoveSession | internal/relay/device_hub.go:278-291 | Is one step |
| DeviceHubs.DeviceHub.CleanupStaleSessions | internal/relay/device_hub.go:334-345 | The deleting loop is one sweep step: it drops exactly the sessions that are too old, without client and without a stale side |
| DeviceHubs.DeviceHub.FireTimer | internal/relay/session_grace.go:119-135 | A callback that is due, or was stopped too late, is one step; hands back the session it expired |
| DeviceHubs.DeviceHub.ExpireServerGrace | internal/relay/session_grace.go:171-183 | Removes the session iff its server side is stale in this generation |
| DeviceHubs.DeviceHub.RunTeardown | internal/relay/session_grace.go:332-341 | Reading the object later, without the lock, finds the connections it departed with |
| DeviceHubs.DeviceHub.OldestStale | internal/relay/session_grace.go:278-283 | The argmin loop with its empty-string sentinel finds an entry of minimal time |
| DeviceHubs.DeviceHub.MarkStaleLocked | internal/relay/session_grace.go:270-295 | Tracks, and over the cap evicts an oldest entry, stopping its timers |
| DeviceHubs.DeviceHub.MarkDeviceSessionsStale | internal/relay/session_grace.go:191-202 | The loop marks the device's session once although it deletes from the map it iterates over, in any order |
| DeviceHubs.DeviceHub.RebindSessions | internal/relay/device_hub.go:132-144 | The loop binds the device's session to the new server, cancels its server window, and snapshots its client |
| DeviceHubs.DeviceHub.CleanupDeviceGuestsAndRoomsLocked | internal/relay/session_grace.go:226-242 | Removes the device's guests and its room; that room, and no other, is closed and emptied, and its attached clients are handed on |
| DeviceHubs.DeviceHub.RegisterGuestDevice | internal/relay/device_hub.go:392-417 | Is one step, with the step's error code |
| DeviceHubs.DeviceHub.UnregisterGuestDevice | internal/relay/device_hub.go:419-423 | Is one step |
| DeviceHubs.DeviceHub.CreateRoom | internal/relay/device_hub.go:478-514 | Is one step, with the step's error code; registers a new room under a free id, owned by the caller, open, with nobody admitted, as NewRoom leaves it, and no other room changes |
| DeviceHubs.DeviceHub.FreeRoomID | internal/relay/device_hub.go:495-505 | The loop of ten attempts finds the first free candidate, or the empty string iff all are taken |
| DeviceHubs.DeviceHub.RemoveRoom | internal/relay/device_hub.go:534-548 | Is one step; the room, and no other, is closed and emptied, and its attached clients are handed back |
| DeviceHubs.DeviceHub.CleanupRoomAdmissions | internal/relay/device_hub.go:556-570 | Prunes every registered room at the given time, returns how many admissions went over all rooms, and leaves the hub as it is |
| DeviceHubs.DeviceHub.RoomCallKeepsValid | internal/relay/room.go:90-219 | Any call on one room that keeps it valid and within its capacity, and touches no other, keeps the hub valid and its state as it is; so every room of a reachable hub has at most three admissions, and hosts have input |
| DeviceHubs.DeviceHub.SessionsShowState | internal/relay/device_hub.go:20-48 | Every field of a session object is what the state says of it |
| DeviceHubs.DeviceHub.RegistryShowsState | internal/relay/device_hub.go:51-64 | Every map of the hub, every field of a registered room and every server's done flag is what the state says of it |
| DeviceHubs.DeviceHub.Reserve | internal/relay/room.go:103-136 | A reservation on any room of the hub, whatever hub and room calls came before, is the room model's; nobody else is seated or unseated, and the hub stays valid |
| DeviceHubs.DeviceHub.Attach | internal/relay/room.go:140-166 | The same for attaching; the connection that had the seat is closed if it is replaced, and otherwise stays as it is |
| DeviceHubs.DeviceHub.Detach | internal/relay/room.go:170-190 | The same for detaching: iff the connection has the seat it is closed and the client unseated, and no other client of any room is |
| ConnectionProtocol.GracefulClose | internal/relay/connection.go:50-182 | In every interleaving the written frames are a prefix of the accepted ones, written before the one socket close; at most one final frame is admitted; if SendAndClose returned true, all accepted frames were written, its own last |
| ConnectionProtocol.NothingAcceptedAfterDecision | internal/relay/connection.go:79-144 | After closed or gracefulClosing is set nothing is ever accepted |
| ConnectionProtocol.DoneClosedAtMostOnce | internal/relay/connection.go:146-182 | In every run close(done) is executed at most once, and exactly once iff the connection becomes closed |
| ConnectionProtocol.CleanGracefulCloseSucceeds | internal/relay/connection.go:105-144 | Without a socket write error an admitted SendAndClose never returns false |
| ConnectionProtocol.SendAndCloseReturns | internal/relay/connection.go:105-171 | However other calls interleave, an admitted caller has returned after a bounded number of pump and rendezvous steps |
| ConnectionProtocol.ReturnBound | internal/relay/connection.go:39-171 | That bound is at most three steps a frame of the 256-frame queue plus six |
| ConnectionProtocol.SomeSystemStepEnabled | internal/relay/connection.go:50-77 | A waiting caller is never deadlocked; the pump's unbuffered result send always finds its receiver |
| ConnectionProtocol.NextKeepsInv | internal/relay/connection.go:50-182 | Every step keeps frame conservation, socket coherence, the single final frame, and that the pump's reply meets its caller |
| ConnectionProtocol.CallsAreSteps | internal/relay/connection.go:79-182 | What each call of a Connection object does to it is what the protocol's step does, followed by the socket close if the step took the close decision |
| Connections.FinalOfferIsLast | internal/relay/connection.go:79-133 | After a final frame was offered, every later offer is rejected |
| Connections.Connection.Take | internal/relay/connection.go:53-55 | The pump receives the frames in the order of their acceptance |
| Connections.Connection.Send | internal/relay/connection.go:79-101 | Accepts iff open and not full, last in the queue; a full queue closes the connection and its socket; a connection that has decided to close is left as it is |
| Connections.Connection.BeginSendAndClose | internal/relay/connection.go:105-133 | The atomic close-or-enqueue decision |
| Connections.Connection.Close | internal/relay/connection.go:146-159 | Does nothing once closed or while a graceful close is in flight |
| Connections.Connection.FinishClose | internal/relay/connection.go:163-171 | Closes even while a graceful close is in flight |
| RoomModel.SweepsAreInvisible | internal/relay/room.go:90-219 | Background sweeps, wherever placed, change no result of any call in any run |
| RoomModel.PruningRefinesSpec | internal/relay/room.go:90-219 | Every run's results are those of a specification that never prunes and looks at live admissions only |
| RoomModel.StepIsTheCall | internal/relay/room.go:90-219 | The room object's calls are the steps of these runs, states and results alike |
| RoomModel.RoomRunSafe | internal/relay/room.go:103-136 | In every run at most three admissions, hosts have input, and at most one host who is not the room's owner, when roles are left to the room |
| RoomModel.StepKeepsOneGuestHost | internal/relay/room.go:256-268 | Each call keeps at most one host besides the owner |
| RoomModel.ClosedForGood | internal/relay/room.go:286-386 | A closed room never admits or attaches again, and once emptied stays empty |
| RoomModel.ReconnectGuarantee | internal/relay/room.go:140-190 | After a drop at t the client can attach at any time before t plus the TTL, whatever others do short of closing, and comes back exactly as admitted |
| RoomModel.ReplacementStaysAttached | internal/relay/room.go:170-190 | A superseded connection never detaches its replacement |
| RoomModel.ReservationIsGood | internal/relay/room.go:103-166 | A client is reserved iff the room is open, it is not admitted yet and fewer than three live admissions exist; it can then attach iff the admission has not expired |
| RoomEffects.Reserving | internal/relay/room.go:103-136 | Which of the three refusals is returned and when none is; the seat is held for the TTL; a role asked for is given, otherwise the owner and the first client become host and everybody else viewer; hosts have input |
| RoomEffects.Attaching | internal/relay/room.go:140-166 | Attaching succeeds iff the room is open and the admission live; it gives the seat to the connection, keeps every other, and names the other connection it replaces, if there was one |
| RoomEffects.Removing | internal/relay/room.go:170-190 | A removal succeeds iff that connection has the seat; then the client is detached, nobody else is, and its admission is kept for the TTL |
| RoomEffects.Observing | internal/relay/room.go:90-219 | Counting, asking and sweeping see and keep exactly the unexpired admissions; closing and emptying do what they say |
| RoomEffects.ReconnectWindow | internal/relay/room.go:140-190 | The reconnect window is exact: after a removal at t, with no call for that client in between, attaching succeeds iff it comes before t plus the TTL, and gives back the client as it was |
| Rooms.Room.ReserveClient | internal/relay/room.go:103-136 | Does exactly what the run model's reservation does, error codes included, and reports the completed record |
| Rooms.Room.AttachClient | internal/relay/room.go:140-166 | Same for attaching; the returned client is the object that clients and admissions share; a connection that had the seat is handed back and closed iff it is another one |
| Rooms.Room.RemoveClient | internal/relay/room.go:170-190 | Detaches iff the expected connection owns the seat, and then closes it: the client is out of clients, its admission stays for the TTL, and everybody else stays attached |
| Rooms.Room.PruneExpiredAdmissions | internal/relay/room.go:203-219 | The deleting loop removes exactly the dead admissions, and counts them |
| Rooms.Room.HasValidAdmission | internal/relay/room.go:194-200 | True iff a live admission exists and the room is open |
| Rooms.Room.ClientCount | internal/relay/room.go:90-95 | The number of live admissions |
| Rooms.Room.CloseAllClients | internal/relay/room.go:364-373 | Closes and empties both maps, and yields exactly the attached connections |
| Rooms.Room.OfferRoomClosed | internal/relay/room.go:375-385 | Every kicked connection had decided to close before, or was full and is closed, or has room_closed as its last accepted frame; if all were accepted, all were open |
| Rooms.Room.RebindServer | internal/relay/room.go:272-284 | Rebinds iff the room is open and the generation is newer |
| Rooms.Room.SendToServer | internal/relay/room.go:294-310 | At most two attempts, the second only after a failed first one and only to a newer server, whatever rebinds happen in between and whenever the room is closed in between |
| Rooms.RebindEndsAtNewest | internal/relay/room.go:272-284 | Any sequence of rebinds ends at the newest generation offered, or stays |
| Rooms.RebindConfluent | internal/relay/room.go:272-284 | Rebinds with distinct generations end at the same route in every order |
| Rooms.Room.Connections | internal/relay/room.go:327-339 | Snapshots each attached client's connection exactly once |
| Servers.OnlineServer.SendMessage | internal/relay/device_hub.go:349-365 | Never succeeds on a closed server |
| Servers.OnlineServer.Close | internal/relay/device_hub.go:375-384 | Closes once; later calls change nothing |
| WSHandlers.RouteCurrentServerMessage | internal/relay/ws_handler.go:110-166 | In any valid hub: routed iff the server is registered and not closed; then the frame is offered by its kind, to its target only or once to each attached client, or to the session's client if there is no room; a connection it is not for is left as it is |
| WSHandlers.RouteAfterReplacement | internal/relay/device_hub.go:110-150 | After a room's server was replaced, which happens iff the owner checks pass, everybody is still seated, and a frame of the new server is offered once to each attached client it is for and to no other connection |
| WSHandlers.AttachTo | internal/relay/room.go:140-166 | Attaching to a registered room succeeds iff the room model's attachment does; then that client's seat, and no other, has the connection; the hub stays valid |
| WSHandlers.Destinations | internal/relay/ws_handler.go:110-137 | The decision and the recipients, by room or by legacy session |
| WSHandlers.RouteServerMessage | internal/relay/ws_handler.go:143-166 | Text with a non-empty string target goes to that client only, if attached, anything else to each attached client once |
| WSHandlers.AddresseesAreSentTo | internal/relay/ws_handler.go:143-166 | By the kind of the frame: text with a non-empty target goes to that client's connection if it is attached and to nobody else; every other frame to each attached client once |
| WSHandlers.SessionClientIs | internal/relay/ws_handler.go:124-135 | Without a room a frame goes to the client of the device's session, and to nobody if that has none |
| WSHandlers.RoutedIff | internal/relay/ws_handler.go:110-123 | A frame is routed iff its server is its device's registered one, and by rooms iff the device has one |
| WSHandlers.OfferedOnce | internal/relay/ws_handler.go:110-137 | An open connection with room queues the routed frame once, at the end; a closing one takes nothing |
| Lifecycle.JoinAndStay | internal/relay/ws_handler.go:110-166 | From an empty hub: the client that joins a device's room in time and stays while the server is replaced is offered each frame of the new server that is for it exactly once, and no other frame |
| Lifecycle.Join | internal/room/handler.go:130-208 | A reservation followed by its attachment seats the connection iff the room had room for it and the admission had not expired; no other seat changes |
| Limiters.WindowBound | internal/ratelimit/limiter.go:26-48 | In any sequence of calls no interval of length window holds more than max allowed ones |
| Limiters.AdmissibleBound | internal/ratelimit/limiter.go:26-48 | The same for any history whose calls were all allowed by the rule |
| Limiters.RunIsAdmissible | internal/ratelimit/limiter.go:26-48 | The allowed calls of any sequence of calls obey the rule |
| Limiters.ServedIff | internal/ratelimit/limiter.go:26-48 | A call is allowed and recorded iff fewer than max recorded ones lie in its window |
| Limiters.RecentRecent | internal/ratelimit/limiter.go:32-38 | Filtering early and again later equals filtering later, so pruning is invisible |
| Limiters.Limiter.Allow | internal/ratelimit/limiter.go:26-48 | Allowed iff fewer than max calls of the full, never pruned history lie in the window that ends now |
| Limiters.Limiter.Cleanup | internal/ratelimit/limiter.go:50-68 | Changes no history, so no later decision; keeps exactly the times in the window, and no empty entry |
| Limiters.Limiter.FilterInPlace | internal/ratelimit/limiter.go:32-38 | Filtering into the slice being read yields the recent times in order |
| Limiters.Limiter.Bound | internal/ratelimit/limiter.go:26-68 | At any moment in the limiter's life, no interval of length window holds more than max allowed calls of an ip |
| Telemetry.Handler.Report | internal/telemetry/handler.go:29-37 | Records the normalized report, or nothing if the body cannot be decoded, so the history stays clean |
| Telemetry.Handler.Stats | internal/telemetry/handler.go:42-86 | Disabled iff no token is configured, answered iff the header or the parameter carries it; the answer has the last 500 reports, the newest first, tallies of each field with keys of that field's whitelist only, and the share of direct connections, zero if there is neither a direct nor a relayed one |
| Telemetry.Aggregator.Record | internal/telemetry/aggregate.go:55-77 | Appends to the history that ring and counters stand for |
| Telemetry.Aggregator.Snapshot | internal/telemetry/aggregate.go:104-138 | For any ring capacity: recent is the reverse of the last min(n, capacity) records, counts are exact and sum to the total |
| Telemetry.Rotate | internal/telemetry/aggregate.go:74-76 | Overwriting the oldest slot drops the oldest entry and appends the new one, read from the next index around |
| Telemetry.SumsToTotal | internal/telemetry/aggregate.go:55-67 | Exact counters of one field sum to the number of records |
| Telemetry.KeysListed | internal/telemetry/snapshot.go:60-73 | Counters of clean reports have listed keys only |
| Telemetry.NormalIsClean | internal/telemetry/snapshot.go:75-105 | Normalizing makes any report clean, and changes nothing but possibly the session id in a clean one |
| Telemetry.NormalTwice | internal/telemetry/snapshot.go:75-105 | Normalizing twice changes at most the session id again |
| Telemetry.NormalKeepsMeaning | internal/telemetry/snapshot.go:75-105 | Every enum listed in any spelling is recognized, any other is unknown, every optional number is kept as far as its range allows, and the three required ones go to the nearest value in range |
| Telemetry.Normalize | internal/telemetry/snapshot.go:75-105 | The result is clean whatever came in; a clean report comes back unchanged but for a session id that needs trimming; every field that has a meaning keeps it; the session id is the first 128 characters of the trimmed one, or unknown |
| Telemetry.FoldEnumKeeps | internal/telemetry/snapshot.go:108-114 | Folding keeps listed values in canonical spelling and always gives a canonical value |
| Telemetry.FoldEnumIgnoresSpelling | internal/telemetry/snapshot.go:108-114 | Changing the case of any letters and adding white space at either end does not change the folded value |
| Telemetry.SessionIDStableIff | internal/telemetry/snapshot.go:118-127 | Normalizing a session id again changes it iff it was cut off right after a space |
| Telemetry.UnstableSessionID | internal/telemetry/snapshot.go:118-127 | Any 127 letters, a space and one more letter: the normal form ends in the space, and normalizing it again drops it |
| Telemetry.SessionIDNormal | internal/telemetry/snapshot.go:118-127 | No leading space, and a trimmed id that fits is kept |
| Telemetry.ClampOrDropInt | internal/telemetry/snapshot.go:144-156 | Dropped iff absent or below the range; otherwise kept if in range and the upper bound if above |
| Telemetry.ClampOrDropReal | internal/telemetry/snapshot.go:159-171 | The same for the one fractional field |
| Telemetry.ClampIntValue | internal/telemetry/snapshot.go:130-138 | In range; a value in range is kept, any other moves to the nearer bound |

## Left out

- HTTP handlers, JSON encoding and decoding, websocket upgrade, deadlines, pings, authentication: they only choose the next call. A frame's "target" field is an abstract part of the frame.
- `DeviceHub.IsOnline`, `GetServer`, `GetSession`, `GetRoom`, `GetRoomByDevice`, `Stats`, `RoomCount`, `ForwardToClient`, `ForwardToServer`, `UpdateGuestPassword`, and a room's `SetState`, `GetClient`, `DisplayID`: reads and plain field updates with nothing to prove.
- The legacy hub of `internal/relay/hub.go`, and `internal/guest/handler.go`, which takes an unconditional RemoveSession step.
- The sends of notifySessionResumed: the sessions and connections they go to are handed back to the caller.
- WritePump is a program counter of ConnectionProtocol, not a loop in the Connection object, because callers interleave with its iterations.
- Integer widths: generations, counters and sequence numbers are unbounded.
- Each critical section has one time, where the source may call time.Now() several times inside it. A background sweep of room admissions may use a time older than the calls it interleaves with.
- DeviceHubs.DeviceHub.RemoveServer: the server's close, which follows the unlocking, is part of the step in which it leaves the map; in between only a send by that server could tell.
- DeviceHubs.DeviceHub.RemoveServerConn: likewise closes the connection within its step.
- Rooms.Room.CloseAllClients: is the critical section; OfferRoomClosed makes the close-or-enqueue decision of each SendAndClose, and what the waiting caller is told afterwards is the subject of ConnectionProtocol.
- Rooms.Room.SendToServer: the closed flag and the first route snapshot are read at one time.
- Servers.OnlineServer.SendMessage: the mutex that keeps writes apart, and a server without a connection, are not modelled; whether a write succeeds is the environment's choice.
- Telemetry.FoldEnumKeeps: strings are sequences of bytes with ASCII white space and letter case, so trimming and lower-casing of other characters is not modelled.
- Telemetry.FoldEnumIgnoresSpelling: ASCII white space and letter case only, for the same reason.
- Telemetry.SessionIDNormal: ASCII white space only, for the same reason.
- Telemetry.SessionIDStableIff: ASCII white space only, for the same reason.
- Telemetry.ClampOrDropReal: uses real numbers for float64, so NaN and rounding are not modelled; nor is the rounding of the direct rate.
- HubRuns.OwnerStability: likewise ranges over servers bound to sessions of CreateSession, since a guest registration's user need not be the server's.
