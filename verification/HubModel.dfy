/**
 The device hub on values: one atomic step per critical section of DeviceHub.mu, per fired timer
 callback, and per teardown carried out after the lock was released. Servers and connections are
 the objects themselves, so that comparing them compares identities.
 */
module HubModel {
  import opened Common
  import opened Connections
  import opened Servers
  import opened Rooms

  datatype Side = ClientSide | ServerSide

  /** One side's grace fields: stale flag, generation counter, and the timer if one is armed. */
  datatype Grace = Grace(stale: bool, gen: nat, timer: Option<nat>)

  /** direct tells sessions of CreateSession from those of CreateGuestSession. */
  datatype Sess = Sess(userID: string, ownerUserID: string, deviceID: string, direct: bool, createdAt: int,
                       serverConn: OnlineServer?, clientConn: Connection?, client: Grace, server: Grace)

  /** A time.AfterFunc whose function has not run yet. A stopped one may run all the same, when Stop
      came too late. */
  datatype Callback = Callback(sessionID: string, side: Side, gen: nat, deadline: int, stopped: bool)

  datatype Reason =
    | ClientGraceExpired
    | ServerGraceExpired
    | CapExceeded
    | DeviceRemoved
    | ExplicitlyRemoved
    | Abandoned
    | EvictedItself

  /** A session object that has left the map; teardown reads its fields later, without the lock. */
  datatype Departed = Departed(sess: Sess, reason: Reason)

  /** What a teardown sends, and to whom. */
  datatype Notice = Notice(sessionID: string, server: OnlineServer?, client: Connection?, reason: Reason)

  /** Sessions, their stale index and timers, and the teardowns owed to and sent for departed ones. */
  datatype Table = Table(sessions: map<string, Sess>, stale: map<string, int>,
                         callbacks: map<nat, Callback>, nextTimer: nat,
                         departed: map<string, Departed>, owed: multiset<string>, sent: multiset<Notice>)

  datatype Guest = Guest(userID: string, deviceID: string, server: OnlineServer)

  datatype RoomRef = RoomRef(deviceID: string, ownerUserID: string, route: Route, closed: bool)

  /** Everything keyed by device, guest id or room id, and the servers closed so far. */
  datatype Registry = Registry(servers: map<string, OnlineServer>, guests: map<string, Guest>,
                               rooms: map<string, RoomRef>, serverRooms: map<string, string>,
                               serverGen: nat, closedServers: set<OnlineServer>)

  datatype State = State(reg: Registry, tab: Table, grace: int, cap: nat, now: int)

  // --- The session table ---

  function SideOf(x: Sess, side: Side): Grace {
    match side case ClientSide => x.client case ServerSide => x.server
  }

  function WithSide(x: Sess, side: Side, g: Grace): Sess {
    match side case ClientSide => x.(client := g) case ServerSide => x.(server := g)
  }

  /** Also drops the connection of the side that went stale. */
  function Disconnected(x: Sess, side: Side, g: Grace): Sess {
    match side
    case ClientSide => x.(client := g, clientConn := null)
    case ServerSide => x.(server := g, serverConn := null)
  }

  predicate IsStale(x: Sess) {
    x.client.stale || x.server.stale
  }

  function StopTimer(callbacks: map<nat, Callback>, timer: Option<nat>): map<nat, Callback> {
    if timer.Some? && timer.value in callbacks
    then callbacks[timer.value := callbacks[timer.value].(stopped := true)]
    else callbacks
  }

  /** Marks one side stale: new generation, old timer stopped, new timer armed. */
  function MarkSide(t: Table, id: string, side: Side, deadline: int): Table
    requires id in t.sessions
  {
    var x := t.sessions[id];
    var gen := SideOf(x, side).gen + 1;
    t.(sessions := t.sessions[id := Disconnected(x, side, Grace(true, gen, Some(t.nextTimer)))],
       callbacks := StopTimer(t.callbacks, SideOf(x, side).timer)[t.nextTimer :=
                      Callback(id, side, gen, deadline, false)],
       nextTimer := t.nextTimer + 1)
  }

  function Calmed(x: Sess, side: Side): Sess {
    WithSide(x, side, Grace(false, SideOf(x, side).gen, None))
  }

  /** cancelClientGraceLocked and cancelServerGraceLocked. */
  function Cancel(t: Table, id: string, side: Side): Table
    requires id in t.sessions
  {
    var x := Calmed(t.sessions[id], side);
    t.(sessions := t.sessions[id := x],
       callbacks := StopTimer(t.callbacks, SideOf(t.sessions[id], side).timer),
       stale := if IsStale(x) then t.stale else t.stale - {id})
  }

  /** clearGraceLocked. */
  function ClearGrace(t: Table, id: string): Table
    requires id in t.sessions
  {
    var x := t.sessions[id];
    t.(sessions := t.sessions[id := Calmed(Calmed(x, ClientSide), ServerSide)],
       callbacks := StopTimer(StopTimer(t.callbacks, x.client.timer), x.server.timer))
  }

  predicate Announced(reason: Reason) {
    !reason.ExplicitlyRemoved? && !reason.Abandoned? && !reason.EvictedItself?
  }

  /** The session leaves the map; some reasons owe its peers a teardown. */
  function Depart(t: Table, id: string, reason: Reason): Table
    requires id in t.sessions
  {
    t.(sessions := t.sessions - {id}, stale := t.stale - {id},
       departed := t.departed[id := Departed(t.sessions[id], reason)],
       owed := if Announced(reason) then t.owed + multiset{id} else t.owed)
  }

  function Track(stale: map<string, int>, id: string, now: int): map<string, int> {
    if id in stale then stale else stale[id := now]
  }

  predicate IsOldest(stale: map<string, int>, id: string) {
    id in stale && forall k :: k in stale ==> stale[id] <= stale[k]
  }

  /** Marking id stale at `now` would exceed the cap. */
  predicate Overflows(t: Table, id: string, now: int, cap: nat) {
    |Track(t.stale, id, now)| > cap
  }

  /** markStaleLocked. Which of several equally old entries the map iteration finds is left open. */
  function TrackAndEvict(t: Table, id: string, now: int, cap: nat, victim: string, reason: Reason): Table {
    var tracked := t.(stale := Track(t.stale, id, now));
    if |tracked.stale| <= cap then tracked
    else if victim in t.sessions then Depart(ClearGrace(tracked, victim), victim, reason)
    else tracked.(stale := tracked.stale - {victim})
  }

  function MarkStale(t: Table, id: string, side: Side, now: int, grace: int, cap: nat, victim: string,
                     reason: Reason): Table
    requires id in t.sessions
  {
    TrackAndEvict(MarkSide(t, id, side, now + grace), id, now, cap, victim, reason)
  }

  function ExpiryReason(side: Side): Reason {
    match side case ClientSide => ClientGraceExpired case ServerSide => ServerGraceExpired
  }

  /** expireClientGrace and expireServerGrace, guarded by flag and generation. */
  function Fire(t: Table, timer: nat): Table
    requires timer in t.callbacks
  {
    var cb := t.callbacks[timer];
    var rest := t.(callbacks := t.callbacks - {timer});
    if Expires(t, cb) then Depart(rest, cb.sessionID, ExpiryReason(cb.side))
    else rest
  }

  predicate Expires(t: Table, cb: Callback) {
    && cb.sessionID in t.sessions
    && SideOf(t.sessions[cb.sessionID], cb.side).stale
    && SideOf(t.sessions[cb.sessionID], cb.side).gen == cb.gen
  }

  function BindServer(t: Table, id: string, server: OnlineServer): Table
    requires id in t.sessions
  {
    var bound := t.(sessions := t.sessions[id := t.sessions[id].(serverConn := server)]);
    if t.sessions[id].server.stale then Cancel(bound, id, ServerSide) else bound
  }

  function BindClient(t: Table, id: string, conn: Connection?): Table
    requires id in t.sessions
  {
    Cancel(t.(sessions := t.sessions[id := t.sessions[id].(clientConn := conn)]), id, ClientSide)
  }

  predicate IsAbandoned(x: Sess, now: int, maxAge: int) {
    now - x.createdAt > maxAge && x.clientConn == null && !IsStale(x)
  }

  /** CleanupStaleSessions. */
  function Sweep(t: Table, now: int, maxAge: int): Table {
    t.(sessions := map id | id in t.sessions && !IsAbandoned(t.sessions[id], now, maxAge) :: t.sessions[id],
       departed := t.departed +
         map id | id in t.sessions && IsAbandoned(t.sessions[id], now, maxAge) :: Departed(t.sessions[id], Abandoned))
  }

  function NoticeFor(id: string, d: Departed): Notice {
    Notice(id, d.sess.serverConn, d.sess.clientConn, d.reason)
  }

  /** teardownSession: reads the departed session object as it is by then. */
  function Teardown(t: Table, id: string): Table
    requires id in t.departed
  {
    t.(owed := t.owed - multiset{id}, sent := t.sent + multiset{NoticeFor(id, t.departed[id])})
  }

  predicate ForDevice(t: Table, id: string, deviceID: string) {
    id in t.sessions && t.sessions[id].deviceID == deviceID
  }

  /** The device's session. OneSessionPerDevice makes it the only one. */
  ghost function DeviceSession(t: Table, deviceID: string): (found: Option<string>)
    ensures found.Some? ==> ForDevice(t, found.value, deviceID)
    ensures found.None? ==> forall id :: !ForDevice(t, id, deviceID)
  {
    if exists id :: ForDevice(t, id, deviceID)
    then var id :| ForDevice(t, id, deviceID); Some(id)
    else None
  }

  function NewSess(userID: string, ownerUserID: string, deviceID: string, direct: bool, now: int,
                   server: OnlineServer): Sess
  {
    Sess(userID, ownerUserID, deviceID, direct, now, server, null, Grace(false, 0, None), Grace(false, 0, None))
  }

  // --- The registry ---

  /** cleanupDeviceGuestsAndRoomsLocked. */
  function CleanupDevice(r: Registry, deviceID: string): Registry {
    r.(guests := map k | k in r.guests && r.guests[k].deviceID != deviceID :: r.guests[k],
       rooms := if deviceID in r.serverRooms then r.rooms - {r.serverRooms[deviceID]} else r.rooms,
       serverRooms := r.serverRooms - {deviceID})
  }

  function RegisterServer(r: Registry, server: OnlineServer): Registry {
    var d := server.deviceID;
    r.(serverGen := r.serverGen + 1,
       servers := r.servers[d := server],
       closedServers := if d in r.servers then r.closedServers + {r.servers[d]} else r.closedServers,
       rooms := ReboundRooms(r, server))
  }

  /** The device's room is routed to its new server. */
  function ReboundRooms(r: Registry, server: OnlineServer): map<string, RoomRef> {
    if server.deviceID in r.serverRooms && r.serverRooms[server.deviceID] in r.rooms
    then var id := r.serverRooms[server.deviceID];
         r.rooms[id := r.rooms[id].(route := Rebind(r.rooms[id].route, r.rooms[id].closed, server))]
    else r.rooms
  }

  function UnregisterServer(r: Registry, deviceID: string): Registry {
    r.(servers := r.servers - {deviceID},
       closedServers := if deviceID in r.servers then r.closedServers + {r.servers[deviceID]} else r.closedServers)
  }

  // --- The steps ---

  predicate MayAddServer(s: State, deviceID: string, userID: string) {
    && (deviceID in s.reg.servers ==> s.reg.servers[deviceID].userID == userID)
    && (deviceID in s.reg.serverRooms && s.reg.serverRooms[deviceID] in s.reg.rooms ==>
          s.reg.rooms[s.reg.serverRooms[deviceID]].ownerUserID == userID)
    && (forall id :: id in s.tab.sessions && s.tab.sessions[id].deviceID == deviceID ==>
          s.tab.sessions[id].ownerUserID == userID)
  }

  /** The device's session, if any, is rebound to its new server. */
  ghost function BindDevice(t: Table, server: OnlineServer): Table {
    match DeviceSession(t, server.deviceID)
    case Some(id) => BindServer(t, id, server)
    case None => t
  }

  /** removeDeviceSessionsLocked. */
  ghost function RemoveDevice(t: Table, deviceID: string): Table {
    match DeviceSession(t, deviceID)
    case Some(id) => Depart(ClearGrace(t, id), id, DeviceRemoved)
    case None => t
  }

  /** The session part of markDeviceSessionsStaleLocked. */
  ghost function MarkDevice(t: Table, deviceID: string, now: int, grace: int, cap: nat, victim: string): Table {
    match DeviceSession(t, deviceID)
    case Some(id) => MarkStale(t, id, ServerSide, now, grace, cap, victim, CapExceeded)
    case None => t
  }

  /** server is the object AddServer allocates. A refused call, which allocates none and changes nothing,
      is a step of its own. */
  ghost function AddServer(s: State, server: OnlineServer): State {
    s.(reg := RegisterServer(s.reg, server), tab := BindDevice(s.tab, server))
  }

  ghost function RemoveServer(s: State, deviceID: string): State {
    s.(reg := CleanupDevice(UnregisterServer(s.reg, deviceID), deviceID), tab := RemoveDevice(s.tab, deviceID))
  }

  predicate IsRegistered(s: State, server: OnlineServer) {
    server.deviceID in s.reg.servers && s.reg.servers[server.deviceID] == server
  }

  /** The check that routes a frame read from a server's socket (routeCurrentServerMessage). */
  predicate Routable(s: State, server: OnlineServer) {
    server !in s.reg.closedServers && IsRegistered(s, server)
  }

  /** The device has a room, so its frames go there. */
  predicate InRoom(s: State, deviceID: string) {
    deviceID in s.reg.serverRooms && s.reg.serverRooms[deviceID] in s.reg.rooms
  }

  ghost function RemoveServerConn(s: State, conn: OnlineServer, victim: string): State {
    if !IsRegistered(s, conn) then s
    else s.(reg := CleanupDevice(UnregisterServer(s.reg, conn.deviceID), conn.deviceID),
            tab := MarkDevice(s.tab, conn.deviceID, s.now, s.grace, s.cap, victim))
  }

  predicate IsBound(s: State, id: string, conn: Connection?) {
    id in s.tab.sessions && s.tab.sessions[id].clientConn == conn
  }

  /** The teardown of the victim is skipped when the victim is the session just marked. */
  function MarkClientStale(s: State, id: string, expected: Connection?, victim: string): State {
    if !IsBound(s, id, expected) then s
    else s.(tab := MarkStale(s.tab, id, ClientSide, s.now, s.grace, s.cap, victim,
                             if victim != id then CapExceeded else EvictedItself))
  }

  ghost function CreateSessionError(s: State, userID: string, deviceID: string): Option<Error> {
    if deviceID !in s.reg.servers then Some(ErrServerOffline)
    else if s.reg.servers[deviceID].userID != userID then Some(ErrNotOwner)
    else if DeviceSession(s.tab, deviceID).Some? then Some(ErrServerBusy)
    else None
  }

  ghost function CreateSession(s: State, userID: string, deviceID: string, id: string): State {
    if CreateSessionError(s, userID, deviceID).Some? then s
    else s.(tab := s.tab.(sessions := s.tab.sessions[
              id := NewSess(userID, userID, deviceID, true, s.now, s.reg.servers[deviceID])]))
  }

  ghost function CreateGuestSessionError(s: State, shortID: string): Option<Error> {
    if shortID !in s.reg.guests then Some(ErrGuestNotFound)
    else if DeviceSession(s.tab, s.reg.guests[shortID].deviceID).Some? then Some(ErrServerBusy)
    else None
  }

  ghost function CreateGuestSession(s: State, shortID: string, id: string): State {
    if CreateGuestSessionError(s, shortID).Some? then s
    else
      var g := s.reg.guests[shortID];
      s.(tab := s.tab.(sessions := s.tab.sessions[
           id := NewSess("guest", g.userID, g.deviceID, false, s.now, g.server)]))
  }

  function SetSessionClient(s: State, id: string, conn: Connection): State {
    if id in s.tab.sessions then s.(tab := BindClient(s.tab, id, conn)) else s
  }

  function RemoveSession(s: State, id: string): State {
    if id in s.tab.sessions then s.(tab := Depart(ClearGrace(s.tab, id), id, ExplicitlyRemoved)) else s
  }

  function RegisterGuestError(s: State, shortID: string, deviceID: string): Option<Error> {
    if shortID in s.reg.guests then Some(ErrShortIDConflict)
    else if deviceID !in s.reg.servers then Some(ErrServerOffline)
    else None
  }

  function RegisterGuest(s: State, shortID: string, userID: string, deviceID: string): State {
    if RegisterGuestError(s, shortID, deviceID).Some? then s
    else s.(reg := s.reg.(guests := s.reg.guests[shortID := Guest(userID, deviceID, s.reg.servers[deviceID])]))
  }

  function UnregisterGuest(s: State, shortID: string): State {
    s.(reg := s.reg.(guests := s.reg.guests - {shortID}))
  }

  const ROOM_ID_ATTEMPTS: nat := 10

  /** The first candidate that is not taken. */
  function PickRoomID(rooms: set<string>, candidates: seq<string>): Option<string>
    decreases |candidates|
  {
    if candidates == [] then None
    else if candidates[0] !in rooms then Some(candidates[0])
    else PickRoomID(rooms, candidates[1..])
  }

  function CreateRoomError(s: State, deviceID: string, userID: string, candidates: seq<string>): Option<Error> {
    if deviceID !in s.reg.servers then Some(ErrServerOffline)
    else if s.reg.servers[deviceID].userID != userID then Some(ErrNotOwner)
    else if deviceID in s.reg.serverRooms then Some(ErrRoomAlreadyExists)
    else if PickRoomID(s.reg.rooms.Keys, candidates).None? then Some(ErrShortIDConflict)
    else None
  }

  function CreateRoom(s: State, deviceID: string, userID: string, candidates: seq<string>): State {
    if CreateRoomError(s, deviceID, userID, candidates).Some? then s
    else
      var id := PickRoomID(s.reg.rooms.Keys, candidates).value;
      var server := s.reg.servers[deviceID];
      s.(reg := s.reg.(rooms := s.reg.rooms[id := RoomRef(deviceID, userID, Route(server, server.generation), false)],
                       serverRooms := s.reg.serverRooms[deviceID := id]))
  }

  function RemoveRoom(s: State, roomID: string): State {
    if roomID in s.reg.rooms
    then s.(reg := s.reg.(rooms := s.reg.rooms - {roomID},
                          serverRooms := s.reg.serverRooms - {s.reg.rooms[roomID].deviceID}))
    else s
  }

  datatype Op =
    | OpAddServer(deviceID: string, userID: string, server: OnlineServer)
    | OpRefuseServer(deviceID: string, userID: string)
    | OpRemoveServer(deviceID: string)
    | OpRemoveServerConn(server: OnlineServer, victim: string)
    | OpCreateSession(userID: string, deviceID: string, id: string)
    | OpCreateGuestSession(shortID: string, id: string)
    | OpSetSessionClient(id: string, conn: Connection)
    | OpMarkClientStale(id: string, expected: Connection?, victim: string)
    | OpRemoveSession(id: string)
    | OpCleanupStaleSessions(maxAge: int)
    | OpFire(timer: nat)
    | OpTeardown(id: string)
    | OpRegisterGuest(shortID: string, userID: string, deviceID: string)
    | OpUnregisterGuest(shortID: string)
    | OpCreateRoom(deviceID: string, userID: string, candidates: seq<string>)
    | OpRemoveRoom(roomID: string)

  /** A step, and the clock at that step. */
  datatype Event = At(now: int, op: Op)

  predicate FreshID(t: Table, id: string) {
    id != "" && id !in t.sessions && id !in t.departed
  }

  predicate GoodVictim(t: Table, id: string, now: int, cap: nat, victim: string) {
    Overflows(t, id, now, cap) ==> IsOldest(Track(t.stale, id, now), victim)
  }

  /** The clock does not go back, a server is added or refused as its owner checks say, generated session
      ids are fresh and non-empty, an eviction picks an oldest entry, and a timer runs when due, or at
      any time if it was stopped too late. */
  ghost predicate Enabled(s: State, e: Event) {
    && s.now <= e.now
    && match e.op
       case OpAddServer(deviceID, userID, server) =>
         && MayAddServer(s, deviceID, userID)
         && server.deviceID == deviceID && server.userID == userID
         && server.generation == s.reg.serverGen + 1
       case OpRefuseServer(deviceID, userID) => !MayAddServer(s, deviceID, userID)
       case OpRemoveServerConn(server, victim) =>
         var found := DeviceSession(s.tab, server.deviceID);
         IsRegistered(s, server) && found.Some? ==> GoodVictim(s.tab, found.value, e.now, s.cap, victim)
       case OpMarkClientStale(id, expected, victim) =>
         IsBound(s, id, expected) ==> GoodVictim(s.tab, id, e.now, s.cap, victim)
       case OpCreateSession(_, _, id) => FreshID(s.tab, id)
       case OpCreateGuestSession(_, id) => FreshID(s.tab, id)
       case OpFire(timer) =>
         timer in s.tab.callbacks && (s.tab.callbacks[timer].stopped || s.tab.callbacks[timer].deadline <= e.now)
       case OpTeardown(id) => id in s.tab.owed && id in s.tab.departed
       case OpCreateRoom(_, _, candidates) => |candidates| == ROOM_ID_ATTEMPTS && "" !in candidates
       case _ => true
  }

  ghost function Next(s: State, e: Event): State {
    Apply(s.(now := e.now), e.op)
  }

  /** The hub's transition relation. */
  ghost predicate Steps(s: State, e: Event, t: State) {
    Enabled(s, e) && t == Next(s, e)
  }

  ghost function Apply(s: State, op: Op): State
  {
    match op
    case OpAddServer(deviceID, userID, server) => AddServer(s, server)
    case OpRefuseServer(deviceID, userID) => s
    case OpRemoveServer(deviceID) => RemoveServer(s, deviceID)
    case OpRemoveServerConn(server, victim) => RemoveServerConn(s, server, victim)
    case OpCreateSession(userID, deviceID, id) => CreateSession(s, userID, deviceID, id)
    case OpCreateGuestSession(shortID, id) => CreateGuestSession(s, shortID, id)
    case OpSetSessionClient(id, conn) => SetSessionClient(s, id, conn)
    case OpMarkClientStale(id, expected, victim) => MarkClientStale(s, id, expected, victim)
    case OpRemoveSession(id) => RemoveSession(s, id)
    case OpCleanupStaleSessions(maxAge) => s.(tab := Sweep(s.tab, s.now, maxAge))
    case OpFire(timer) => if timer in s.tab.callbacks then s.(tab := Fire(s.tab, timer)) else s
    case OpTeardown(id) => if id in s.tab.departed then s.(tab := Teardown(s.tab, id)) else s
    case OpRegisterGuest(shortID, userID, deviceID) => RegisterGuest(s, shortID, userID, deviceID)
    case OpUnregisterGuest(shortID) => UnregisterGuest(s, shortID)
    case OpCreateRoom(deviceID, userID, candidates) => CreateRoom(s, deviceID, userID, candidates)
    case OpRemoveRoom(roomID) => RemoveRoom(s, roomID)
  }

  function Empty(grace: int, cap: nat, now: int): State {
    State(Registry(map[], map[], map[], map[], 0, {}),
          Table(map[], map[], map[], 0, map[], multiset{}, multiset{}), grace, cap, now)
  }
}
