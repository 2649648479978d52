/** What a call has to establish to be a step of HubModel. */
module HubSteps {
  import opened Common
  import opened Connections
  import opened Servers
  import opened Rooms
  import opened HubModel

  lemma AddServerSteps(s: State, now: int, deviceID: string, userID: string, server: OnlineServer, t: State)
    requires s.now <= now && MayAddServer(s, deviceID, userID)
    requires server.deviceID == deviceID && server.userID == userID && server.generation == s.reg.serverGen + 1
    requires t == s.(now := now, reg := RegisterServer(s.reg, server), tab := BindDevice(s.tab, server))
    ensures Steps(s, At(now, OpAddServer(deviceID, userID, server)), t)
  {
  }

  lemma RefuseServerSteps(s: State, now: int, deviceID: string, userID: string)
    requires s.now <= now && !MayAddServer(s, deviceID, userID)
    ensures Steps(s, At(now, OpRefuseServer(deviceID, userID)), s.(now := now))
  {
  }

  lemma RemoveServerSteps(s: State, now: int, deviceID: string, t: State)
    requires s.now <= now
    requires t == s.(now := now, reg := CleanupDevice(UnregisterServer(s.reg, deviceID), deviceID),
                     tab := RemoveDevice(s.tab, deviceID))
    ensures Steps(s, At(now, OpRemoveServer(deviceID)), t)
  {
  }

  lemma RemoveServerConnSteps(s: State, now: int, conn: OnlineServer, who: string, t: State)
    requires s.now <= now && IsRegistered(s, conn)
    requires match DeviceSession(s.tab, conn.deviceID)
             case None => true
             case Some(id) => GoodVictim(s.tab, id, now, s.cap, who)
    requires t == s.(now := now, reg := CleanupDevice(UnregisterServer(s.reg, conn.deviceID), conn.deviceID),
                     tab := MarkDevice(s.tab, conn.deviceID, now, s.grace, s.cap, who))
    ensures Steps(s, At(now, OpRemoveServerConn(conn, who)), t)
  {
  }

  lemma SupersededSteps(s: State, now: int, conn: OnlineServer, who: string)
    requires s.now <= now && !IsRegistered(s, conn)
    ensures Steps(s, At(now, OpRemoveServerConn(conn, who)), s.(now := now))
  {
  }

  lemma CreateSessionSteps(s: State, now: int, userID: string, deviceID: string, id: string, t: State)
    requires s.now <= now && FreshID(s.tab, id)
    requires t == CreateSession(s.(now := now), userID, deviceID, id)
    ensures Steps(s, At(now, OpCreateSession(userID, deviceID, id)), t)
    ensures CreateSessionError(s, userID, deviceID) == CreateSessionError(s.(now := now), userID, deviceID)
  {
  }

  lemma CreateGuestSessionSteps(s: State, now: int, shortID: string, id: string, t: State)
    requires s.now <= now && FreshID(s.tab, id)
    requires t == CreateGuestSession(s.(now := now), shortID, id)
    ensures Steps(s, At(now, OpCreateGuestSession(shortID, id)), t)
    ensures CreateGuestSessionError(s, shortID) == CreateGuestSessionError(s.(now := now), shortID)
  {
  }

  lemma SetSessionClientSteps(s: State, now: int, id: string, conn: Connection, t: State)
    requires s.now <= now && t == SetSessionClient(s.(now := now), id, conn)
    ensures Steps(s, At(now, OpSetSessionClient(id, conn)), t)
  {
  }

  lemma RemoveSessionSteps(s: State, now: int, id: string, t: State)
    requires s.now <= now && t == RemoveSession(s, id)
    ensures Steps(s, At(now, OpRemoveSession(id)), t.(now := now))
  {
  }

  lemma SweepSteps(s: State, now: int, maxAge: int, t: State)
    requires s.now <= now && t == s.(now := now, tab := Sweep(s.tab, now, maxAge))
    ensures Steps(s, At(now, OpCleanupStaleSessions(maxAge)), t)
  {
  }

  lemma FireSteps(s: State, now: int, timer: nat, t: State)
    requires s.now <= now && timer in s.tab.callbacks
    requires s.tab.callbacks[timer].stopped || s.tab.callbacks[timer].deadline <= now
    requires t == s.(now := now, tab := Fire(s.tab, timer))
    ensures Steps(s, At(now, OpFire(timer)), t)
  {
  }

  lemma TeardownSteps(s: State, now: int, id: string, t: State)
    requires s.now <= now && id in s.tab.owed && id in s.tab.departed
    requires t == s.(now := now, tab := Teardown(s.tab, id))
    ensures Steps(s, At(now, OpTeardown(id)), t)
  {
  }

  lemma RegisterGuestSteps(s: State, now: int, shortID: string, userID: string, deviceID: string, t: State)
    requires s.now <= now && t == RegisterGuest(s.(now := now), shortID, userID, deviceID)
    ensures Steps(s, At(now, OpRegisterGuest(shortID, userID, deviceID)), t)
  {
  }

  lemma UnregisterGuestSteps(s: State, now: int, shortID: string, t: State)
    requires s.now <= now && t == UnregisterGuest(s.(now := now), shortID)
    ensures Steps(s, At(now, OpUnregisterGuest(shortID)), t)
  {
  }

  lemma CreateRoomSteps(s: State, now: int, deviceID: string, userID: string, candidates: seq<string>, t: State)
    requires s.now <= now && |candidates| == ROOM_ID_ATTEMPTS && "" !in candidates
    requires t == CreateRoom(s.(now := now), deviceID, userID, candidates)
    ensures Steps(s, At(now, OpCreateRoom(deviceID, userID, candidates)), t)
  {
  }

  lemma RemoveRoomSteps(s: State, now: int, roomID: string, t: State)
    requires s.now <= now && t == RemoveRoom(s.(now := now), roomID)
    ensures Steps(s, At(now, OpRemoveRoom(roomID)), t)
  {
  }
}
