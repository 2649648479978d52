/**
 The hub as the source has it: maps of shared, mutable session and room objects. tab and reg are the
 abstract state. Every call of the hub is one step of HubModel, so HubRuns speaks about any sequence of
 them; CleanupRoomAdmissions and the calls on rooms leave that state as it is. Methods take the
 time.Now() of their critical section. Work done after the lock is released is handed back: sessions
 to tear down, resumed sessions to announce, and connections to take leave of.
 */
module DeviceHubs {
  import opened Common
  import opened Connections
  import opened Servers
  import opened Rooms
  import opened HubModel
  import Inv = HubInvariants
  import Runs = HubRuns
  import RoomModel
  import opened HubSteps

  class Session {
    const id: string
    const userID: string
    const ownerUserID: string
    const deviceID: string
    const createdAt: int
    ghost const direct: bool
    var serverConn: OnlineServer?
    var clientConn: Connection?
    var clientStale: bool
    var clientGraceGen: nat
    var clientGraceTimer: Option<nat>
    var serverStale: bool
    var serverGraceGen: nat
    var serverGraceTimer: Option<nat>

    ghost function View(): Sess
      reads this
    {
      Sess(userID, ownerUserID, deviceID, direct, createdAt, serverConn, clientConn,
           Grace(clientStale, clientGraceGen, clientGraceTimer), Grace(serverStale, serverGraceGen, serverGraceTimer))
    }

    constructor (id: string, userID: string, ownerUserID: string, deviceID: string, ghost direct: bool,
                 now: int, server: OnlineServer)
      ensures this.id == id && View() == NewSess(userID, ownerUserID, deviceID, direct, now, server)
    {
      this.id, this.userID, this.ownerUserID, this.deviceID, this.createdAt := id, userID, ownerUserID, deviceID, now;
      this.direct := direct;
      serverConn, clientConn := server, null;
      clientStale, clientGraceGen, clientGraceTimer := false, 0, None;
      serverStale, serverGraceGen, serverGraceTimer := false, 0, None;
    }

    /** The client's connection dropped; timer is the grace timer of the new generation. */
    method DropClient(timer: nat)
      modifies this
      ensures View() == Disconnected(old(View()), ClientSide, Grace(true, old(clientGraceGen) + 1, Some(timer)))
    {
      clientStale := true;
      clientConn := null;
      clientGraceGen := clientGraceGen + 1;
      clientGraceTimer := Some(timer);
    }

    method DropServer(timer: nat)
      modifies this
      ensures View() == Disconnected(old(View()), ServerSide, Grace(true, old(serverGraceGen) + 1, Some(timer)))
    {
      serverStale := true;
      serverConn := null;
      serverGraceGen := serverGraceGen + 1;
      serverGraceTimer := Some(timer);
    }

    method CalmClient()
      modifies this
      ensures View() == Calmed(old(View()), ClientSide)
    {
      clientGraceTimer := None;
      clientStale := false;
    }

    method CalmServer()
      modifies this
      ensures View() == Calmed(old(View()), ServerSide)
    {
      serverGraceTimer := None;
      serverStale := false;
    }

    method Calm()
      modifies this
      ensures View() == Calmed(Calmed(old(View()), ClientSide), ServerSide)
    {
      CalmClient();
      CalmServer();
    }
  }

  const DEFAULT_SESSION_GRACE: int := 30
  const DEFAULT_MAX_STALE_SESSIONS: nat := 100

  class DeviceHub {
    var onlineServers: map<string, OnlineServer>
    var guestDevices: map<string, Guest>
    var sessions: map<string, Session>
    var rooms: map<string, Room>
    var serverRooms: map<string, string>
    var serverGen: nat
    var staleSessions: map<string, int>
    const sessionGrace: int
    const maxStaleSessions: nat

    /** The runtime's timers: callbacks that have not run yet. */
    var timers: map<nat, Callback>
    var nextTimer: nat

    ghost var tab: Table
    ghost var reg: Registry
    ghost var clock: int

    /** Session objects that left the map; someone may still hold them. */
    ghost var gone: map<string, Session>
    ghost var sessionObjs: set<Session>
    ghost var roomObjs: set<Room>
    ghost var issued: set<OnlineServer>

    // --- Sessions and their timers ---

    /** The objects hold exactly the abstract sessions. */
    static ghost predicate Mirrors(objs: map<string, Session>, abs: map<string, Sess>, repr: set<Session>)
      reads repr
    {
      && (forall id :: id in objs <==> id in abs)
      && (forall id :: id in objs ==> objs[id] in repr && objs[id].id == id && objs[id].View() == abs[id])
    }

    static ghost function LastSeen(departed: map<string, Departed>): map<string, Sess> {
      map id | id in departed :: departed[id].sess
    }

    ghost predicate TableValid()
      reads this`sessions, this`staleSessions, this`timers, this`nextTimer, this`tab, this`gone,
            this`sessionObjs, sessionObjs
    {
      && Mirrors(sessions, tab.sessions, sessionObjs)
      && Mirrors(gone, LastSeen(tab.departed), sessionObjs)
      && sessions.Keys !! gone.Keys && Accounted(sessions, gone, sessionObjs)
      && staleSessions == tab.stale && timers == tab.callbacks && nextTimer == tab.nextTimer
    }

    /** Every session object is registered or gone. */
    static ghost predicate Accounted(sessions: map<string, Session>, gone: map<string, Session>, repr: set<Session>) {
      forall o :: o in repr ==> (o.id in sessions && sessions[o.id] == o) || (o.id in gone && gone[o.id] == o)
    }

    static lemma AccountedDelete(sessions: map<string, Session>, gone: map<string, Session>, repr: set<Session>,
                                 sess: Session)
      requires Accounted(sessions, gone, repr) && sess.id in sessions && sessions[sess.id] == sess && sess.id !in gone
      ensures Accounted(sessions - {sess.id}, gone[sess.id := sess], repr)
    {
    }

    static lemma MirrorsAt(objs: map<string, Session>, abs: map<string, Sess>, repr: set<Session>, id: string)
      requires Mirrors(objs, abs, repr) && (id in objs || id in abs)
      ensures id in objs && id in abs && objs[id] in repr && objs[id].id == id && objs[id].View() == abs[id]
    {
    }

    /** Changing one registered object changes one abstract session, and no departed one. */
    twostate lemma OneChanged(sess: Session)
      requires old(TableValid()) && Registered(sess)
      requires sessions == old(sessions) && gone == old(gone) && sessionObjs == old(sessionObjs) && tab == old(tab)
      requires forall o | o in sessionObjs && o != sess :: unchanged(o)
      ensures Mirrors(sessions, tab.sessions[sess.id := sess.View()], sessionObjs)
      ensures Mirrors(gone, LastSeen(tab.departed), sessionObjs)
    {
    }

    /** sess is registered, which is all that callers of the Locked helpers know about it. */
    ghost predicate Registered(sess: Session)
      reads this`sessions
    {
      sess.id in sessions && sessions[sess.id] == sess
    }

    /** (*time.Timer).Stop; its result is ignored, as everywhere in the source. */
    method StopTimer(timer: Option<nat>)
      modifies this`timers
      ensures timers == HubModel.StopTimer(old(timers), timer)
    {
      if timer.Some? && timer.value in timers {
        timers := timers[timer.value := timers[timer.value].(stopped := true)];
      }
    }

    /** time.AfterFunc. */
    method AfterFunc(sessionID: string, side: Side, gen: nat, deadline: int) returns (timer: nat)
      modifies this`timers, this`nextTimer
      ensures timer == old(nextTimer) && nextTimer == old(nextTimer) + 1
      ensures timers == old(timers)[timer := Callback(sessionID, side, gen, deadline, false)]
    {
      timer := nextTimer;
      timers := timers[timer := Callback(sessionID, side, gen, deadline, false)];
      nextTimer := nextTimer + 1;
    }

    /** The part of MarkClientStale before markStaleLocked. */
    method MarkClientSide(sess: Session, now: int)
      requires TableValid() && Registered(sess)
      modifies this`timers, this`nextTimer, this`tab, sess
      ensures TableValid()
      ensures sess.id in old(tab.sessions)
      ensures tab == MarkSide(old(tab), sess.id, ClientSide, now + sessionGrace)
    {
      hide Mirrors, Accounted, LastSeen, HubModel.StopTimer;
      MirrorsAt(sessions, tab.sessions, sessionObjs, sess.id);
      StopTimer(sess.clientGraceTimer);
      var timer := AfterFunc(sess.id, ClientSide, sess.clientGraceGen + 1, now + sessionGrace);
      sess.DropClient(timer);
      OneChanged(sess);
      tab := MarkSide(tab, sess.id, ClientSide, now + sessionGrace);
    }

    method MarkServerSide(sess: Session, now: int)
      requires TableValid() && Registered(sess)
      modifies this`timers, this`nextTimer, this`tab, sess
      ensures TableValid()
      ensures sess.id in old(tab.sessions)
      ensures tab == MarkSide(old(tab), sess.id, ServerSide, now + sessionGrace)
    {
      hide Mirrors, Accounted, LastSeen, HubModel.StopTimer;
      MirrorsAt(sessions, tab.sessions, sessionObjs, sess.id);
      StopTimer(sess.serverGraceTimer);
      var timer := AfterFunc(sess.id, ServerSide, sess.serverGraceGen + 1, now + sessionGrace);
      sess.DropServer(timer);
      OneChanged(sess);
      tab := MarkSide(tab, sess.id, ServerSide, now + sessionGrace);
    }

    method CancelClientGraceLocked(sess: Session)
      requires TableValid() && Registered(sess)
      modifies this`timers, this`staleSessions, this`tab, sess
      ensures TableValid()
      ensures sess.id in old(tab.sessions) && tab == Cancel(old(tab), sess.id, ClientSide)
    {
      hide Mirrors, Accounted, LastSeen, HubModel.StopTimer;
      MirrorsAt(sessions, tab.sessions, sessionObjs, sess.id);
      StopTimer(sess.clientGraceTimer);
      sess.CalmClient();
      UnmarkStaleIfDoneLocked(sess);
      OneChanged(sess);
      tab := Cancel(tab, sess.id, ClientSide);
    }

    method CancelServerGraceLocked(sess: Session)
      requires TableValid() && Registered(sess)
      modifies this`timers, this`staleSessions, this`tab, sess
      ensures TableValid()
      ensures sess.id in old(tab.sessions) && tab == Cancel(old(tab), sess.id, ServerSide)
    {
      hide Mirrors, Accounted, LastSeen, HubModel.StopTimer;
      MirrorsAt(sessions, tab.sessions, sessionObjs, sess.id);
      StopTimer(sess.serverGraceTimer);
      sess.CalmServer();
      UnmarkStaleIfDoneLocked(sess);
      OneChanged(sess);
      tab := Cancel(tab, sess.id, ServerSide);
    }

    method UnmarkStaleIfDoneLocked(sess: Session)
      modifies this`staleSessions
      ensures staleSessions == if IsStale(sess.View()) then old(staleSessions) else old(staleSessions) - {sess.id}
    {
      if !sess.clientStale && !sess.serverStale {
        staleSessions := staleSessions - {sess.id};
      }
    }

    method ClearGraceLocked(sess: Session)
      requires TableValid() && Registered(sess)
      modifies this`timers, this`tab, sess
      ensures TableValid()
      ensures sess.id in old(tab.sessions) && tab == ClearGrace(old(tab), sess.id)
    {
      hide Mirrors, Accounted, LastSeen, HubModel.StopTimer;
      MirrorsAt(sessions, tab.sessions, sessionObjs, sess.id);
      StopTimer(sess.clientGraceTimer);
      StopTimer(sess.serverGraceTimer);
      sess.Calm();
      OneChanged(sess);
      tab := ClearGrace(tab, sess.id);
    }

    static lemma MirrorsDelete(objs: map<string, Session>, abs: map<string, Sess>, repr: set<Session>, id: string)
      requires Mirrors(objs, abs, repr)
      ensures Mirrors(objs - {id}, abs - {id}, repr)
    {
    }

    static lemma MirrorsInsert(objs: map<string, Session>, abs: map<string, Sess>, repr: set<Session>, sess: Session)
      requires Mirrors(objs, abs, repr) && sess in repr
      ensures Mirrors(objs[sess.id := sess], abs[sess.id := sess.View()], repr)
    {
    }

    static lemma LastSeenInsert(departed: map<string, Departed>, id: string, d: Departed)
      ensures LastSeen(departed[id := d]) == LastSeen(departed)[id := d.sess]
    {
    }

    /** delete from sessions and staleSessions. */
    method Delete(sess: Session, ghost reason: Reason)
      requires TableValid() && Registered(sess)
      modifies this`sessions, this`staleSessions, this`tab, this`gone
      ensures TableValid()
      ensures sess.id in old(tab.sessions) && tab == Depart(old(tab), sess.id, reason)
      ensures sessions == old(sessions) - {sess.id} && gone == old(gone)[sess.id := sess]
    {
      hide Mirrors, LastSeen, Accounted;
      MirrorsAt(sessions, tab.sessions, sessionObjs, sess.id);
      MirrorsDelete(sessions, tab.sessions, sessionObjs, sess.id);
      MirrorsInsert(gone, LastSeen(tab.departed), sessionObjs, sess);
      LastSeenInsert(tab.departed, sess.id, Departed(tab.sessions[sess.id], reason));
      AccountedDelete(sessions, gone, sessionObjs, sess);
      sessions, gone := sessions - {sess.id}, gone[sess.id := sess];
      staleSessions := staleSessions - {sess.id};
      tab := Depart(tab, sess.id, reason);
    }

    /** The argmin loop of markStaleLocked, with its empty-string sentinel. */
    method OldestStale() returns (oldestID: string)
      requires staleSessions != map[] && "" !in staleSessions
      ensures IsOldest(staleSessions, oldestID)
    {
      oldestID := "";
      var oldestAt := ZERO_TIME;
      var todo := staleSessions.Keys;
      assert todo != {};
      while todo != {}
        invariant todo <= staleSessions.Keys
        invariant oldestID == "" ==> todo == staleSessions.Keys != {}
        invariant oldestID != "" ==> oldestID in staleSessions && oldestAt == staleSessions[oldestID]
        invariant oldestID != "" ==> forall k :: k in staleSessions && k !in todo ==> oldestAt <= staleSessions[k]
        decreases todo
      {
        var id :| id in todo;
        todo := todo - {id};
        var at := staleSessions[id];
        if oldestID == "" || at < oldestAt {
          oldestID, oldestAt := id, at;
        }
      }
    }

    static ghost function EvictionReason(id: string, who: string, selfIsSilent: bool): Reason {
      if selfIsSilent && who == id then EvictedItself else CapExceeded
    }

    method TrackLocked(id: string, now: int)
      requires TableValid()
      modifies this`staleSessions, this`tab
      ensures TableValid()
      ensures tab == old(tab).(stale := Track(old(tab).stale, id, now))
    {
      hide Mirrors, Accounted;
      if id !in staleSessions {
        staleSessions := staleSessions[id := now];
        tab := tab.(stale := staleSessions);
      }
    }

    method EvictLocked(oldestID: string, ghost reason: Reason) returns (victim: Session?)
      requires TableValid()
      modifies this`sessions, this`staleSessions, this`timers, this`tab, this`gone, sessionObjs
      ensures TableValid()
      ensures tab == if oldestID in old(tab).sessions then Depart(ClearGrace(old(tab), oldestID), oldestID, reason)
                     else old(tab).(stale := old(tab).stale - {oldestID})
      ensures victim != null <==> oldestID in old(tab).sessions
      ensures victim != null ==> victim.id == oldestID && oldestID in gone && gone[oldestID] == victim
    {
      hide Mirrors, Accounted;
      if oldestID !in sessions {
        if oldestID in tab.sessions {
          MirrorsAt(sessions, tab.sessions, sessionObjs, oldestID);
        }
        staleSessions := staleSessions - {oldestID};
        tab := tab.(stale := tab.stale - {oldestID});
        return null;
      }
      MirrorsAt(sessions, tab.sessions, sessionObjs, oldestID);
      victim := sessions[oldestID];
      ClearGraceLocked(victim);
      Delete(victim, reason);
    }

    /** markStaleLocked; who is the id the argmin loop settled on, if the cap was exceeded. */
    method MarkStaleLocked(sess: Session, now: int, ghost selfIsSilent: bool)
        returns (victim: Session?, ghost who: string)
      requires TableValid() && "" !in staleSessions && sess.id != ""
      modifies this`sessions, this`staleSessions, this`timers, this`tab, this`gone, sessionObjs
      ensures TableValid()
      ensures tab == TrackAndEvict(old(tab), sess.id, now, maxStaleSessions, who,
                                   EvictionReason(sess.id, who, selfIsSilent))
      ensures GoodVictim(old(tab), sess.id, now, maxStaleSessions, who)
      ensures victim != null <==> Overflows(old(tab), sess.id, now, maxStaleSessions) && who in old(tab).sessions
      ensures victim != null ==> victim.id == who && who in gone && gone[who] == victim
    {
      hide Mirrors, Accounted;
      who := "";
      TrackLocked(sess.id, now);
      if |staleSessions| <= maxStaleSessions {
        return null, who;
      }
      var oldestID := OldestStale();
      who := oldestID;
      victim := EvictLocked(oldestID, EvictionReason(sess.id, who, selfIsSilent));
    }

    /** expireClientGrace up to the teardown of the session it returns. */
    method ExpireClientGrace(sessionID: string, gen: nat) returns (victim: Session?)
      requires TableValid()
      modifies this`sessions, this`staleSessions, this`tab, this`gone
      ensures TableValid()
      ensures victim != null <==> sessionID in old(tab).sessions && old(tab).sessions[sessionID].client.stale
                                  && old(tab).sessions[sessionID].client.gen == gen
      ensures victim != null ==> victim.id == sessionID && sessionID in gone && gone[sessionID] == victim
      ensures tab == if victim != null then Depart(old(tab), sessionID, ClientGraceExpired) else old(tab)
    {
      hide Mirrors, Accounted;
      if sessionID in sessions || sessionID in tab.sessions {
        MirrorsAt(sessions, tab.sessions, sessionObjs, sessionID);
      }
      if sessionID !in sessions || !sessions[sessionID].clientStale || sessions[sessionID].clientGraceGen != gen {
        return null;
      }
      victim := sessions[sessionID];
      Delete(victim, ClientGraceExpired);
    }

    method ExpireServerGrace(sessionID: string, gen: nat) returns (victim: Session?)
      requires TableValid()
      modifies this`sessions, this`staleSessions, this`tab, this`gone
      ensures TableValid()
      ensures victim != null <==> sessionID in old(tab).sessions && old(tab).sessions[sessionID].server.stale
                                  && old(tab).sessions[sessionID].server.gen == gen
      ensures victim != null ==> victim.id == sessionID && sessionID in gone && gone[sessionID] == victim
      ensures tab == if victim != null then Depart(old(tab), sessionID, ServerGraceExpired) else old(tab)
    {
      hide Mirrors, Accounted;
      if sessionID in sessions || sessionID in tab.sessions {
        MirrorsAt(sessions, tab.sessions, sessionObjs, sessionID);
      }
      if sessionID !in sessions || !sessions[sessionID].serverStale || sessions[sessionID].serverGraceGen != gen {
        return null;
      }
      victim := sessions[sessionID];
      Delete(victim, ServerGraceExpired);
    }

    /** The runtime runs a pending callback, stopped or not. */
    method RunCallback(timer: nat) returns (victim: Session?)
      requires TableValid() && timer in timers
      modifies this`sessions, this`staleSessions, this`timers, this`tab, this`gone
      ensures TableValid()
      ensures tab == Fire(old(tab), timer)
      ensures victim != null <==> Expires(old(tab), old(timers)[timer])
      ensures victim != null ==>
                victim.id in gone && gone[victim.id] == victim && victim.id == old(timers)[timer].sessionID
    {
      hide Mirrors, Accounted;
      var cb := timers[timer];
      timers := timers - {timer};
      tab := tab.(callbacks := timers);
      if cb.side.ClientSide? {
        victim := ExpireClientGrace(cb.sessionID, cb.gen);
      } else {
        victim := ExpireServerGrace(cb.sessionID, cb.gen);
      }
    }

    /** teardownSession, run without the lock: it reads the object as it is by now. */
    method TeardownSession(sess: Session) returns (server: OnlineServer?, client: Connection?)
      requires TableValid() && sess in sessionObjs && sess.id in tab.departed
      modifies this`tab
      ensures TableValid()
      ensures sess.id in old(tab).departed && tab == Teardown(old(tab), sess.id)
      ensures server == old(tab).departed[sess.id].sess.serverConn
      ensures client == old(tab).departed[sess.id].sess.clientConn
    {
      hide Mirrors;
      KeysAgree();
      MirrorsAt(gone, LastSeen(tab.departed), sessionObjs, sess.id);
      server, client := sess.serverConn, sess.clientConn;
      tab := Teardown(tab, sess.id);
    }

    /** The cleanup loop still has to visit todo. */
    static ghost predicate SweptSoFar(start: Table, t: Table, todo: set<string>, now: int, maxAge: int) {
      && t == start.(sessions := t.sessions, departed := t.departed)
      && (forall id :: id in t.sessions ==> id in start.sessions && t.sessions[id] == start.sessions[id])
      && (forall id :: id in start.sessions ==>
            (id in t.sessions <==> id in todo || !IsAbandoned(start.sessions[id], now, maxAge)))
      && (forall id :: id in t.departed ==>
            if id in start.departed then t.departed[id] == start.departed[id]
            else id in start.sessions && id !in t.sessions && t.departed[id] == Departed(start.sessions[id], Abandoned))
      && (forall id :: id in start.departed || (id in start.sessions && id !in t.sessions) ==> id in t.departed)
    }

    static lemma SweepVisit(start: Table, t: Table, todo: set<string>, now: int, maxAge: int, id: string)
      requires SweptSoFar(start, t, todo, now, maxAge) && id in todo && id in t.sessions && id !in start.departed
      ensures if IsAbandoned(t.sessions[id], now, maxAge)
              then SweptSoFar(start, t.(sessions := t.sessions - {id},
                                        departed := t.departed[id := Departed(t.sessions[id], Abandoned)]),
                              todo - {id}, now, maxAge)
              else SweptSoFar(start, t, todo - {id}, now, maxAge)
    {
    }

    static lemma SweepDone(start: Table, t: Table, now: int, maxAge: int)
      requires SweptSoFar(start, t, {}, now, maxAge)
      requires forall id :: id in start.sessions ==> id !in start.departed
      ensures t == Sweep(start, now, maxAge)
    {
      assert t.sessions == Sweep(start, now, maxAge).sessions;
      assert t.departed == Sweep(start, now, maxAge).departed;
    }

    /** delete from sessions only: an abandoned session has no stale side, so nothing else holds it. */
    method DeleteAbandoned(sess: Session)
      requires TableValid() && Registered(sess)
      modifies this`sessions, this`tab, this`gone
      ensures TableValid()
      ensures sess.id in old(tab).sessions && sessions == old(sessions) - {sess.id}
      ensures gone.Keys == old(gone).Keys + {sess.id}
      ensures tab == old(tab).(sessions := old(tab).sessions - {sess.id},
                               departed := old(tab).departed[sess.id :=
                                 Departed(old(tab).sessions[sess.id], Abandoned)])
    {
      hide Mirrors, LastSeen, Accounted;
      MirrorsAt(sessions, tab.sessions, sessionObjs, sess.id);
      MirrorsDelete(sessions, tab.sessions, sessionObjs, sess.id);
      MirrorsInsert(gone, LastSeen(tab.departed), sessionObjs, sess);
      LastSeenInsert(tab.departed, sess.id, Departed(tab.sessions[sess.id], Abandoned));
      AccountedDelete(sessions, gone, sessionObjs, sess);
      tab := tab.(sessions := tab.sessions - {sess.id},
                  departed := tab.departed[sess.id := Departed(tab.sessions[sess.id], Abandoned)]);
      sessions := sessions - {sess.id};
      gone := gone[sess.id := sess];
    }

    method SweepAbandoned(maxAge: int, now: int)
      requires TableValid()
      modifies this`sessions, this`tab, this`gone
      ensures TableValid()
      ensures tab == Sweep(old(tab), now, maxAge)
    {
      hide Mirrors, SweptSoFar;
      ghost var start := tab;
      KeysAgree();
      SweepBegins(start, now, maxAge);
      var todo := sessions.Keys;
      while todo != {}
        invariant TableValid()
        invariant todo <= sessions.Keys
        invariant todo !! start.departed.Keys
        invariant SweptSoFar(start, tab, todo, now, maxAge)
        decreases todo
      {
        var id :| id in todo;
        MirrorsAt(sessions, tab.sessions, sessionObjs, id);
        SweepVisit(start, tab, todo, now, maxAge, id);
        todo := todo - {id};
        var sess := sessions[id];
        if now - sess.createdAt > maxAge && sess.clientConn == null && !sess.clientStale && !sess.serverStale {
          DeleteAbandoned(sess);
        }
      }
      SweepDone(start, tab, now, maxAge);
    }

    lemma KeysAgree()
      requires TableValid()
      ensures sessions.Keys == tab.sessions.Keys && gone.Keys == tab.departed.Keys
      ensures forall id :: id in tab.sessions ==> id !in tab.departed
    {
      assert forall id :: id in LastSeen(tab.departed) <==> id in tab.departed;
    }

    static lemma SweepBegins(t: Table, now: int, maxAge: int)
      requires forall id :: id in t.sessions ==> id !in t.departed
      ensures SweptSoFar(t, t, t.sessions.Keys, now, maxAge)
    {
    }

    // --- Loops over the sessions of one device ---

    static lemma TheDeviceSession(t: Table, deviceID: string, id: string)
      requires Inv.OneSessionPerDevice(t) && id in t.sessions
      ensures t.sessions[id].deviceID == deviceID <==> DeviceSession(t, deviceID) == Some(id)
    {
      assert t.sessions[id].deviceID == deviceID ==> ForDevice(t, id, deviceID);
    }

    lemma DevicesAgree()
      requires TableValid()
      ensures forall id :: id in sessions <==> id in tab.sessions
      ensures forall id :: id in sessions ==>
                && sessions[id].deviceID == tab.sessions[id].deviceID
                && sessions[id].ownerUserID == tab.sessions[id].ownerUserID
    {
    }

    method HasForeignSession(deviceID: string, userID: string) returns (foreign: bool)
      requires TableValid()
      ensures foreign <==> exists id :: id in tab.sessions && tab.sessions[id].deviceID == deviceID
                                        && tab.sessions[id].ownerUserID != userID
    {
      DevicesAgree();
      var todo := sessions.Keys;
      while todo != {}
        invariant forall id :: id in sessions && id !in todo ==>
                    !(sessions[id].deviceID == deviceID && sessions[id].ownerUserID != userID)
        invariant todo <= sessions.Keys
        decreases todo
      {
        var id :| id in todo;
        todo := todo - {id};
        if sessions[id].deviceID == deviceID && sessions[id].ownerUserID != userID {
          return true;
        }
      }
      return false;
    }

    /** The busy check of CreateSession and CreateGuestSession. */
    method HasSession(deviceID: string) returns (busy: bool)
      requires TableValid()
      ensures busy <==> DeviceSession(tab, deviceID).Some?
    {
      DevicesAgree();
      var todo := sessions.Keys;
      while todo != {}
        invariant forall id :: id in sessions && id !in todo ==> sessions[id].deviceID != deviceID
        invariant todo <= sessions.Keys
        decreases todo
      {
        var id :| id in todo;
        todo := todo - {id};
        if sessions[id].deviceID == deviceID {
          assert ForDevice(tab, id, deviceID);
          return true;
        }
      }
      return false;
    }

    method BindServerLocked(sess: Session, server: OnlineServer)
      requires TableValid() && Registered(sess)
      modifies this`timers, this`staleSessions, this`tab, sess
      ensures TableValid()
      ensures sess.id in old(tab).sessions && tab == BindServer(old(tab), sess.id, server)
    {
      hide Mirrors, Accounted;
      MirrorsAt(sessions, tab.sessions, sessionObjs, sess.id);
      sess.serverConn := server;
      OneChanged(sess);
      tab := tab.(sessions := tab.sessions[sess.id := tab.sessions[sess.id].(serverConn := server)]);
      if sess.serverStale {
        CancelServerGraceLocked(sess);
      }
    }

    /** The second session loop of AddServer; returns the sessions to announce, each with the client
        connection it has at this moment. */
    method RebindSessions(server: OnlineServer) returns (resumed: seq<(Session, Connection?)>)
      requires TableValid() && Inv.OneSessionPerDevice(tab)
      modifies this`timers, this`staleSessions, this`tab, sessionObjs
      ensures TableValid()
      ensures tab == BindDevice(old(tab), server)
      ensures match DeviceSession(old(tab), server.deviceID)
              case None => resumed == []
              case Some(id) => id in sessions && resumed == [(sessions[id], tab.sessions[id].clientConn)]
    {
      hide Mirrors, TableValid, BindServer, BindDevice;
      ghost var start := tab;
      ghost var found := DeviceSession(start, server.deviceID);
      DevicesAgree();
      resumed := [];
      var todo := sessions.Keys;
      while todo != {}
        invariant TableValid()
        invariant todo <= sessions.Keys
        invariant found.Some? ==> found.value in sessions
        invariant forall id :: id in sessions ==>
                    id in start.sessions && sessions[id].deviceID == start.sessions[id].deviceID
        invariant tab == if found.Some? && found.value !in todo then BindServer(start, found.value, server) else start
        invariant resumed == if found.Some? && found.value !in todo
                             then [(sessions[found.value], ClientOf(tab, found.value))]
                             else []
        decreases todo
      {
        var id :| id in todo;
        TheDeviceSession(start, server.deviceID, id);
        todo := todo - {id};
        var sess := sessions[id];
        if sess.deviceID == server.deviceID {
          IsRegisteredObject(id);
          BindServerLocked(sess, server);
          ClientAgrees(sess);
          resumed := resumed + [(sess, sess.clientConn)];
        }
      }
      BindDeviceCases(start, server);
    }

    static ghost function ClientOf(t: Table, id: string): Connection? {
      if id in t.sessions then t.sessions[id].clientConn else null
    }

    lemma IsRegisteredObject(id: string)
      requires TableValid() && id in sessions
      ensures Registered(sessions[id]) && sessions[id] in sessionObjs && sessions[id].id == id
    {
    }

    lemma ClientAgrees(sess: Session)
      requires TableValid() && Registered(sess)
      ensures sess.clientConn == ClientOf(tab, sess.id) && sess.id in tab.sessions
    {
    }

    static lemma BindDeviceCases(t: Table, server: OnlineServer)
      ensures match DeviceSession(t, server.deviceID)
              case None => BindDevice(t, server) == t
              case Some(id) => id in t.sessions && BindDevice(t, server) == BindServer(t, id, server)
                               && id in BindServer(t, id, server).sessions
    {
    }

    /** removeDeviceSessionsLocked without the cleanup of guests and rooms. */
    method RemoveDeviceSessions(deviceID: string) returns (removed: seq<Session>)
      requires TableValid() && Inv.OneSessionPerDevice(tab)
      modifies this`sessions, this`timers, this`staleSessions, this`tab, this`gone, sessionObjs
      ensures TableValid()
      ensures tab == RemoveDevice(old(tab), deviceID)
      ensures match DeviceSession(old(tab), deviceID)
              case None => removed == []
              case Some(id) => id in gone && removed == [gone[id]]
    {
      hide Mirrors, TableValid, Depart, RemoveDevice;
      ghost var start := tab;
      ghost var found := DeviceSession(start, deviceID);
      DevicesAgree();
      removed := [];
      var todo := sessions.Keys;
      while todo != {}
        invariant TableValid()
        invariant todo <= sessions.Keys
        invariant found.Some? ==> found.value in start.sessions && (found.value in todo <==> removed == [])
        invariant found.None? ==> removed == []
        invariant forall id :: id in sessions ==>
                    id in start.sessions && sessions[id].deviceID == start.sessions[id].deviceID
        invariant removed == [] ==> tab == start
        invariant removed != [] ==> tab == Depart(ClearGrace(start, found.value), found.value, DeviceRemoved)
        invariant removed != [] ==> found.value in gone && removed == [gone[found.value]]
        decreases todo
      {
        var id :| id in todo;
        TheDeviceSession(start, deviceID, id);
        todo := todo - {id};
        var sess := sessions[id];
        if sess.deviceID == deviceID {
          IsRegisteredObject(id);
          RemoveLocked(sess, DeviceRemoved);
          removed := removed + [sess];
        }
      }
      RemoveDeviceCases(start, deviceID);
    }

    /** clearGraceLocked, then delete from both maps. */
    method RemoveLocked(sess: Session, ghost reason: Reason)
      requires TableValid() && Registered(sess)
      modifies this`sessions, this`timers, this`staleSessions, this`tab, this`gone, sess
      ensures TableValid()
      ensures sess.id in old(tab).sessions && tab == Depart(ClearGrace(old(tab), sess.id), sess.id, reason)
      ensures sessions == old(sessions) - {sess.id} && gone == old(gone)[sess.id := sess]
    {
      hide Mirrors, Accounted;
      ClearGraceLocked(sess);
      Delete(sess, reason);
    }

    static lemma RemoveDeviceCases(t: Table, deviceID: string)
      ensures match DeviceSession(t, deviceID)
              case None => RemoveDevice(t, deviceID) == t
              case Some(id) => && id in t.sessions
                               && RemoveDevice(t, deviceID) == Depart(ClearGrace(t, id), id, DeviceRemoved)
    {
    }

    /** markServerStaleLocked. */
    method MarkServerStaleLocked(sess: Session, now: int) returns (victim: Session?, ghost who: string)
      requires TableValid() && Registered(sess) && "" !in staleSessions && sess.id != ""
      modifies this`sessions, this`timers, this`nextTimer, this`staleSessions, this`tab, this`gone, sessionObjs
      ensures TableValid()
      ensures sess.id in old(tab).sessions
      ensures tab == MarkStale(old(tab), sess.id, ServerSide, now, sessionGrace, maxStaleSessions, who, CapExceeded)
      ensures GoodVictim(old(tab), sess.id, now, maxStaleSessions, who)
      ensures victim != null <==> Overflows(old(tab), sess.id, now, maxStaleSessions) && who in old(tab).sessions
      ensures victim != null ==> who in gone && gone[who] == victim
    {
      hide Mirrors, Accounted;
      MirrorsAt(sessions, tab.sessions, sessionObjs, sess.id);
      MarkServerSide(sess, now);
      victim, who := MarkStaleLocked(sess, now, false);
    }

    static lemma MarkDevicesAgree(t: Table, id: string, now: int, grace: int, cap: nat, who: string)
      requires id in t.sessions
      ensures var u := MarkStale(t, id, ServerSide, now, grace, cap, who, CapExceeded);
              forall k :: k in u.sessions ==> k in t.sessions && u.sessions[k].deviceID == t.sessions[k].deviceID
    {
      Inv.MarkStaleSessions(t, id, ServerSide, now, grace, cap, who, CapExceeded);
    }

    static ghost predicate Evicted(start: Table, id: string, now: int, cap: nat, who: string,
                                   evicted: seq<Session>, gone: map<string, Session>) {
      && GoodVictim(start, id, now, cap, who)
      && if Overflows(start, id, now, cap) && who in start.sessions
         then who in gone && evicted == [gone[who]]
         else evicted == []
    }

    /** The session loop of markDeviceSessionsStaleLocked. An eviction may delete from the map that is
        being iterated; deleted entries are not visited. */
    method MarkDeviceSessionsStale(deviceID: string, now: int) returns (evicted: seq<Session>, ghost who: string)
      requires TableValid() && Inv.OneSessionPerDevice(tab) && "" !in staleSessions && "" !in sessions
      modifies this`sessions, this`timers, this`nextTimer, this`staleSessions, this`tab, this`gone, sessionObjs
      ensures TableValid()
      ensures tab == MarkDevice(old(tab), deviceID, now, sessionGrace, maxStaleSessions, who)
      ensures match DeviceSession(old(tab), deviceID)
              case None => evicted == []
              case Some(id) => Evicted(old(tab), id, now, maxStaleSessions, who, evicted, gone)
    {
      hide Mirrors, TableValid, MarkStale, GoodVictim, Overflows, MarkDevice;
      ghost var start := tab;
      ghost var found := DeviceSession(start, deviceID);
      ghost var marked := false;
      DevicesAgree();
      evicted, who := [], "";
      var todo := sessions.Keys;
      while todo != {}
        invariant TableValid()
        invariant found.Some? ==> found.value in start.sessions && (found.value in todo <==> !marked)
        invariant found.None? ==> !marked
        invariant !marked ==> todo <= sessions.Keys && tab == start && evicted == []
        invariant !marked ==> "" !in staleSessions && "" !in sessions
        invariant forall id :: id in sessions ==>
                    id in start.sessions && sessions[id].deviceID == start.sessions[id].deviceID
        invariant marked ==> tab == MarkStale(start, found.value, ServerSide, now, sessionGrace, maxStaleSessions,
                                              who, CapExceeded)
        invariant marked ==> Evicted(start, found.value, now, maxStaleSessions, who, evicted, gone)
        decreases todo
      {
        var id :| id in todo;
        todo := todo - {id};
        if id in sessions {
          TheDeviceSession(start, deviceID, id);
          var sess := sessions[id];
          if sess.deviceID == deviceID {
            IsRegisteredObject(id);
            marked := true;
            var victim;
            victim, who := MarkServerStaleLocked(sess, now);
            if victim != null {
              evicted := evicted + [victim];
            }
            MarkDevicesAgree(start, id, now, sessionGrace, maxStaleSessions, who);
            DevicesAgree();
          }
        }
      }
      MarkDeviceCases(start, deviceID, now, sessionGrace, maxStaleSessions, who);
    }

    static lemma MarkDeviceCases(t: Table, deviceID: string, now: int, grace: int, cap: nat, who: string)
      ensures match DeviceSession(t, deviceID)
              case None => MarkDevice(t, deviceID, now, grace, cap, who) == t
              case Some(id) => && id in t.sessions
                               && MarkDevice(t, deviceID, now, grace, cap, who)
                                  == MarkStale(t, id, ServerSide, now, grace, cap, who, CapExceeded)
    {
    }

    // --- Servers, guests and rooms ---

    /** What the registry knows of a room. */
    static ghost function RefOf(room: Room): RoomRef
      reads room`serverConn, room`serverGen, room`closed
    {
      RoomRef(room.deviceID, room.ownerUserID, room.ServerRoute(), room.closed)
    }

    static ghost predicate Shows(room: Room, id: string, ref: RoomRef)
      reads room`serverConn, room`serverGen, room`closed
    {
      room.id == id && RefOf(room) == ref
    }

    static ghost predicate MirrorsRooms(objs: map<string, Room>, abs: map<string, RoomRef>, repr: set<Room>)
      reads repr`serverConn, repr`serverGen, repr`closed
    {
      && (forall id :: id in objs <==> id in abs)
      && (forall id :: id in objs ==> objs[id] in repr && Shows(objs[id], id, abs[id]))
    }

    /** Every room this hub ever made is valid, within its capacity and with roles and input as they
        should be, and no two of them share an admission. */
    static ghost predicate RoomsValid(repr: set<Room>)
      reads repr`admissions, repr`clients, repr`seats, repr`Repr, set r, o | r in repr && o in r.Repr :: o
    {
      && (forall r :: r in repr ==> r.Valid() && RoomModel.SeatsOk(r.seats))
      && (forall r, s :: r in repr && s in repr && r != s ==> r.Repr !! s.Repr)
    }

    /** The rooms stay valid under any call that keeps one of them valid and writes to nothing of the others. */
    twostate lemma OthersStayValid(room: Room)
      requires old(RoomsValid(roomObjs)) && roomObjs == old(roomObjs) && room in roomObjs
      requires room.Valid() && RoomModel.SeatsOk(room.seats) && fresh(room.Repr - old(room.Repr))
      requires forall r | r in roomObjs && r != room :: unchanged(r)
      requires forall r, o | r in roomObjs && r != room && o in old(r.Repr) && o !in old(room.Repr) :: unchanged(o)
      ensures RoomsValid(roomObjs)
    {
    }

    /** The device's room, if it has one. */
    ghost function RoomOf(deviceID: string): set<Room>
      reads this`serverRooms, this`rooms
    {
      if deviceID in serverRooms && serverRooms[deviceID] in rooms then {rooms[serverRooms[deviceID]]} else {}
    }

    /** The connections that the device's room would have to kick. */
    ghost function AttachedTo(deviceID: string): map<string, Connection>
      reads this`serverRooms, this`rooms, RoomOf(deviceID)`seats
    {
      if deviceID in serverRooms && serverRooms[deviceID] in rooms
      then RoomModel.AttachedConns(rooms[serverRooms[deviceID]].seats)
      else map[]
    }

    /** issued are all servers this hub ever made; the closed ones among them are known. */
    static ghost predicate TracksServers(servers: map<string, OnlineServer>, closed: set<OnlineServer>,
                                         issued: set<OnlineServer>)
      reads issued`done
    {
      && (forall d :: d in servers ==> servers[d] in issued)
      && closed <= issued
      && (forall x :: x in issued ==> (x.done <==> x in closed))
    }

    ghost predicate RegValid()
      reads this`onlineServers, this`guestDevices, this`rooms, this`serverRooms, this`serverGen, this`reg,
            this`roomObjs, this`issued, roomObjs`serverConn, roomObjs`serverGen, roomObjs`closed, issued`done
    {
      && onlineServers == reg.servers && guestDevices == reg.guests
      && serverRooms == reg.serverRooms && serverGen == reg.serverGen
      && MirrorsRooms(rooms, reg.rooms, roomObjs)
      && TracksServers(reg.servers, reg.closedServers, issued)
    }

    static lemma RoomAt(objs: map<string, Room>, abs: map<string, RoomRef>, repr: set<Room>, id: string)
      requires MirrorsRooms(objs, abs, repr)
      ensures id in objs <==> id in abs
      ensures id in objs ==> objs[id] in repr && Shows(objs[id], id, abs[id])
    {
    }

    twostate lemma OneRoomChanged(room: Room)
      requires old(RegValid()) && room.id in rooms && rooms[room.id] == room
      requires rooms == old(rooms) && roomObjs == old(roomObjs) && reg == old(reg)
      requires forall o | o in roomObjs && o != room :: unchanged(o)
      ensures room.id in reg.rooms
      ensures MirrorsRooms(rooms, reg.rooms[room.id := RefOf(room)], roomObjs)
    {
    }

    /** A room that is no longer registered may change freely. */
    twostate lemma OneRoomLeaves(room: Room)
      requires old(RegValid()) && room.id in old(rooms) && old(rooms)[room.id] == room
      requires rooms == old(rooms) && roomObjs == old(roomObjs) && reg == old(reg)
      requires forall o | o in roomObjs && o != room :: unchanged(o)
      ensures MirrorsRooms(rooms - {room.id}, reg.rooms - {room.id}, roomObjs)
    {
    }

    twostate lemma OneServerClosed(server: OnlineServer)
      requires old(RegValid()) && server in issued && server.done
      requires issued == old(issued) && reg == old(reg)
      requires forall o | o in issued && o != server :: unchanged(o)
      ensures TracksServers(reg.servers, reg.closedServers + {server}, issued)
    {
    }

    method CloseServer(server: OnlineServer)
      requires RegValid() && server in issued
      modifies this`reg, server
      ensures RegValid() && server.done
      ensures reg == old(reg).(closedServers := old(reg).closedServers + {server})
    {
      hide MirrorsRooms, TracksServers;
      server.Close();
      OneServerClosed(server);
      reg := reg.(closedServers := reg.closedServers + {server});
    }

    /** The new server under its device, before the old one is closed. */
    method IssueServer(deviceID: string, userID: string) returns (server: OnlineServer)
      requires RegValid()
      modifies this`serverGen, this`onlineServers, this`issued, this`reg
      ensures RegValid() && fresh(server) && issued == old(issued) + {server}
      ensures server.deviceID == deviceID && server.userID == userID && server.generation == old(reg).serverGen + 1
      ensures reg == old(reg).(serverGen := old(reg).serverGen + 1, servers := old(reg).servers[deviceID := server])
    {
      hide MirrorsRooms;
      serverGen := serverGen + 1;
      server := new OnlineServer(deviceID, userID, serverGen);
      onlineServers := onlineServers[deviceID := server];
      issued := issued + {server};
      reg := reg.(serverGen := serverGen, servers := onlineServers);
    }

    method RebindRoom(server: OnlineServer)
      requires RegValid()
      modifies this`reg, RoomOf(server.deviceID)`serverConn, RoomOf(server.deviceID)`serverGen
      ensures RegValid()
      ensures reg == old(reg).(rooms := ReboundRooms(old(reg), server))
    {
      hide MirrorsRooms, TracksServers;
      if server.deviceID in serverRooms {
        var roomID := serverRooms[server.deviceID];
        RoomAt(rooms, reg.rooms, roomObjs, roomID);
        if roomID in rooms {
          var room := rooms[roomID];
          var rebound := room.RebindServer(server);
          OneRoomChanged(room);
          reg := reg.(rooms := ReboundRooms(reg, server));
        }
      }
    }

    lemma IssuedAt(deviceID: string)
      requires RegValid() && deviceID in onlineServers
      ensures onlineServers[deviceID] in issued && onlineServers[deviceID] == reg.servers[deviceID]
    {
    }

    /** The part of AddServer between the ownership checks and the session loop. */
    method RegisterLocked(deviceID: string, userID: string) returns (server: OnlineServer)
      requires RegValid()
      modifies this`serverGen, this`onlineServers, this`issued, this`reg, issued
      modifies RoomOf(deviceID)`serverConn, RoomOf(deviceID)`serverGen
      ensures RegValid() && fresh(server) && issued == old(issued) + {server}
      ensures server.deviceID == deviceID && server.userID == userID && server.generation == old(reg).serverGen + 1
      ensures reg == RegisterServer(old(reg), server)
      ensures deviceID in old(onlineServers) ==> old(onlineServers)[deviceID].done
    {
      hide RegValid;
      RegFields();
      var previous := if deviceID in onlineServers then onlineServers[deviceID] else null;
      if previous != null {
        IssuedAt(deviceID);
      }
      server := IssueServer(deviceID, userID);
      if previous != null {
        CloseServer(previous);
      }
      RebindRoom(server);
    }

    lemma RegFields()
      requires RegValid()
      ensures onlineServers == reg.servers && guestDevices == reg.guests
      ensures serverRooms == reg.serverRooms && serverGen == reg.serverGen
      ensures rooms.Keys == reg.rooms.Keys
    {
    }

    static ghost function WithoutGuests(r: Registry, deviceID: string): Registry {
      r.(guests := map k | k in r.guests && r.guests[k].deviceID != deviceID :: r.guests[k])
    }

    method RemoveGuests(deviceID: string)
      requires RegValid()
      modifies this`guestDevices, this`reg
      ensures RegValid()
      ensures reg == WithoutGuests(old(reg), deviceID)
    {
      hide MirrorsRooms, TracksServers;
      ghost var start := guestDevices;
      var todo := guestDevices.Keys;
      while todo != {}
        invariant todo <= guestDevices.Keys && reg == old(reg)
        invariant guestDevices == map k | k in start && (k in todo || start[k].deviceID != deviceID) :: start[k]
        decreases todo
      {
        var id :| id in todo;
        todo := todo - {id};
        if guestDevices[id].deviceID == deviceID {
          guestDevices := guestDevices - {id};
        }
      }
      reg := reg.(guests := guestDevices);
    }

    static ghost predicate EmptiedAndClosed(doomed: set<Room>)
      reads doomed
    {
      forall room :: room in doomed ==> room.closed && room.clients == map[] && room.admissions == map[]
    }

    static lemma NoneEmptied()
      ensures EmptiedAndClosed({})
    {
    }

    /** CloseAllClients up to its sends, on a room that is leaving. */
    method EmptyRoom(room: Room) returns (kicked: map<string, Connection>)
      requires RoomsValid(roomObjs) && room in roomObjs
      modifies room`closed, room`clients, room`admissions, room`seats
      ensures RoomsValid(roomObjs) && EmptiedAndClosed({room})
      ensures kicked == RoomModel.AttachedConns(old(room.seats))
    {
      kicked := room.CloseAllClients();
      OthersStayValid(room);
    }

    ghost function RoomUnder(roomID: string): set<Room>
      reads this`rooms
    {
      if roomID in rooms then {rooms[roomID]} else {}
    }

    /** delete from rooms. */
    method DropRoom(roomID: string)
      requires MirrorsRooms(rooms - {roomID}, reg.rooms - {roomID}, roomObjs)
      requires TracksServers(reg.servers, reg.closedServers, issued)
      requires onlineServers == reg.servers && guestDevices == reg.guests
      requires serverRooms == reg.serverRooms && serverGen == reg.serverGen
      modifies this`rooms, this`reg
      ensures RegValid() && rooms == old(rooms) - {roomID}
      ensures reg == old(reg).(rooms := old(reg).rooms - {roomID})
    {
      hide MirrorsRooms, TracksServers;
      rooms := rooms - {roomID};
      reg := reg.(rooms := reg.rooms - {roomID});
    }

    /** CloseAllClients on a registered room, and its removal from rooms. */
    method ExpelRoom(roomID: string) returns (kicked: map<string, Connection>)
      requires RegValid() && RoomsValid(roomObjs) && roomID in rooms
      modifies this`rooms, this`reg
      modifies RoomUnder(roomID)`closed, RoomUnder(roomID)`clients
      modifies RoomUnder(roomID)`admissions, RoomUnder(roomID)`seats
      ensures RegValid() && RoomsValid(roomObjs) && rooms == old(rooms) - {roomID}
      ensures reg == old(reg).(rooms := old(reg).rooms - {roomID})
      ensures kicked == RoomModel.AttachedConns(old(rooms[roomID].seats)) && EmptiedAndClosed({old(rooms)[roomID]})
    {
      hide MirrorsRooms, TracksServers, RoomsValid, EmptiedAndClosed, RoomModel.AttachedConns;
      RoomAt(rooms, reg.rooms, roomObjs, roomID);
      var room := rooms[roomID];
      kicked := EmptyRoom(room);
      OneRoomLeaves(room);
      DropRoom(roomID);
    }

    /** The room half of cleanupDeviceGuestsAndRoomsLocked. */
    method DestroyRoom(deviceID: string) returns (kicked: map<string, Connection>)
      requires RegValid() && RoomsValid(roomObjs)
      modifies this`rooms, this`serverRooms, this`reg
      modifies RoomOf(deviceID)`closed, RoomOf(deviceID)`clients, RoomOf(deviceID)`admissions, RoomOf(deviceID)`seats
      ensures RegValid() && RoomsValid(roomObjs)
      ensures reg == WithoutRoom(old(reg), deviceID)
      ensures rooms == old(rooms) - RoomIDs(old(serverRooms), deviceID)
      ensures kicked == old(AttachedTo(deviceID)) && EmptiedAndClosed(old(RoomOf(deviceID)))
    {
      hide RegValid, RoomsValid;
      RegFields();
      kicked := map[];
      if deviceID in serverRooms {
        var roomID := serverRooms[deviceID];
        if roomID in rooms {
          kicked := ExpelRoom(roomID);
        }
        ForgetRoom(deviceID);
      }
    }

    method ForgetRoom(deviceID: string)
      requires RegValid()
      modifies this`serverRooms, this`reg
      ensures RegValid() && reg == old(reg).(serverRooms := old(reg).serverRooms - {deviceID})
    {
      hide MirrorsRooms, TracksServers;
      serverRooms := serverRooms - {deviceID};
      reg := reg.(serverRooms := serverRooms);
    }

    static ghost function RoomIDs(serverRooms: map<string, string>, deviceID: string): set<string> {
      if deviceID in serverRooms then {serverRooms[deviceID]} else {}
    }

    static ghost function WithoutRoom(r: Registry, deviceID: string): Registry {
      r.(rooms := r.rooms - RoomIDs(r.serverRooms, deviceID), serverRooms := r.serverRooms - {deviceID})
    }

    static lemma CleanupParts(r: Registry, deviceID: string)
      ensures CleanupDevice(r, deviceID) == WithoutRoom(WithoutGuests(r, deviceID), deviceID)
    {
    }

    method CleanupDeviceGuestsAndRoomsLocked(deviceID: string) returns (kicked: map<string, Connection>)
      requires RegValid() && RoomsValid(roomObjs)
      modifies this`guestDevices, this`rooms, this`serverRooms, this`reg
      modifies RoomOf(deviceID)`closed, RoomOf(deviceID)`clients, RoomOf(deviceID)`admissions, RoomOf(deviceID)`seats
      ensures RegValid() && RoomsValid(roomObjs)
      ensures reg == CleanupDevice(old(reg), deviceID)
      ensures rooms == old(rooms) - RoomIDs(old(serverRooms), deviceID)
      ensures kicked == old(AttachedTo(deviceID)) && EmptiedAndClosed(old(RoomOf(deviceID)))
    {
      hide RegValid, RoomsValid, WithoutRoom, WithoutGuests, CleanupDevice;
      RegFields();
      CleanupParts(reg, deviceID);
      RemoveGuests(deviceID);
      kicked := DestroyRoom(deviceID);
    }

    // --- The hub ---

    ghost function State(): State
      reads this`reg, this`tab, this`clock
    {
      HubModel.State.State(reg, tab, sessionGrace, maxStaleSessions, clock)
    }

    ghost predicate Valid()
      reads this, sessionObjs, roomObjs, issued, set r, o | r in roomObjs && o in r.Repr :: o
    {
      TableValid() && RegValid() && RoomsValid(roomObjs) && Inv.Inv(State())
    }

    /** Who is attached where. */
    ghost function Seating(): map<string, map<string, Connection>>
      reads this`rooms, rooms.Values`seats
    {
      map id | id in rooms :: RoomModel.AttachedConns(rooms[id].seats)
    }

    lemma SeatingAt()
      ensures Seating().Keys == rooms.Keys
      ensures forall id :: id in rooms ==> Seating()[id] == RoomModel.AttachedConns(rooms[id].seats)
    {
    }

    lemma NoRooms()
      requires RegValid() && reg.rooms == map[]
      ensures rooms == map[] && Seating() == map[]
    {
    }

    twostate lemma SeatingKept()
      requires rooms == old(rooms) && KeepsRooms()
      ensures Seating() == old(Seating())
    {
      hide RoomModel.AttachedConns;
      assert forall id :: id in rooms ==> rooms[id].View() == old(rooms[id].View());
    }

    /** Only in this room may anybody have been seated or unseated. */
    twostate predicate Reseats(room: Room)
      reads this`rooms, rooms.Values`seats, room`seats
    {
      && rooms == old(rooms)
      && Seating() == if room.id in rooms && rooms[room.id] == room
                      then old(Seating())[room.id := RoomModel.AttachedConns(room.seats)]
                      else old(Seating())
    }

    /** What room calls, and sweeps, are free to do: they never break the hub, nor change its state. */
    twostate lemma RoomCallKeepsValid(room: Room)
      requires old(Valid()) && room in old(roomObjs)
      requires room.Valid() && RoomModel.SeatsOk(room.seats) && fresh(room.Repr - old(room.Repr))
      requires unchanged(this) && unchanged(room`serverConn, room`serverGen, room`closed)
      requires forall x | x in sessionObjs :: unchanged(x)
      requires forall x | x in issued :: unchanged(x)
      requires forall r | r in roomObjs && r != room :: unchanged(r)
      requires forall r, o | r in roomObjs && r != room && o in old(r.Repr) && o !in old(room.Repr) :: unchanged(o)
      ensures Valid() && State() == old(State())
    {
      OthersStayValid(room);
    }

    twostate lemma NobodyElseMoves(room: Room)
      requires rooms == old(rooms) && roomObjs == old(roomObjs)
      requires forall id :: id in rooms ==> rooms[id].id == id && rooms[id] in roomObjs
      requires forall r | r in roomObjs && r != room :: unchanged(r)
      ensures Reseats(room)
    {
      hide RoomModel.AttachedConns;
    }

    /** A registered room is the room of its device, which is online. */
    lemma RoomIsItsDevices(id: string)
      requires Valid() && id in rooms
      ensures InRoom(State(), rooms[id].deviceID) && serverRooms[rooms[id].deviceID] == id
    {
      hide TableValid, RoomsValid;
      RoomAt(rooms, reg.rooms, roomObjs, id);
      Inv.InvParts(State());
      hide Inv.Inv, MirrorsRooms;
      assert Inv.RoomOk(reg, id);
    }

    lemma ItsInv()
      requires Valid()
      ensures Inv.Inv(State())
    {
    }

    /** What a session object holds is what the state says of it, field by field. */
    lemma SessionsShowState(id: string)
      requires Valid()
      ensures id in sessions <==> id in State().tab.sessions
      ensures id in sessions ==>
                var o, x := sessions[id], State().tab.sessions[id];
                && o.id == id && o.userID == x.userID && o.ownerUserID == x.ownerUserID && o.deviceID == x.deviceID
                && o.createdAt == x.createdAt && o.serverConn == x.serverConn && o.clientConn == x.clientConn
                && o.clientStale == x.client.stale && o.clientGraceGen == x.client.gen
                && o.clientGraceTimer == x.client.timer
                && o.serverStale == x.server.stale && o.serverGraceGen == x.server.gen
                && o.serverGraceTimer == x.server.timer
      ensures staleSessions == State().tab.stale && timers == State().tab.callbacks
    {
      hide RegValid, RoomsValid, Inv.Inv;
      if id in sessions || id in tab.sessions {
        MirrorsAt(sessions, tab.sessions, sessionObjs, id);
      }
    }

    lemma RegistryShowsState()
      requires Valid()
      ensures onlineServers == State().reg.servers && guestDevices == State().reg.guests
      ensures serverRooms == State().reg.serverRooms && serverGen == State().reg.serverGen
      ensures rooms.Keys == State().reg.rooms.Keys
      ensures forall id :: id in rooms ==>
                var o, x := rooms[id], State().reg.rooms[id];
                && o.id == id && o.deviceID == x.deviceID && o.ownerUserID == x.ownerUserID && o.closed == x.closed
                && o.serverConn == x.route.server && o.serverGen == x.route.gen
      ensures forall x :: x in issued ==> (x.done <==> x in State().reg.closedServers)
    {
      hide TableValid, RoomsValid, Inv.Inv;
      assert forall id :: id in rooms ==> Shows(rooms[id], id, reg.rooms[id]);
    }

    lemma RegisteredRooms()
      requires Valid()
      ensures forall id :: id in rooms ==> rooms[id] in roomObjs && rooms[id].id == id && rooms[id].Valid()
      ensures forall id :: id in rooms ==> RoomModel.Inv(rooms[id].View())
    {
    }

    /** A registered room whose registration survives a hub call is the same object, with the same seats. */
    twostate predicate KeepsRooms()
      reads this`rooms, rooms.Values`closed, rooms.Values`seats
    {
      forall id :: id in rooms && id in old(rooms) ==>
        rooms[id] == old(rooms[id]) && rooms[id].View() == old(rooms[id].View())
    }

    /** The end of a critical section at e.now: the clock moves on, and the step has kept every invariant. */
    ghost method Commit(before: State, e: Event)
      requires TableValid() && RegValid() && RoomsValid(roomObjs) && Inv.Inv(before)
      requires Steps(before, e, State().(now := e.now))
      modifies this`clock
      ensures Valid() && State() == old(State()).(now := e.now)
    {
      hide TableValid, RegValid, RoomsValid, Inv.Inv, Steps;
      Runs.StepInv(before, e, State().(now := e.now));
      clock := e.now;
    }

    /** NewDeviceHubWithGrace. */
    constructor (grace: int, maxStaleSessions: int, now: int)
      ensures Valid() && Runs.Starts(State()) && clock == now
      ensures sessionGrace == (if grace <= 0 then DEFAULT_SESSION_GRACE else grace)
      ensures this.maxStaleSessions == (if maxStaleSessions <= 0 then DEFAULT_MAX_STALE_SESSIONS else maxStaleSessions)
      ensures sessionObjs == {} && roomObjs == {} && issued == {}
    {
      sessionGrace := if grace <= 0 then DEFAULT_SESSION_GRACE else grace;
      this.maxStaleSessions := if maxStaleSessions <= 0 then DEFAULT_MAX_STALE_SESSIONS else maxStaleSessions;
      onlineServers, guestDevices, sessions, rooms, serverRooms := map[], map[], map[], map[], map[];
      serverGen, staleSessions, timers, nextTimer := 0, map[], map[], 0;
      clock, gone, sessionObjs, roomObjs, issued := now, map[], {}, {}, {};
      tab := Table(map[], map[], map[], 0, map[], multiset{}, multiset{});
      reg := Registry(map[], map[], map[], map[], 0, {});
      new;
      Runs.StartInv(State());
    }

    static lemma InvFacts(s: State)
      requires Inv.Inv(s)
      ensures Inv.OneSessionPerDevice(s.tab)
      ensures "" !in s.tab.sessions && "" !in s.tab.stale
    {
    }

    /** The ids of sessions handed back for teardown. */
    static ghost function Ids(handed: seq<Session>): multiset<string> {
      if handed == [] then multiset{} else multiset{handed[0].id} + Ids(handed[1..])
    }

    /** The sessions handed back are departed objects, and theirs are the teardowns this step owes. */
    static ghost predicate HandsBack(handed: seq<Session>, repr: set<Session>, before: Table, after: Table) {
      && (forall i :: 0 <= i < |handed| ==> handed[i] in repr && handed[i].id in after.departed)
      && after.owed == before.owed + Ids(handed)
    }

    /** The ownership checks of AddServer. */
    method MayRegister(deviceID: string, userID: string) returns (ok: bool)
      requires TableValid() && RegValid()
      ensures ok <==> MayAddServer(State(), deviceID, userID)
    {
      hide Mirrors, TracksServers, TableValid;
      if deviceID in onlineServers && onlineServers[deviceID].userID != userID {
        return false;
      }
      if deviceID in serverRooms {
        var roomID := serverRooms[deviceID];
        RoomAt(rooms, reg.rooms, roomObjs, roomID);
        if roomID in rooms && rooms[roomID].ownerUserID != userID {
          return false;
        }
      }
      var foreign := HasForeignSession(deviceID, userID);
      return !foreign;
    }

    /** The sessions to announce after the lock is released: the device's session, if any, with the
        client connection it had. */
    static ghost predicate Announces(resumed: seq<(Session, Connection?)>, objs: map<string, Session>, t: Table,
                                     deviceID: string) {
      match DeviceSession(t, deviceID)
      case None => resumed == []
      case Some(id) => id in objs && resumed == [(objs[id], t.sessions[id].clientConn)]
    }

    method AddServer(deviceID: string, userID: string, now: int)
        returns (server: OnlineServer?, err: Option<Error>, resumed: seq<(Session, Connection?)>)
      requires Valid() && clock <= now
      modifies this`serverGen, this`onlineServers, this`issued, this`reg, this`timers, this`staleSessions, this`tab
      modifies this`clock, sessionObjs, issued, RoomOf(deviceID)`serverConn, RoomOf(deviceID)`serverGen
      ensures Valid() && fresh(issued - old(issued)) && KeepsRooms()
      ensures err == if MayAddServer(old(State()), deviceID, userID) then None else Some(ErrNotOwner)
      ensures err.None? ==>
                && server != null && fresh(server) && server in issued
                && Steps(old(State()), At(now, OpAddServer(deviceID, userID, server)), State())
                && (deviceID in old(onlineServers) ==> old(onlineServers)[deviceID].done)
                && Announces(resumed, sessions, old(tab), deviceID)
      ensures err.Some? ==>
                && server == null && resumed == [] && State() == old(State()).(now := now)
                && Steps(old(State()), At(now, OpRefuseServer(deviceID, userID)), State())
    {
      hide Inv.Inv, Steps, TableValid, RegValid, RoomsValid, MayAddServer, Announces;
      var allowed := MayRegister(deviceID, userID);
      if allowed {
        server, resumed := Accept(deviceID, userID, now);
        err := None;
      } else {
        RefuseServerSteps(old(State()), now, deviceID, userID);
        Commit(old(State()), At(now, OpRefuseServer(deviceID, userID)));
        server, err, resumed := null, Some(ErrNotOwner), [];
      }
    }

    method Accept(deviceID: string, userID: string, now: int)
        returns (server: OnlineServer, resumed: seq<(Session, Connection?)>)
      requires Valid() && clock <= now && MayAddServer(State(), deviceID, userID)
      modifies this`serverGen, this`onlineServers, this`issued, this`reg, this`timers, this`staleSessions, this`tab
      modifies this`clock, sessionObjs, issued, RoomOf(deviceID)`serverConn, RoomOf(deviceID)`serverGen
      ensures Valid() && fresh(issued - old(issued)) && server in issued
      ensures fresh(server) && Steps(old(State()), At(now, OpAddServer(deviceID, userID, server)), State())
      ensures deviceID in old(onlineServers) ==> old(onlineServers)[deviceID].done
      ensures Announces(resumed, sessions, old(tab), deviceID)
    {
      hide Inv.Inv, Steps, TableValid, RegValid, RoomsValid, MayAddServer, RegisterServer, BindDevice, Announces;
      InvFacts(State());
      server, resumed := Replace(deviceID, userID);
      AddServerSteps(old(State()), now, deviceID, userID, server, State().(now := now));
      Commit(old(State()), At(now, OpAddServer(deviceID, userID, server)));
    }

    /** AddServer once the ownership checks have passed. */
    method Replace(deviceID: string, userID: string)
        returns (server: OnlineServer, resumed: seq<(Session, Connection?)>)
      requires TableValid() && RegValid() && Inv.OneSessionPerDevice(tab)
      modifies this`serverGen, this`onlineServers, this`issued, this`reg, this`timers, this`staleSessions, this`tab
      modifies RoomOf(deviceID)`serverConn, RoomOf(deviceID)`serverGen, issued, sessionObjs
      ensures TableValid() && RegValid()
      ensures fresh(server) && issued == old(issued) + {server}
      ensures server.deviceID == deviceID && server.userID == userID && server.generation == old(reg).serverGen + 1
      ensures reg == RegisterServer(old(reg), server) && tab == BindDevice(old(tab), server)
      ensures deviceID in old(onlineServers) ==> old(onlineServers)[deviceID].done
      ensures Announces(resumed, sessions, old(tab), deviceID)
    {
      hide TableValid, RegValid, RoomsValid, RegisterServer, BindDevice, DeviceSession;
      server := RegisterLocked(deviceID, userID);
      BindKeepsClient(tab, server);
      resumed := RebindSessions(server);
    }

    static lemma BindKeepsClient(t: Table, server: OnlineServer)
      ensures match DeviceSession(t, server.deviceID)
              case None => true
              case Some(id) => && id in BindDevice(t, server).sessions
                               && BindDevice(t, server).sessions[id].clientConn == t.sessions[id].clientConn
    {
      var found := DeviceSession(t, server.deviceID);
      if found.Some? {
        Inv.BindServerSessions(t, found.value, server);
      }
    }

    static ghost function WithClosed(r: Registry, server: OnlineServer?): Registry {
      if server != null then r.(closedServers := r.closedServers + {server}) else r
    }

    static lemma CleanupThenClose(r: Registry, deviceID: string, server: OnlineServer?)
      requires server == if deviceID in r.servers then r.servers[deviceID] else null
      ensures var u := CleanupDevice(r.(servers := r.servers - {deviceID}), deviceID);
              CleanupDevice(UnregisterServer(r, deviceID), deviceID) == WithClosed(u, server)
    {
    }

    /** delete from onlineServers. */
    method Unregister(deviceID: string) returns (server: OnlineServer?)
      requires RegValid()
      modifies this`onlineServers, this`reg
      ensures RegValid()
      ensures server == if deviceID in old(reg).servers then old(reg).servers[deviceID] else null
      ensures server != null ==> server in issued
      ensures reg == old(reg).(servers := old(reg).servers - {deviceID})
    {
      hide MirrorsRooms;
      server := if deviceID in onlineServers then onlineServers[deviceID] else null;
      onlineServers := onlineServers - {deviceID};
      reg := reg.(servers := onlineServers);
    }

    lemma GoneAt(id: string)
      requires TableValid() && id in gone
      ensures gone[id] in sessionObjs && gone[id].id == id && id in tab.departed
    {
      assert id in LastSeen(tab.departed);
    }

    lemma OthersApart(deviceID: string)
      requires RegValid()
      ensures forall id :: id in rooms && id !in RoomIDs(serverRooms, deviceID) ==> rooms[id] !in RoomOf(deviceID)
    {
    }

    /** removed are the sessions to tear down, and kicked the clients to take leave of, after unlocking. */
    method RemoveServer(deviceID: string, now: int) returns (removed: seq<Session>, kicked: map<string, Connection>)
      requires Valid() && clock <= now
      modifies this`onlineServers, this`sessions, this`timers, this`staleSessions, this`tab, this`gone, this`clock
      modifies this`guestDevices, this`rooms, this`serverRooms, this`reg, sessionObjs, issued
      modifies RoomOf(deviceID)`closed, RoomOf(deviceID)`clients, RoomOf(deviceID)`admissions, RoomOf(deviceID)`seats
      ensures Valid() && KeepsRooms() && rooms == old(rooms) - RoomIDs(old(serverRooms), deviceID)
      ensures kicked == old(AttachedTo(deviceID)) && EmptiedAndClosed(old(RoomOf(deviceID)))
      ensures Steps(old(State()), At(now, OpRemoveServer(deviceID)), State())
      ensures HandsBack(removed, sessionObjs, old(tab), tab)
    {
      hide Inv.Inv, Steps, TableValid, RegValid, RoomsValid, RemoveDevice, CleanupDevice, UnregisterServer;
      hide EmptiedAndClosed, HandsBack, AttachedTo, RoomIDs;
      InvFacts(State());
      OthersApart(deviceID);
      removed, kicked := TakeOffline(deviceID);
      RemoveServerSteps(old(State()), now, deviceID, State().(now := now));
      Commit(old(State()), At(now, OpRemoveServer(deviceID)));
    }

    method CloseIfAny(server: OnlineServer?)
      requires RegValid() && (server != null ==> server in issued)
      modifies this`reg, if server != null then {server} else {}
      ensures RegValid()
      ensures reg == WithClosed(old(reg), server)
    {
      if server != null {
        CloseServer(server);
      }
    }

    /** removeDeviceSessionsLocked, then the close of the server that was registered. */
    method RemoveThenClose(deviceID: string, server: OnlineServer?)
        returns (removed: seq<Session>, kicked: map<string, Connection>)
      requires TableValid() && RegValid() && RoomsValid(roomObjs) && Inv.OneSessionPerDevice(tab)
      requires server != null ==> server in issued
      modifies this`sessions, this`timers, this`staleSessions, this`tab, this`gone, sessionObjs
      modifies this`guestDevices, this`rooms, this`serverRooms, this`reg, if server != null then {server} else {}
      modifies RoomOf(deviceID)`closed, RoomOf(deviceID)`clients, RoomOf(deviceID)`admissions, RoomOf(deviceID)`seats
      ensures TableValid() && RegValid() && RoomsValid(roomObjs)
      ensures reg == WithClosed(CleanupDevice(old(reg), deviceID), server) && tab == RemoveDevice(old(tab), deviceID)
      ensures HandsBack(removed, sessionObjs, old(tab), tab)
      ensures rooms == old(rooms) - RoomIDs(old(serverRooms), deviceID)
      ensures kicked == old(AttachedTo(deviceID)) && EmptiedAndClosed(old(RoomOf(deviceID)))
    {
      hide TableValid, RegValid, RoomsValid, RemoveDevice, CleanupDevice, EmptiedAndClosed, HandsBack;
      hide Inv.OneSessionPerDevice, RoomIDs, AttachedTo, WithClosed;
      removed, kicked := RemoveDeviceSessionsLocked(deviceID);
      CloseIfAny(server);
    }

    method TakeOffline(deviceID: string) returns (removed: seq<Session>, kicked: map<string, Connection>)
      requires TableValid() && RegValid() && RoomsValid(roomObjs) && Inv.OneSessionPerDevice(tab)
      modifies this`onlineServers, this`sessions, this`timers, this`staleSessions, this`tab, this`gone, sessionObjs
      modifies this`guestDevices, this`rooms, this`serverRooms, this`reg, issued
      modifies RoomOf(deviceID)`closed, RoomOf(deviceID)`clients, RoomOf(deviceID)`admissions, RoomOf(deviceID)`seats
      ensures TableValid() && RegValid() && RoomsValid(roomObjs)
      ensures reg == CleanupDevice(UnregisterServer(old(reg), deviceID), deviceID)
      ensures tab == RemoveDevice(old(tab), deviceID)
      ensures HandsBack(removed, sessionObjs, old(tab), tab)
      ensures rooms == old(rooms) - RoomIDs(old(serverRooms), deviceID)
      ensures kicked == old(AttachedTo(deviceID)) && EmptiedAndClosed(old(RoomOf(deviceID)))
    {
      hide TableValid, RegValid, RoomsValid, RemoveDevice, CleanupDevice, UnregisterServer, EmptiedAndClosed, HandsBack;
      hide Inv.OneSessionPerDevice, RoomIDs, AttachedTo, WithClosed;
      var server := Unregister(deviceID);
      CleanupThenClose(old(reg), deviceID, server);
      removed, kicked := RemoveThenClose(deviceID, server);
    }

    /** The session half of removeDeviceSessionsLocked. */
    method HandBackRemoved(deviceID: string) returns (removed: seq<Session>)
      requires TableValid() && Inv.OneSessionPerDevice(tab)
      modifies this`sessions, this`timers, this`staleSessions, this`tab, this`gone, sessionObjs
      ensures TableValid() && tab == RemoveDevice(old(tab), deviceID)
      ensures HandsBack(removed, sessionObjs, old(tab), tab)
    {
      hide TableValid, RemoveDevice, DeviceSession, Ids;
      removed := RemoveDeviceSessions(deviceID);
      if removed != [] {
        GoneAt(DeviceSession(old(tab), deviceID).value);
        OneId(removed);
      } else {
        NoIds();
      }
      RemoveDeviceOwes(old(tab), deviceID);
    }

    method RemoveDeviceSessionsLocked(deviceID: string)
        returns (removed: seq<Session>, kicked: map<string, Connection>)
      requires TableValid() && RegValid() && RoomsValid(roomObjs) && Inv.OneSessionPerDevice(tab)
      modifies this`sessions, this`timers, this`staleSessions, this`tab, this`gone, sessionObjs
      modifies this`guestDevices, this`rooms, this`serverRooms, this`reg
      modifies RoomOf(deviceID)`closed, RoomOf(deviceID)`clients, RoomOf(deviceID)`admissions, RoomOf(deviceID)`seats
      ensures TableValid() && RegValid() && RoomsValid(roomObjs)
      ensures reg == CleanupDevice(old(reg), deviceID) && tab == RemoveDevice(old(tab), deviceID)
      ensures HandsBack(removed, sessionObjs, old(tab), tab)
      ensures rooms == old(rooms) - RoomIDs(old(serverRooms), deviceID)
      ensures kicked == old(AttachedTo(deviceID)) && EmptiedAndClosed(old(RoomOf(deviceID)))
    {
      hide TableValid, RegValid, RoomsValid, RemoveDevice, DeviceSession, CleanupDevice, EmptiedAndClosed, HandsBack;
      hide Inv.OneSessionPerDevice, RoomIDs;
      removed := HandBackRemoved(deviceID);
      kicked := CleanupDeviceGuestsAndRoomsLocked(deviceID);
    }

    static lemma OneId(handed: seq<Session>)
      requires |handed| == 1
      ensures Ids(handed) == multiset{handed[0].id}
    {
      assert Ids(handed[1..]) == multiset{};
    }

    static lemma NoIds()
      ensures Ids([]) == multiset{}
    {
    }

    static lemma RemoveDeviceOwes(t: Table, deviceID: string)
      ensures match DeviceSession(t, deviceID)
              case None => RemoveDevice(t, deviceID) == t
              case Some(id) => RemoveDevice(t, deviceID).owed == t.owed + multiset{id}
    {
    }

    static lemma MarkDeviceOwes(t: Table, deviceID: string, now: int, grace: int, cap: nat, who: string)
      ensures match DeviceSession(t, deviceID)
              case None => MarkDevice(t, deviceID, now, grace, cap, who) == t
              case Some(id) =>
                MarkDevice(t, deviceID, now, grace, cap, who).owed
                == if Overflows(t, id, now, cap) && who in t.sessions then t.owed + multiset{who} else t.owed
    {
    }

    /** The session half of markDeviceSessionsStaleLocked. */
    method HandBackEvicted(deviceID: string, now: int) returns (evicted: seq<Session>, ghost who: string)
      requires TableValid() && Inv.OneSessionPerDevice(tab) && "" !in staleSessions && "" !in sessions
      modifies this`sessions, this`timers, this`nextTimer, this`staleSessions, this`tab, this`gone, sessionObjs
      ensures TableValid() && tab == MarkDevice(old(tab), deviceID, now, sessionGrace, maxStaleSessions, who)
      ensures MayEvict(old(tab), deviceID, now, maxStaleSessions, who)
      ensures HandsBack(evicted, sessionObjs, old(tab), tab)
    {
      hide TableValid, MarkDevice, DeviceSession, Ids, GoodVictim, Overflows, Inv.OneSessionPerDevice;
      evicted, who := MarkDeviceSessionsStale(deviceID, now);
      if evicted != [] {
        GoneAt(who);
        OneId(evicted);
      } else {
        NoIds();
      }
      MarkDeviceOwes(old(tab), deviceID, now, sessionGrace, maxStaleSessions, who);
    }

    /** who is an oldest entry if marking the device's session stale exceeds the cap. */
    static ghost predicate MayEvict(t: Table, deviceID: string, now: int, cap: nat, who: string) {
      match DeviceSession(t, deviceID)
      case None => true
      case Some(id) => GoodVictim(t, id, now, cap, who)
    }

    /** markDeviceSessionsStaleLocked. */
    method MarkDeviceSessionsStaleLocked(deviceID: string, now: int)
        returns (evicted: seq<Session>, kicked: map<string, Connection>, ghost who: string)
      requires TableValid() && RegValid() && RoomsValid(roomObjs) && Inv.OneSessionPerDevice(tab)
      requires "" !in staleSessions && "" !in sessions
      modifies this`sessions, this`timers, this`nextTimer, this`staleSessions, this`tab, this`gone, sessionObjs
      modifies this`guestDevices, this`rooms, this`serverRooms, this`reg
      modifies RoomOf(deviceID)`closed, RoomOf(deviceID)`clients, RoomOf(deviceID)`admissions, RoomOf(deviceID)`seats
      ensures TableValid() && RegValid() && RoomsValid(roomObjs)
      ensures reg == CleanupDevice(old(reg), deviceID)
      ensures tab == MarkDevice(old(tab), deviceID, now, sessionGrace, maxStaleSessions, who)
      ensures MayEvict(old(tab), deviceID, now, maxStaleSessions, who)
      ensures HandsBack(evicted, sessionObjs, old(tab), tab)
      ensures rooms == old(rooms) - RoomIDs(old(serverRooms), deviceID)
      ensures kicked == old(AttachedTo(deviceID)) && EmptiedAndClosed(old(RoomOf(deviceID)))
    {
      hide TableValid, RegValid, RoomsValid, MarkDevice, CleanupDevice, EmptiedAndClosed, HandsBack, MayEvict;
      hide Inv.OneSessionPerDevice, RoomIDs;
      evicted, who := HandBackEvicted(deviceID, now);
      kicked := CleanupDeviceGuestsAndRoomsLocked(deviceID);
    }

    /** markDeviceSessionsStaleLocked, then the close of the server. */
    method MarkThenClose(conn: OnlineServer, now: int)
        returns (evicted: seq<Session>, kicked: map<string, Connection>, ghost who: string)
      requires TableValid() && RegValid() && RoomsValid(roomObjs) && Inv.OneSessionPerDevice(tab)
      requires "" !in staleSessions && "" !in sessions && conn in issued
      modifies this`sessions, this`timers, this`nextTimer, this`staleSessions, this`tab, this`gone, sessionObjs
      modifies this`guestDevices, this`rooms, this`serverRooms, this`reg, conn
      modifies RoomOf(conn.deviceID)`closed, RoomOf(conn.deviceID)`clients
      modifies RoomOf(conn.deviceID)`admissions, RoomOf(conn.deviceID)`seats
      ensures TableValid() && RegValid() && RoomsValid(roomObjs)
      ensures reg == WithClosed(CleanupDevice(old(reg), conn.deviceID), conn)
      ensures tab == MarkDevice(old(tab), conn.deviceID, now, sessionGrace, maxStaleSessions, who)
      ensures MayEvict(old(tab), conn.deviceID, now, maxStaleSessions, who)
      ensures HandsBack(evicted, sessionObjs, old(tab), tab) && conn.done
      ensures rooms == old(rooms) - RoomIDs(old(serverRooms), conn.deviceID)
      ensures kicked == old(AttachedTo(conn.deviceID)) && EmptiedAndClosed(old(RoomOf(conn.deviceID)))
    {
      hide TableValid, RegValid, RoomsValid, MarkDevice, CleanupDevice, EmptiedAndClosed, HandsBack;
      hide MayEvict, Inv.OneSessionPerDevice, RoomIDs, AttachedTo;
      evicted, kicked, who := MarkDeviceSessionsStaleLocked(conn.deviceID, now);
      CloseServer(conn);
    }

    method DropServerConn(conn: OnlineServer, now: int)
        returns (evicted: seq<Session>, kicked: map<string, Connection>, ghost who: string)
      requires TableValid() && RegValid() && RoomsValid(roomObjs) && Inv.OneSessionPerDevice(tab)
      requires "" !in staleSessions && "" !in sessions
      requires IsRegistered(State(), conn)
      modifies this`onlineServers, this`sessions, this`timers, this`nextTimer, this`staleSessions, this`tab, this`gone
      modifies sessionObjs, this`guestDevices, this`rooms, this`serverRooms, this`reg, issued
      modifies RoomOf(conn.deviceID)`closed, RoomOf(conn.deviceID)`clients
      modifies RoomOf(conn.deviceID)`admissions, RoomOf(conn.deviceID)`seats
      ensures TableValid() && RegValid() && RoomsValid(roomObjs)
      ensures reg == CleanupDevice(UnregisterServer(old(reg), conn.deviceID), conn.deviceID)
      ensures tab == MarkDevice(old(tab), conn.deviceID, now, sessionGrace, maxStaleSessions, who)
      ensures MayEvict(old(tab), conn.deviceID, now, maxStaleSessions, who)
      ensures HandsBack(evicted, sessionObjs, old(tab), tab) && conn.done
      ensures rooms == old(rooms) - RoomIDs(old(serverRooms), conn.deviceID)
      ensures kicked == old(AttachedTo(conn.deviceID)) && EmptiedAndClosed(old(RoomOf(conn.deviceID)))
    {
      hide TableValid, RegValid, RoomsValid, MarkDevice, CleanupDevice, UnregisterServer, EmptiedAndClosed, HandsBack;
      hide MayEvict, Inv.OneSessionPerDevice, RoomIDs, AttachedTo, WithClosed;
      var removed := Unregister(conn.deviceID);
      CleanupThenClose(old(reg), conn.deviceID, conn);
      evicted, kicked, who := MarkThenClose(conn, now);
    }

    lemma TableFacts()
      requires TableValid() && Inv.Inv(State())
      ensures Inv.OneSessionPerDevice(tab) && "" !in staleSessions && "" !in sessions
    {
      InvFacts(State());
      KeysAgree();
    }

    /** RemoveServerConn's critical section. */
    method DropIfCurrent(conn: OnlineServer, now: int)
        returns (evicted: seq<Session>, kicked: map<string, Connection>, ghost who: string)
      requires TableValid() && RegValid() && RoomsValid(roomObjs) && Inv.OneSessionPerDevice(tab)
      requires "" !in staleSessions && "" !in sessions && clock <= now
      modifies this`onlineServers, this`sessions, this`timers, this`nextTimer, this`staleSessions, this`tab, this`gone
      modifies sessionObjs, this`guestDevices, this`rooms, this`serverRooms, this`reg, issued
      modifies RoomOf(conn.deviceID)`closed, RoomOf(conn.deviceID)`clients
      modifies RoomOf(conn.deviceID)`admissions, RoomOf(conn.deviceID)`seats
      ensures TableValid() && RegValid() && RoomsValid(roomObjs) && KeepsRooms()
      ensures Steps(old(State()), At(now, OpRemoveServerConn(conn, who)), State().(now := now))
      ensures IsRegistered(old(State()), conn) ==> conn.done
      ensures HandsBack(evicted, sessionObjs, old(tab), tab)
      ensures if IsRegistered(old(State()), conn)
              then && rooms == old(rooms) - RoomIDs(old(serverRooms), conn.deviceID)
                   && kicked == old(AttachedTo(conn.deviceID)) && EmptiedAndClosed(old(RoomOf(conn.deviceID)))
              else rooms == old(rooms) && kicked == map[]
    {
      hide Steps, TableValid, RegValid, RoomsValid, MarkDevice, DeviceSession, CleanupDevice, UnregisterServer;
      hide EmptiedAndClosed, HandsBack, GoodVictim, AttachedTo, RoomIDs, Inv.OneSessionPerDevice;
      RegFields();
      OthersApart(conn.deviceID);
      if conn.deviceID !in onlineServers || onlineServers[conn.deviceID] != conn {
        evicted, kicked, who := [], map[], "";
        NothingOwed();
        SupersededSteps(State(), now, conn, who);
      } else {
        evicted, kicked, who := DropServerConn(conn, now);
        RemoveServerConnSteps(old(State()), now, conn, who, State().(now := now));
      }
    }

    method RemoveServerConn(conn: OnlineServer, now: int)
        returns (evicted: seq<Session>, kicked: map<string, Connection>, ghost who: string)
      requires Valid() && clock <= now
      modifies this`onlineServers, this`sessions, this`timers, this`nextTimer, this`staleSessions, this`tab, this`gone
      modifies this`clock, this`guestDevices, this`rooms, this`serverRooms, this`reg, sessionObjs, issued
      modifies RoomOf(conn.deviceID)`closed, RoomOf(conn.deviceID)`clients
      modifies RoomOf(conn.deviceID)`admissions, RoomOf(conn.deviceID)`seats
      ensures Valid() && KeepsRooms()
      ensures Steps(old(State()), At(now, OpRemoveServerConn(conn, who)), State())
      ensures IsRegistered(old(State()), conn) ==> conn.done
      ensures HandsBack(evicted, sessionObjs, old(tab), tab)
      ensures if IsRegistered(old(State()), conn)
              then && rooms == old(rooms) - RoomIDs(old(serverRooms), conn.deviceID)
                   && kicked == old(AttachedTo(conn.deviceID)) && EmptiedAndClosed(old(RoomOf(conn.deviceID)))
              else rooms == old(rooms) && kicked == map[]
    {
      hide Inv.Inv, Steps, TableValid, RegValid, RoomsValid, IsRegistered;
      hide EmptiedAndClosed, HandsBack, AttachedTo, RoomIDs, KeepsRooms;
      TableFacts();
      evicted, kicked, who := DropIfCurrent(conn, now);
      Commit(old(State()), At(now, OpRemoveServerConn(conn, who)));
    }

    lemma NothingOwed()
      ensures HandsBack([], sessionObjs, tab, tab)
    {
    }

    // --- Sessions ---

    static lemma AccountedInsert(sessions: map<string, Session>, gone: map<string, Session>, repr: set<Session>,
                                 sess: Session)
      requires Accounted(sessions, gone, repr) && sess.id !in sessions
      ensures Accounted(sessions[sess.id := sess], gone, repr + {sess})
    {
    }

    static lemma MirrorsGrow(objs: map<string, Session>, abs: map<string, Sess>, repr: set<Session>, more: set<Session>)
      requires Mirrors(objs, abs, repr) && repr <= more
      ensures Mirrors(objs, abs, more)
    {
    }

    method InsertSession(id: string, userID: string, ownerUserID: string, deviceID: string, ghost direct: bool,
                         now: int, server: OnlineServer) returns (sess: Session)
      requires TableValid() && FreshID(tab, id)
      modifies this`sessions, this`sessionObjs, this`tab
      ensures TableValid() && fresh(sess) && sessionObjs == old(sessionObjs) + {sess}
      ensures sess.id == id && sessions == old(sessions)[id := sess]
      ensures tab == old(tab).(sessions := old(tab).sessions[id :=
                       NewSess(userID, ownerUserID, deviceID, direct, now, server)])
    {
      hide Mirrors, Accounted, LastSeen;
      KeysAgree();
      sess := new Session(id, userID, ownerUserID, deviceID, direct, now, server);
      AddMirror(sess);
      sessions := sessions[id := sess];
      sessionObjs := sessionObjs + {sess};
      tab := tab.(sessions := tab.sessions[id := sess.View()]);
    }

    lemma AddMirror(sess: Session)
      requires TableValid() && sess.id !in sessions
      ensures Mirrors(sessions[sess.id := sess], tab.sessions[sess.id := sess.View()], sessionObjs + {sess})
      ensures Mirrors(gone, LastSeen(tab.departed), sessionObjs + {sess})
      ensures Accounted(sessions[sess.id := sess], gone, sessionObjs + {sess})
    {
      hide Mirrors, Accounted, LastSeen;
      MirrorsGrow(sessions, tab.sessions, sessionObjs, sessionObjs + {sess});
      MirrorsInsert(sessions, tab.sessions, sessionObjs + {sess}, sess);
      MirrorsGrow(gone, LastSeen(tab.departed), sessionObjs, sessionObjs + {sess});
      AccountedInsert(sessions, gone, sessionObjs, sess);
    }

    /** CreateSession's critical section. */
    method OpenSession(userID: string, deviceID: string, id: string, now: int)
        returns (sess: Session?, err: Option<Error>)
      requires TableValid() && RegValid() && FreshID(tab, id)
      modifies this`sessions, this`sessionObjs, this`tab
      ensures TableValid() && fresh(sessionObjs - old(sessionObjs))
      ensures State().(now := now) == HubModel.CreateSession(old(State()).(now := now), userID, deviceID, id)
      ensures err == CreateSessionError(old(State()), userID, deviceID)
      ensures err.None? <==> sess != null
      ensures sess != null ==> sess.id == id && id in sessions && sessions[id] == sess && sess in sessionObjs
    {
      hide TableValid, RegValid, DeviceSession;
      RegFields();
      sess := null;
      err := CheckDevice(userID, deviceID);
      if err.None? {
        sess := InsertSession(id, userID, userID, deviceID, true, now, onlineServers[deviceID]);
        IsRegisteredObject(id);
      }
    }

    /** id is what generateSessionID returned. */
    method CreateSession(userID: string, deviceID: string, id: string, now: int)
        returns (sess: Session?, err: Option<Error>)
      requires Valid() && clock <= now && FreshID(tab, id)
      modifies this`sessions, this`sessionObjs, this`tab, this`clock
      ensures Valid() && fresh(sessionObjs - old(sessionObjs))
      ensures Steps(old(State()), At(now, OpCreateSession(userID, deviceID, id)), State())
      ensures err == CreateSessionError(old(State()), userID, deviceID)
      ensures err.None? <==> sess != null
      ensures sess != null ==> sess.id == id && id in sessions && sessions[id] == sess && sess in sessionObjs
    {
      hide Inv.Inv, Steps, TableValid, RegValid, RoomsValid, HubModel.CreateSession, CreateSessionError, FreshID;
      sess, err := OpenSession(userID, deviceID, id, now);
      CreateSessionSteps(old(State()), now, userID, deviceID, id, State().(now := now));
      Commit(old(State()), At(now, OpCreateSession(userID, deviceID, id)));
    }

    method CheckDevice(userID: string, deviceID: string) returns (err: Option<Error>)
      requires TableValid() && RegValid()
      ensures err == CreateSessionError(State(), userID, deviceID)
    {
      hide TableValid;
      if deviceID !in onlineServers {
        return Some(ErrServerOffline);
      }
      if onlineServers[deviceID].userID != userID {
        return Some(ErrNotOwner);
      }
      var busy := HasSession(deviceID);
      return if busy then Some(ErrServerBusy) else None;
    }

    /** CreateGuestSession's critical section. */
    method OpenGuestSession(shortID: string, id: string, now: int) returns (sess: Session?, err: Option<Error>)
      requires TableValid() && RegValid() && FreshID(tab, id)
      modifies this`sessions, this`sessionObjs, this`tab
      ensures TableValid() && fresh(sessionObjs - old(sessionObjs))
      ensures State().(now := now) == HubModel.CreateGuestSession(old(State()).(now := now), shortID, id)
      ensures err == CreateGuestSessionError(old(State()), shortID)
      ensures err.None? <==> sess != null
      ensures sess != null ==> sess.id == id && id in sessions && sessions[id] == sess && sess in sessionObjs
    {
      hide TableValid, RegValid, DeviceSession;
      RegFields();
      sess := null;
      err := CheckGuest(shortID);
      if err.None? {
        var guest := guestDevices[shortID];
        sess := InsertSession(id, "guest", guest.userID, guest.deviceID, false, now, guest.server);
        IsRegisteredObject(id);
      }
    }

    /** id is what generateSessionID returned. */
    method CreateGuestSession(shortID: string, id: string, now: int) returns (sess: Session?, err: Option<Error>)
      requires Valid() && clock <= now && FreshID(tab, id)
      modifies this`sessions, this`sessionObjs, this`tab, this`clock
      ensures Valid() && fresh(sessionObjs - old(sessionObjs))
      ensures Steps(old(State()), At(now, OpCreateGuestSession(shortID, id)), State())
      ensures err == CreateGuestSessionError(old(State()), shortID)
      ensures err.None? <==> sess != null
      ensures sess != null ==> sess.id == id && id in sessions && sessions[id] == sess && sess in sessionObjs
    {
      hide Inv.Inv, Steps, TableValid, RegValid, RoomsValid, HubModel.CreateGuestSession, CreateGuestSessionError;
      hide FreshID;
      sess, err := OpenGuestSession(shortID, id, now);
      CreateGuestSessionSteps(old(State()), now, shortID, id, State().(now := now));
      Commit(old(State()), At(now, OpCreateGuestSession(shortID, id)));
    }

    method CheckGuest(shortID: string) returns (err: Option<Error>)
      requires TableValid() && RegValid()
      ensures err == CreateGuestSessionError(State(), shortID)
    {
      hide TableValid;
      if shortID !in guestDevices {
        return Some(ErrGuestNotFound);
      }
      var busy := HasSession(guestDevices[shortID].deviceID);
      return if busy then Some(ErrServerBusy) else None;
    }

    method BindClientLocked(sess: Session, conn: Connection?)
      requires TableValid() && Registered(sess)
      modifies this`timers, this`staleSessions, this`tab, sess
      ensures TableValid()
      ensures sess.id in old(tab).sessions && tab == BindClient(old(tab), sess.id, conn)
    {
      hide Mirrors, Accounted;
      MirrorsAt(sessions, tab.sessions, sessionObjs, sess.id);
      sess.clientConn := conn;
      OneChanged(sess);
      tab := tab.(sessions := tab.sessions[sess.id := tab.sessions[sess.id].(clientConn := conn)]);
      CancelClientGraceLocked(sess);
    }

    /** SetSessionClient's critical section. */
    method BindIfPresent(sessionID: string, conn: Connection) returns (serverConn: OnlineServer?, ok: bool)
      requires TableValid()
      modifies this`staleSessions, this`timers, this`tab, sessionObjs
      ensures TableValid()
      ensures State() == HubModel.SetSessionClient(old(State()), sessionID, conn)
      ensures ok <==> sessionID in old(tab).sessions
      ensures serverConn == if ok then old(tab).sessions[sessionID].serverConn else null
    {
      hide TableValid, BindClient;
      KeysAgree();
      ok, serverConn := sessionID in sessions, null;
      if ok {
        var sess := sessions[sessionID];
        IsRegisteredObject(sessionID);
        ServerAgrees(sess);
        serverConn := sess.serverConn;
        BindClientLocked(sess, conn);
      }
    }

    /** serverConn is the session's server at this moment. */
    method SetSessionClient(sessionID: string, conn: Connection, now: int) returns (serverConn: OnlineServer?, ok: bool)
      requires Valid() && clock <= now
      modifies this`staleSessions, this`timers, this`tab, this`clock, sessionObjs
      ensures Valid()
      ensures Steps(old(State()), At(now, OpSetSessionClient(sessionID, conn)), State())
      ensures ok <==> sessionID in old(tab).sessions
      ensures serverConn == if ok then old(tab).sessions[sessionID].serverConn else null
    {
      hide Inv.Inv, Steps, TableValid, RegValid, RoomsValid, BindClient;
      serverConn, ok := BindIfPresent(sessionID, conn);
      SetSessionClientSteps(old(State()), now, sessionID, conn, State().(now := now));
      Commit(old(State()), At(now, OpSetSessionClient(sessionID, conn)));
    }

    lemma ServerAgrees(sess: Session)
      requires TableValid() && Registered(sess)
      ensures sess.id in tab.sessions && sess.serverConn == tab.sessions[sess.id].serverConn
    {
    }

    method MarkClientLocked(sess: Session, now: int) returns (victim: Session?, ghost who: string)
      requires TableValid() && Registered(sess) && "" !in staleSessions && sess.id != ""
      modifies this`sessions, this`timers, this`nextTimer, this`staleSessions, this`tab, this`gone, sessionObjs
      ensures TableValid()
      ensures sess.id in old(tab).sessions
      ensures tab == MarkStale(old(tab), sess.id, ClientSide, now, sessionGrace, maxStaleSessions, who,
                               EvictionReason(sess.id, who, true))
      ensures GoodVictim(old(tab), sess.id, now, maxStaleSessions, who)
      ensures victim != null <==> Overflows(old(tab), sess.id, now, maxStaleSessions) && who in old(tab).sessions
      ensures victim != null ==> victim.id == who && who in gone && gone[who] == victim
    {
      hide Mirrors, Accounted;
      MirrorsAt(sessions, tab.sessions, sessionObjs, sess.id);
      MarkClientSide(sess, now);
      victim, who := MarkStaleLocked(sess, now, true);
    }

    static lemma MarkClientStaleSteps(s: State, now: int, id: string, expected: Connection?, who: string, t: State)
      requires s.now <= now && (IsBound(s, id, expected) ==> GoodVictim(s.tab, id, now, s.cap, who))
      requires IsBound(s, id, expected) ==> id in s.tab.sessions
      requires t == if IsBound(s, id, expected)
                    then s.(now := now, tab := MarkStale(s.tab, id, ClientSide, now, s.grace, s.cap, who,
                                                         EvictionReason(id, who, true)))
                    else s.(now := now)
      ensures Steps(s, At(now, OpMarkClientStale(id, expected, who)), t)
    {
    }

    static lemma MarkStaleOwes(t: Table, id: string, now: int, grace: int, cap: nat, who: string)
      requires id in t.sessions
      ensures MarkStale(t, id, ClientSide, now, grace, cap, who, EvictionReason(id, who, true)).owed
              == if Overflows(t, id, now, cap) && who in t.sessions && who != id then t.owed + multiset{who} else t.owed
    {
    }

    method DropClientConn(sess: Session, now: int) returns (evicted: seq<Session>, ghost who: string)
      requires TableValid() && Registered(sess) && "" !in staleSessions && sess.id != ""
      modifies this`sessions, this`timers, this`nextTimer, this`staleSessions, this`tab, this`gone, sessionObjs
      ensures TableValid()
      ensures sess.id in old(tab).sessions
      ensures tab == MarkStale(old(tab), sess.id, ClientSide, now, sessionGrace, maxStaleSessions, who,
                               EvictionReason(sess.id, who, true))
      ensures GoodVictim(old(tab), sess.id, now, maxStaleSessions, who)
      ensures HandsBack(evicted, sessionObjs, old(tab), tab)
    {
      hide Mirrors, TableValid, MarkStale, GoodVictim, Overflows, EvictionReason, Ids;
      var victim;
      victim, who := MarkClientLocked(sess, now);
      MarkStaleOwes(old(tab), sess.id, now, sessionGrace, maxStaleSessions, who);
      NoIds();
      evicted := [];
      if victim != null && victim.id != sess.id {
        evicted := [victim];
        GoneAt(who);
        OneId(evicted);
      }
    }

    method IsBoundTo(sessionID: string, conn: Connection?) returns (bound: bool)
      requires TableValid()
      ensures bound <==> IsBound(State(), sessionID, conn)
      ensures bound ==> sessionID in sessions && Registered(sessions[sessionID]) && sessions[sessionID].id == sessionID
    {
      hide Mirrors, Accounted;
      KeysAgree();
      bound := false;
      if sessionID in sessions {
        MirrorsAt(sessions, tab.sessions, sessionObjs, sessionID);
        bound := sessions[sessionID].clientConn == conn;
      }
    }

    /** evicted are the sessions to tear down; the session just marked is never among them. */
    method MarkClientStale(sessionID: string, expected: Connection?, now: int)
        returns (ok: bool, evicted: seq<Session>, ghost who: string)
      requires Valid() && clock <= now
      modifies this`sessions, this`staleSessions, this`timers, this`nextTimer, this`tab, this`gone, this`clock
      modifies sessionObjs
      ensures Valid()
      ensures Steps(old(State()), At(now, OpMarkClientStale(sessionID, expected, who)), State())
      ensures ok <==> IsBound(old(State()), sessionID, expected)
      ensures HandsBack(evicted, sessionObjs, old(tab), tab)
    {
      hide Inv.Inv, Steps, TableValid, RegValid, RoomsValid, MarkStale, GoodVictim, EvictionReason, HandsBack, IsBound;
      TableFacts();
      ok, evicted, who := MarkIfBound(sessionID, expected, now);
      MarkClientStaleSteps(old(State()), now, sessionID, expected, who, State().(now := now));
      Commit(old(State()), At(now, OpMarkClientStale(sessionID, expected, who)));
    }

    /** MarkClientStale's critical section. */
    method MarkIfBound(sessionID: string, expected: Connection?, now: int)
        returns (ok: bool, evicted: seq<Session>, ghost who: string)
      requires TableValid() && "" !in staleSessions && "" !in sessions
      modifies this`sessions, this`timers, this`nextTimer, this`staleSessions, this`tab, this`gone, sessionObjs
      ensures TableValid()
      ensures ok <==> IsBound(old(State()), sessionID, expected)
      ensures ok ==> GoodVictim(old(tab), sessionID, now, maxStaleSessions, who)
      ensures ok ==> sessionID in old(tab).sessions
      ensures tab == if ok then MarkStale(old(tab), sessionID, ClientSide, now, sessionGrace, maxStaleSessions, who,
                                          EvictionReason(sessionID, who, true))
                     else old(tab)
      ensures HandsBack(evicted, sessionObjs, old(tab), tab)
    {
      hide TableValid, MarkStale, GoodVictim, EvictionReason, HandsBack;
      ok := IsBoundTo(sessionID, expected);
      if ok {
        evicted, who := DropClientConn(sessions[sessionID], now);
      } else {
        evicted, who := [], "";
        NothingOwed();
      }
    }

    method RemoveIfPresent(sessionID: string)
      requires TableValid()
      modifies this`sessions, this`staleSessions, this`timers, this`tab, this`gone, sessionObjs
      ensures TableValid()
      ensures State() == HubModel.RemoveSession(old(State()), sessionID)
    {
      hide TableValid, Depart;
      KeysAgree();
      if sessionID in sessions {
        IsRegisteredObject(sessionID);
        RemoveLocked(sessions[sessionID], ExplicitlyRemoved);
      }
    }

    method RemoveSession(sessionID: string, now: int)
      requires Valid() && clock <= now
      modifies this`sessions, this`staleSessions, this`timers, this`tab, this`gone, this`clock, sessionObjs
      ensures Valid()
      ensures Steps(old(State()), At(now, OpRemoveSession(sessionID)), State())
    {
      hide Inv.Inv, Steps, TableValid, RegValid, RoomsValid, HubModel.RemoveSession;
      RemoveIfPresent(sessionID);
      RemoveSessionSteps(old(State()), now, sessionID, State());
      Commit(old(State()), At(now, OpRemoveSession(sessionID)));
    }

    method CleanupStaleSessions(maxAge: int, now: int)
      requires Valid() && clock <= now
      modifies this`sessions, this`tab, this`gone, this`clock
      ensures Valid()
      ensures Steps(old(State()), At(now, OpCleanupStaleSessions(maxAge)), State())
    {
      hide Inv.Inv, Steps, TableValid, RegValid, RoomsValid, Sweep;
      SweepAbandoned(maxAge, now);
      SweepSteps(old(State()), now, maxAge, State().(now := now));
      Commit(old(State()), At(now, OpCleanupStaleSessions(maxAge)));
    }

    static lemma FireOwes(t: Table, timer: nat)
      requires timer in t.callbacks
      ensures Fire(t, timer).owed
              == if Expires(t, t.callbacks[timer]) then t.owed + multiset{t.callbacks[timer].sessionID} else t.owed
    {
    }

    /** RunCallback, up to the teardown of the session it expires. */
    method Expire(timer: nat) returns (expired: seq<Session>)
      requires TableValid() && timer in timers
      modifies this`sessions, this`staleSessions, this`timers, this`tab, this`gone
      ensures TableValid() && timer in old(tab).callbacks && tab == Fire(old(tab), timer)
      ensures HandsBack(expired, sessionObjs, old(tab), tab)
    {
      hide TableValid, Fire, Ids, Expires;
      TimersAgree();
      NoIds();
      FireOwes(tab, timer);
      expired := [];
      var victim := RunCallback(timer);
      if victim != null {
        expired := [victim];
        GoneAt(victim.id);
        OneId(expired);
      }
    }

    /** The runtime runs a callback that is due, or one that was stopped too late. */
    method FireTimer(timer: nat, now: int) returns (expired: seq<Session>)
      requires Valid() && clock <= now && timer in timers && (timers[timer].stopped || timers[timer].deadline <= now)
      modifies this`sessions, this`staleSessions, this`timers, this`tab, this`gone, this`clock
      ensures Valid()
      ensures Steps(old(State()), At(now, OpFire(timer)), State())
      ensures HandsBack(expired, sessionObjs, old(tab), tab)
    {
      hide Inv.Inv, Steps, TableValid, RegValid, RoomsValid, Fire, HandsBack;
      TimersAgree();
      expired := Expire(timer);
      FireSteps(old(State()), now, timer, State().(now := now));
      Commit(old(State()), At(now, OpFire(timer)));
    }

    lemma TimersAgree()
      requires TableValid()
      ensures timers == tab.callbacks
    {
    }

    /** teardownSession for a session that was handed back; returns whom peer_disconnected goes to. */
    method RunTeardown(sess: Session, now: int) returns (server: OnlineServer?, client: Connection?)
      requires Valid() && clock <= now && sess in sessionObjs && sess.id in tab.departed && sess.id in tab.owed
      modifies this`tab, this`clock
      ensures Valid()
      ensures Steps(old(State()), At(now, OpTeardown(sess.id)), State())
      ensures server == old(tab).departed[sess.id].sess.serverConn
      ensures client == old(tab).departed[sess.id].sess.clientConn
    {
      hide Inv.Inv, Steps, TableValid, RegValid, RoomsValid, Teardown;
      server, client := TeardownSession(sess);
      TeardownSteps(old(State()), now, sess.id, State().(now := now));
      Commit(old(State()), At(now, OpTeardown(sess.id)));
    }

    // --- Guest devices and rooms ---

    /** RegisterGuestDevice's critical section. */
    method AddGuest(shortID: string, userID: string, deviceID: string) returns (err: Option<Error>)
      requires RegValid()
      modifies this`guestDevices, this`reg
      ensures RegValid()
      ensures State() == RegisterGuest(old(State()), shortID, userID, deviceID)
      ensures err == RegisterGuestError(old(State()), shortID, deviceID)
    {
      hide MirrorsRooms, TracksServers;
      if shortID in guestDevices {
        err := Some(ErrShortIDConflict);
      } else if deviceID !in onlineServers {
        err := Some(ErrServerOffline);
      } else {
        err := None;
        guestDevices := guestDevices[shortID := Guest(userID, deviceID, onlineServers[deviceID])];
        reg := reg.(guests := guestDevices);
      }
    }

    method RegisterGuestDevice(shortID: string, userID: string, deviceID: string, now: int) returns (err: Option<Error>)
      requires Valid() && clock <= now
      modifies this`guestDevices, this`reg, this`clock
      ensures Valid()
      ensures Steps(old(State()), At(now, OpRegisterGuest(shortID, userID, deviceID)), State())
      ensures err == RegisterGuestError(old(State()), shortID, deviceID)
    {
      hide Inv.Inv, Steps, TableValid, RegValid, RoomsValid;
      err := AddGuest(shortID, userID, deviceID);
      RegisterGuestSteps(old(State()), now, shortID, userID, deviceID, State().(now := now));
      Commit(old(State()), At(now, OpRegisterGuest(shortID, userID, deviceID)));
    }

    /** UnregisterGuestDevice's critical section. */
    method DropGuest(shortID: string)
      requires RegValid()
      modifies this`guestDevices, this`reg
      ensures RegValid()
      ensures State() == UnregisterGuest(old(State()), shortID)
    {
      hide MirrorsRooms, TracksServers;
      guestDevices := guestDevices - {shortID};
      reg := reg.(guests := guestDevices);
    }

    method UnregisterGuestDevice(shortID: string, now: int)
      requires Valid() && clock <= now
      modifies this`guestDevices, this`reg, this`clock
      ensures Valid()
      ensures Steps(old(State()), At(now, OpUnregisterGuest(shortID)), State())
    {
      hide Inv.Inv, Steps, TableValid, RegValid, RoomsValid;
      DropGuest(shortID);
      UnregisterGuestSteps(old(State()), now, shortID, State().(now := now));
      Commit(old(State()), At(now, OpUnregisterGuest(shortID)));
    }

    /** The retry loop of CreateRoom; "" means that every candidate was taken. */
    method FreeRoomID(candidates: seq<string>) returns (roomID: string)
      requires |candidates| == ROOM_ID_ATTEMPTS && "" !in candidates
      ensures match PickRoomID(rooms.Keys, candidates)
              case None => roomID == ""
              case Some(id) => roomID == id != "" && id !in rooms
    {
      roomID := "";
      var i := 0;
      while i < 10
        invariant 0 <= i <= 10 && roomID == ""
        invariant PickRoomID(rooms.Keys, candidates[i..]) == PickRoomID(rooms.Keys, candidates)
      {
        var candidate := candidates[i];
        if candidate !in rooms {
          roomID := candidate;
          break;
        }
        i := i + 1;
      }
    }

    static lemma InsertRoomMirror(objs: map<string, Room>, abs: map<string, RoomRef>, repr: set<Room>, room: Room)
      requires MirrorsRooms(objs, abs, repr) && room.id !in objs
      ensures MirrorsRooms(objs[room.id := room],
                           abs[room.id := RefOf(room)], repr + {room})
    {
    }

    static lemma RoomsGrow(repr: set<Room>, room: Room)
      requires RoomsValid(repr) && room.Valid() && room.seats == map[] && room.Repr == {}
      ensures RoomsValid(repr + {room})
    {
    }

    method PublishRoom(room: Room)
      requires RegValid() && RoomsValid(roomObjs) && room.id !in rooms
      requires room.Valid() && room.seats == map[] && room.Repr == {}
      modifies this`rooms, this`serverRooms, this`roomObjs, this`reg
      ensures RegValid() && RoomsValid(roomObjs) && roomObjs == old(roomObjs) + {room}
      ensures rooms == old(rooms)[room.id := room]
      ensures reg == old(reg).(rooms := old(reg).rooms[room.id := RefOf(room)],
                               serverRooms := old(reg).serverRooms[room.deviceID := room.id])
    {
      hide MirrorsRooms, TracksServers, RoomsValid;
      RoomsGrow(roomObjs, room);
      InsertRoomMirror(rooms, reg.rooms, roomObjs, room);
      rooms := rooms[room.id := room];
      serverRooms := serverRooms[room.deviceID := room.id];
      roomObjs := roomObjs + {room};
      reg := reg.(rooms := reg.rooms[room.id := RefOf(room)], serverRooms := serverRooms);
    }

    /** A room as it leaves NewRoom: open, with nobody seated and nothing allocated yet. */
    static ghost predicate IsNew(room: Room, deviceID: string, ownerUserID: string)
      reads room`closed, room`seats, room`Repr
    {
      && room.deviceID == deviceID && room.Repr == {}
      && room.View() == RoomModel.State(ownerUserID, DEFAULT_ROOM_ADMISSION_TTL, false, map[])
    }

    /** candidates are what GenerateRoomID would return, call by call. */
    method CreateRoom(deviceID: string, ownerUserID: string, candidates: seq<string>, now: int)
        returns (room: Room?, err: Option<Error>)
      requires Valid() && clock <= now && |candidates| == ROOM_ID_ATTEMPTS && "" !in candidates
      modifies this`rooms, this`serverRooms, this`roomObjs, this`reg, this`clock
      ensures Valid() && fresh(roomObjs - old(roomObjs)) && KeepsRooms()
      ensures Steps(old(State()), At(now, OpCreateRoom(deviceID, ownerUserID, candidates)), State())
      ensures err == CreateRoomError(old(State()), deviceID, ownerUserID, candidates)
      ensures err.None? <==> room != null
      ensures room == null ==> rooms == old(rooms)
      ensures room != null ==> room.id !in old(rooms) && rooms == old(rooms)[room.id := room]
      ensures room != null ==> fresh(room) && room in roomObjs && IsNew(room, deviceID, ownerUserID)
    {
      hide Inv.Inv, Steps, TableValid, RegValid, RoomsValid, PickRoomID, IsNew;
      room, err := MakeRoom(deviceID, ownerUserID, candidates);
      CreateRoomSteps(old(State()), now, deviceID, ownerUserID, candidates, State().(now := now));
      Commit(old(State()), At(now, OpCreateRoom(deviceID, ownerUserID, candidates)));
    }

    method MakeRoom(deviceID: string, ownerUserID: string, candidates: seq<string>)
        returns (room: Room?, err: Option<Error>)
      requires RegValid() && RoomsValid(roomObjs) && |candidates| == ROOM_ID_ATTEMPTS && "" !in candidates
      modifies this`rooms, this`serverRooms, this`roomObjs, this`reg
      ensures RegValid() && RoomsValid(roomObjs) && fresh(roomObjs - old(roomObjs))
      ensures State() == HubModel.CreateRoom(old(State()), deviceID, ownerUserID, candidates)
      ensures err == CreateRoomError(old(State()), deviceID, ownerUserID, candidates)
      ensures err.None? <==> room != null
      ensures room == null ==> rooms == old(rooms)
      ensures room != null ==> room.id !in old(rooms) && rooms == old(rooms)[room.id := room]
      ensures room != null ==> fresh(room) && room in roomObjs && IsNew(room, deviceID, ownerUserID)
    {
      hide RegValid, RoomsValid, PickRoomID;
      RegFields();
      room := null;
      if deviceID !in onlineServers {
        return null, Some(ErrServerOffline);
      }
      var server := onlineServers[deviceID];
      if server.userID != ownerUserID {
        return null, Some(ErrNotOwner);
      }
      if deviceID in serverRooms {
        return null, Some(ErrRoomAlreadyExists);
      }
      var roomID := FreeRoomID(candidates);
      if roomID == "" {
        return null, Some(ErrShortIDConflict);
      }
      room := new Room(roomID, deviceID, ownerUserID, server, DEFAULT_ROOM_ADMISSION_TTL);
      PublishRoom(room);
      err := None;
    }

    /** markClosed, and the removal from rooms. */
    method CloseAndForget(roomID: string) returns (room: Room)
      requires RegValid() && RoomsValid(roomObjs) && roomID in rooms
      modifies this`rooms, this`reg, RoomUnder(roomID)`closed
      ensures RegValid() && RoomsValid(roomObjs) && rooms == old(rooms) - {roomID}
      ensures room == old(rooms)[roomID] && room in roomObjs && room.id == roomID
      ensures roomID in old(reg).rooms && room.deviceID == old(reg).rooms[roomID].deviceID
      ensures reg == old(reg).(rooms := old(reg).rooms - {roomID})
    {
      hide MirrorsRooms, TracksServers, RoomsValid;
      RoomAt(rooms, reg.rooms, roomObjs, roomID);
      room := rooms[roomID];
      room.MarkClosed();
      OneRoomLeaves(room);
      DropRoom(roomID);
    }

    /** markClosed and the two deletes, under the lock. */
    method RemoveRoomLocked(roomID: string) returns (room: Room?)
      requires RegValid() && RoomsValid(roomObjs)
      modifies this`rooms, this`serverRooms, this`reg, RoomUnder(roomID)`closed
      ensures RegValid() && RoomsValid(roomObjs)
      ensures room == if roomID in old(rooms) then old(rooms)[roomID] else null
      ensures room != null ==> room in roomObjs
      ensures rooms == old(rooms) - {roomID}
      ensures State() == HubModel.RemoveRoom(old(State()), roomID)
    {
      hide RegValid, RoomsValid;
      RegFields();
      room := null;
      if roomID in rooms {
        room := CloseAndForget(roomID);
        ForgetRoom(room.deviceID);
      }
    }

    /** A room that is not registered may change without the registry noticing. */
    twostate lemma UnlistedMayChange(room: Room)
      requires old(RegValid()) && room.id !in rooms
      requires rooms == old(rooms) && roomObjs == old(roomObjs) && reg == old(reg)
      requires forall o | o in roomObjs && o != room :: unchanged(o)
      ensures MirrorsRooms(rooms, reg.rooms, roomObjs)
    {
      assert forall id :: id in rooms ==> rooms[id] != room;
    }

    /** CloseAllClients on a room that is not registered any more, after unlocking. */
    method EmptyRemoved(room: Room?) returns (kicked: map<string, Connection>)
      requires RegValid() && RoomsValid(roomObjs) && (room != null ==> room in roomObjs && room.id !in rooms)
      modifies (if room != null then {room} else {})`closed, (if room != null then {room} else {})`clients
      modifies (if room != null then {room} else {})`admissions, (if room != null then {room} else {})`seats
      ensures RegValid() && RoomsValid(roomObjs)
      ensures EmptiedAndClosed(if room != null then {room} else {})
      ensures kicked == if room != null then RoomModel.AttachedConns(old(room.seats)) else map[]
    {
      hide MirrorsRooms, TracksServers, RoomsValid, EmptiedAndClosed, RoomModel.AttachedConns;
      kicked := map[];
      if room != null {
        kicked := EmptyRoom(room);
        UnlistedMayChange(room);
      } else {
        NoneEmptied();
      }
    }

    /** RemoveRoom while it holds the lock. */
    method Unlist(roomID: string, now: int) returns (room: Room?)
      requires Valid() && clock <= now
      modifies this`rooms, this`serverRooms, this`reg, this`clock, RoomUnder(roomID)`closed
      ensures Valid() && rooms == old(rooms) - {roomID}
      ensures Steps(old(State()), At(now, OpRemoveRoom(roomID)), State())
      ensures room == if roomID in old(rooms) then old(rooms)[roomID] else null
      ensures room != null ==> room in roomObjs && room.id == roomID
    {
      hide Inv.Inv, Steps, TableValid, RegValid, RoomsValid;
      OneID();
      room := RemoveRoomLocked(roomID);
      RemoveRoomSteps(old(State()), now, roomID, State().(now := now));
      Commit(old(State()), At(now, OpRemoveRoom(roomID)));
    }

    method RemoveRoom(roomID: string, now: int) returns (kicked: map<string, Connection>)
      requires Valid() && clock <= now
      modifies this`rooms, this`serverRooms, this`reg, this`clock
      modifies RoomUnder(roomID)`closed, RoomUnder(roomID)`clients
      modifies RoomUnder(roomID)`admissions, RoomUnder(roomID)`seats
      ensures Valid() && KeepsRooms() && rooms == old(rooms) - {roomID}
      ensures Steps(old(State()), At(now, OpRemoveRoom(roomID)), State())
      ensures EmptiedAndClosed(old(RoomUnder(roomID)))
      ensures kicked == if roomID in old(rooms) then RoomModel.AttachedConns(old(rooms[roomID].seats)) else map[]
    {
      hide Inv.Inv, Steps, TableValid, RegValid, RoomsValid, EmptiedAndClosed;
      OneID();
      var room := Unlist(roomID, now);
      kicked := EmptyRemoved(room);
    }

    /** A room is registered under its own id only. */
    lemma OneID()
      requires RegValid()
      ensures forall id :: id in rooms ==> rooms[id].id == id
    {
    }

    method PruneRoom(room: Room, now: int) returns (removed: nat)
      requires RoomsValid(roomObjs) && room in roomObjs
      modifies room`admissions, room`clients, room`seats
      ensures RoomsValid(roomObjs)
      ensures room.View() == RoomModel.PruneAt(old(room.View()), now)
      ensures removed == |old(room.seats)| - |room.seats|
    {
      hide RoomModel.PruneAt, RoomModel.SeatsOk;
      RoomModel.CallKeepsInv(room.View(), RoomModel.Prune(now));
      removed := room.PruneExpiredAdmissions(now);
      OthersStayValid(room);
    }

    lemma RoomIds()
      requires RegValid()
      ensures forall id :: id in rooms ==> rooms[id].id == id && rooms[id] in roomObjs
    {
    }

    ghost function SeatsOf(): map<string, RoomModel.Seats>
      reads this`rooms, rooms.Values`seats
    {
      map id | id in rooms :: rooms[id].seats
    }

    /** The rooms in todo are still as they were at the start of a sweep; the others have been pruned. */
    ghost predicate SweptUpTo(start: map<string, RoomModel.Seats>, todo: set<string>, now: int)
      reads this`rooms, rooms.Values`seats
    {
      SeatsOf() == RoomModel.Swept(start, todo, now)
    }

    method PruneNext(id: string, now: int, ghost start: map<string, RoomModel.Seats>, ghost todo: set<string>)
        returns (removed: nat)
      requires RoomsValid(roomObjs) && forall k :: k in rooms ==> rooms[k].id == k && rooms[k] in roomObjs
      requires id in todo && todo <= rooms.Keys && SweptUpTo(start, todo, now)
      modifies RoomUnder(id)`admissions, RoomUnder(id)`clients, RoomUnder(id)`seats
      ensures RoomsValid(roomObjs) && SweptUpTo(start, todo - {id}, now)
      ensures id in start && removed == |start[id]| - |RoomModel.LiveSeats(start[id], now)|
    {
      hide RoomsValid, RoomModel.LiveSeats;
      assert rooms.Keys == SeatsOf().Keys == start.Keys;
      assert start[id] == SeatsOf()[id];
      removed := PruneRoom(rooms[id], now);
    }

    /** Prunes the rooms of one snapshot, one after the other, and counts the admissions that went; the hub
        itself stays as it is. */
    method CleanupRoomAdmissions(now: int) returns (removed: nat)
      requires Valid()
      modifies rooms.Values`admissions, rooms.Values`clients, rooms.Values`seats
      ensures Valid()
      ensures forall id :: id in rooms ==> rooms[id].View() == RoomModel.PruneAt(old(rooms[id].View()), now)
      ensures removed == |RoomModel.Admissions(old(SeatsOf()))| - |RoomModel.Admissions(SeatsOf())|
    {
      hide TableValid, RegValid, RoomsValid, Inv.Inv, RoomModel.LiveSeats, RoomModel.Admissions, RoomModel.Swept;
      RoomIds();
      removed := 0;
      ghost var start := SeatsOf();
      var todo := rooms.Keys;
      RoomModel.SweptAll(start, now);
      assert start.Keys == todo;
      while todo != {}
        invariant RoomsValid(roomObjs) && todo <= rooms.Keys && SweptUpTo(start, todo, now)
        invariant removed == |RoomModel.Admissions(start)| - |RoomModel.Admissions(RoomModel.Swept(start, todo, now))|
        decreases todo
      {
        var id :| id in todo;
        RoomModel.SweepOne(start, todo, now, id);
        var n := PruneNext(id, now, start, todo);
        todo := todo - {id};
        removed := removed + n;
      }
      assert forall id :: id in rooms ==> SeatsOf()[id] == RoomModel.LiveSeats(start[id], now);
    }

    // --- Calls on the hub's rooms, which go past the hub ---

    method Reserve(room: Room, clientID: string, client: RoomModel.Client, now: int)
        returns (completed: RoomModel.Client, err: Option<Error>)
      requires Valid() && room in roomObjs
      modifies room`admissions, room`clients, room`seats, room`Repr
      ensures Valid() && State() == old(State()) && Reseats(room)
      ensures fresh(room.Repr - old(room.Repr))
      ensures (room.View(), Room.ReserveOutcome(completed, err))
              == RoomModel.ReserveCall(old(room.View()), now, clientID, client)
    {
      hide Reseats, TableValid, RegValid, RoomsValid, Inv.Inv, RoomModel.ReserveCall, Room.ReserveOutcome;
      hide RoomModel.SeatsOk;
      IsValid(room);
      RoomIds();
      RoomModel.CallKeepsInv(room.View(), RoomModel.Op.Reserve(now, clientID, client));
      completed, err := room.ReserveClient(clientID, client, now);
      RoomCallKeepsValid(room);
      NobodyElseMoves(room);
    }

    method Attach(room: Room, clientID: string, conn: Connection, now: int, ghost holder: Connection?)
        returns (client: RoomClient?, replaced: Connection?, err: Option<Error>)
      requires Valid() && room in roomObjs
      requires holder == room.HolderOf(clientID) && (holder != null ==> holder.Valid())
      modifies room`admissions, room`clients, room`seats, room.Repr, holder
      ensures Valid() && State() == old(State()) && Reseats(room)
      ensures if err == None then client != null && clientID in room.clients && client == room.clients[clientID]
              else client == null
      ensures (room.View(), Room.AttachOutcome(client, replaced, err))
              == RoomModel.AttachCall(old(room.View()), now, clientID, conn)
      ensures replaced == if err == None && holder != conn then holder else null
      ensures err == None ==> room.HolderOf(clientID) == conn
      ensures holder != null ==>
                && holder.Valid()
                && holder.View() == if replaced == holder then AfterClose(old(holder.View())) else old(holder.View())
    {
      hide Reseats, TableValid, RegValid, RoomsValid, Inv.Inv, RoomModel.AttachCall, Room.AttachOutcome;
      hide RoomModel.SeatsOk, AfterClose, Room.HolderOf, Connection.Valid, Connection.View;
      IsValid(room);
      RoomIds();
      RoomModel.CallKeepsInv(room.View(), RoomModel.Op.Attach(now, clientID, conn));
      client, replaced, err := room.AttachClient(clientID, conn, now, holder);
      RoomCallKeepsValid(room);
      NobodyElseMoves(room);
    }

    method Detach(room: Room, clientID: string, expectedConn: Connection, now: int) returns (ok: bool)
      requires Valid() && room in roomObjs && expectedConn.Valid()
      modifies room`clients, room`seats, room.Repr, expectedConn
      ensures Valid() && State() == old(State()) && Reseats(room)
      ensures expectedConn.Valid()
      ensures (room.View(), RoomModel.Answer(ok)) == RoomModel.RemoveCall(old(room.View()), now, clientID, expectedConn)
      ensures expectedConn.View() == if ok then AfterClose(old(expectedConn.View())) else old(expectedConn.View())
      ensures ok <==> old(room.HolderOf(clientID)) == expectedConn
      ensures ok ==> room.HolderOf(clientID) == null && clientID !in room.clients
      ensures room.id in rooms && rooms[room.id] == room ==>
                && room.id in old(Seating())
                && Seating() == if ok then old(Seating())[room.id := old(Seating())[room.id] - {clientID}]
                                else old(Seating())
    {
      hide RoomModel.AttachedConns, Room.HolderOf, Seating;
      hide TableValid, RegValid, RoomsValid, Inv.Inv, RoomModel.RemoveCall, RoomModel.SeatsOk, AfterClose;
      IsValid(room);
      RoomIds();
      SeatingAt();
      ghost var seating := Seating();
      RoomModel.CallKeepsInv(room.View(), RoomModel.Op.Remove(now, clientID, expectedConn));
      ok := room.RemoveClient(clientID, expectedConn, now);
      RoomCallKeepsValid(room);
      NobodyElseMoves(room);
      Unmoved(seating, room.id);
    }

    static lemma Unmoved(seating: map<string, map<string, Connection>>, id: string)
      ensures id in seating ==> seating[id := seating[id]] == seating
    {
    }

    lemma IsValid(room: Room)
      requires Valid() && room in roomObjs
      ensures room.Valid() && RoomModel.Inv(room.View())
    {
    }
  }
}
