/**
 What each step of the hub does, read off the fields of the states before and after it. The statements use
 none of HubModel's functions: they describe those functions from outside.
 */
module HubEffects {
  import opened Common
  import opened Connections
  import opened Servers
  import opened Rooms
  import opened HubModel
  import opened HubInvariants
  import opened HubRuns

  // --- The words of the statements ---

  /** A callback of this side of the session that was not stopped. */
  predicate Pending(cs: map<nat, Callback>, k: nat, id: string, side: Side) {
    k in cs && cs[k].sessionID == id && cs[k].side == side && !cs[k].stopped
  }

  ghost predicate NonePending(cs: map<nat, Callback>, id: string, side: Side) {
    forall k :: !Pending(cs, k, id, side)
  }

  ghost predicate SamePending(before: map<nat, Callback>, after: map<nat, Callback>, id: string, side: Side) {
    forall k :: Pending(before, k, id, side) || Pending(after, k, id, side) ==>
      k in before && k in after && before[k] == after[k]
  }

  ghost predicate OnlyPending(cs: map<nat, Callback>, k: nat, id: string, side: Side, gen: nat, deadline: int) {
    && k in cs && cs[k] == Callback(id, side, gen, deadline, false)
    && forall j :: Pending(cs, j, id, side) ==> j == k
  }

  /** A registered session and its pending callbacks are as they were. */
  ghost predicate Kept(t: Table, u: Table, id: string) {
    && id in t.sessions && id in u.sessions && u.sessions[id] == t.sessions[id]
    && SamePending(t.callbacks, u.callbacks, id, ClientSide) && SamePending(t.callbacks, u.callbacks, id, ServerSide)
  }

  /** The client side has gone stale: no connection, next generation, and a timer that is its only pending one. */
  ghost predicate ClientDropped(t: Table, u: Table, id: string, deadline: int)
    requires id in t.sessions && id in u.sessions
  {
    var x, y := t.sessions[id], u.sessions[id];
    && y == x.(clientConn := null, client := y.client)
    && y.client.stale && y.client.gen == x.client.gen + 1 && y.client.timer.Some?
    && OnlyPending(u.callbacks, y.client.timer.value, id, ClientSide, x.client.gen + 1, deadline)
    && SamePending(t.callbacks, u.callbacks, id, ServerSide)
  }

  ghost predicate ServerDropped(t: Table, u: Table, id: string, deadline: int)
    requires id in t.sessions && id in u.sessions
  {
    var x, y := t.sessions[id], u.sessions[id];
    && y == x.(serverConn := null, server := y.server)
    && y.server.stale && y.server.gen == x.server.gen + 1 && y.server.timer.Some?
    && OnlyPending(u.callbacks, y.server.timer.value, id, ServerSide, x.server.gen + 1, deadline)
    && SamePending(t.callbacks, u.callbacks, id, ClientSide)
  }

  /** Since when a session has been in the stale index, if it is put there at `now`. */
  function Since(stale: map<string, int>, id: string, now: int): int {
    if id in stale then stale[id] else now
  }

  /** id enters the stale index at `now`, and one of the oldest entries leaves the hub if there are too many. */
  ghost predicate Indexes(t: Table, u: Table, id: string, now: int, cap: nat, victim: string, reason: Reason) {
    var marked := t.stale.Keys + {id};
    && (forall k :: k in u.stale ==> u.stale[k] == Since(t.stale, k, now))
    && u.sent == t.sent
    && if |marked| <= cap
       then
         && u.sessions.Keys == t.sessions.Keys && u.stale.Keys == marked
         && u.departed == t.departed && u.owed == t.owed
       else
         && victim in marked && victim in t.sessions
         && (forall k :: k in marked ==> Since(t.stale, victim, now) <= Since(t.stale, k, now))
         && u.sessions.Keys == t.sessions.Keys - {victim} && u.stale.Keys == marked - {victim}
         && victim in u.departed && u.departed[victim].reason == reason
         && u.departed == t.departed[victim := u.departed[victim]]
         && u.owed == (if reason.CapExceeded? then t.owed + multiset{victim} else t.owed)
         && NonePending(u.callbacks, victim, ClientSide) && NonePending(u.callbacks, victim, ServerSide)
  }

  /** Exactly this session leaves, as it was but for its grace. */
  ghost predicate Leaves(t: Table, u: Table, id: string, reason: Reason, owes: bool) {
    && id in t.sessions && u.sessions == t.sessions - {id} && u.stale == t.stale - {id}
    && id in u.departed && u.departed == t.departed[id := u.departed[id]] && u.departed[id].reason == reason
    && u.departed[id].sess
       == t.sessions[id].(client := u.departed[id].sess.client, server := u.departed[id].sess.server)
    && u.owed == (if owes then t.owed + multiset{id} else t.owed) && u.sent == t.sent && u.nextTimer == t.nextTimer
  }

  /** Everything of the device is gone, and nothing of any other. */
  ghost predicate Offline(r: Registry, u: Registry, d: string) {
    && u.servers == r.servers - {d} && u.serverGen == r.serverGen
    && u.closedServers == (if d in r.servers then r.closedServers + {r.servers[d]} else r.closedServers)
    && u.guests == (map g | g in r.guests && r.guests[g].deviceID != d :: r.guests[g])
    && u.rooms == (map id | id in r.rooms && r.rooms[id].deviceID != d :: r.rooms[id])
    && u.serverRooms == r.serverRooms - {d}
  }

  // --- Pending callbacks follow the sides they belong to ---

  /** The pending callbacks of a registered session's side are the timer it owns, if it is stale. */
  lemma PendingIsOwn(t: Table, id: string, side: Side)
    requires TimersOk(t) && id in t.sessions
    ensures forall k: nat :: Pending(t.callbacks, k, id, side) <==>
              SideOf(t.sessions[id], side).stale && SideOf(t.sessions[id], side).timer == Some(k)
    ensures forall k: nat :: Pending(t.callbacks, k, id, side) ==>
              t.callbacks[k].gen == SideOf(t.sessions[id], side).gen
  {
    assert SideOk(t, id, side);
    forall k: nat | Pending(t.callbacks, k, id, side)
      ensures SideOf(t.sessions[id], side).stale && SideOf(t.sessions[id], side).timer == Some(k)
    {
      assert CallbackOk(t, k);
    }
  }

  lemma PendingFollows(t: Table, u: Table, id: string, side: Side, due: int)
    requires TimersOk(t) && TimersOk(u) && id in t.sessions && id in u.sessions
    requires SideOf(t.sessions[id], side) == SideOf(u.sessions[id], side)
    requires Follows(t.callbacks, u.callbacks, t.nextTimer, due)
    ensures SamePending(t.callbacks, u.callbacks, id, side)
  {
    PendingIsOwn(t, id, side);
    PendingIsOwn(u, id, side);
    hide TimersOk;
    forall k: nat | Pending(t.callbacks, k, id, side) || Pending(u.callbacks, k, id, side)
      ensures k in t.callbacks && k in u.callbacks && t.callbacks[k] == u.callbacks[k]
    {
      assert Pending(t.callbacks, k, id, side) && Pending(u.callbacks, k, id, side);
    }
  }

  lemma TimersBeforeAndAfter(s: State, e: Event, t: State)
    requires Inv(s) && Steps(s, e, t)
    ensures TimersOk(s.tab) && TimersOk(t.tab) && s.tab.nextTimer !in s.tab.callbacks
    ensures Follows(s.tab.callbacks, t.tab.callbacks, s.tab.nextTimer, e.now + s.grace)
  {
    StepInv(s, e, t);
    InvParts(s);
    InvParts(t);
    NextTimerIsNew(s.tab);
    hide Inv, TimersOk, Follows;
    CallbackBefore(s, e);
  }

  lemma NextTimerIsNew(t: Table)
    requires TimersOk(t)
    ensures t.nextTimer !in t.callbacks
  {
  }

  /** A side whose grace is as it was has the pending callbacks it had. */
  lemma PendingKept(s: State, e: Event, t: State, id: string, side: Side)
    requires Inv(s) && Steps(s, e, t) && id in s.tab.sessions && id in t.tab.sessions
    requires SideOf(s.tab.sessions[id], side) == SideOf(t.tab.sessions[id], side)
    ensures SamePending(s.tab.callbacks, t.tab.callbacks, id, side)
  {
    hide Inv, Steps, TimersOk, Follows, SamePending;
    TimersBeforeAndAfter(s, e, t);
    PendingFollows(s.tab, t.tab, id, side, e.now + s.grace);
  }

  lemma KeptIfSame(s: State, e: Event, t: State, id: string)
    requires Inv(s) && Steps(s, e, t) && id in s.tab.sessions && id in t.tab.sessions
    requires s.tab.sessions[id] == t.tab.sessions[id]
    ensures Kept(s.tab, t.tab, id)
  {
    hide Inv, Steps, SamePending;
    PendingKept(s, e, t, id, ClientSide);
    PendingKept(s, e, t, id, ServerSide);
  }

  lemma CalmNonePending(s: State, e: Event, t: State, id: string, side: Side)
    requires Inv(s) && Steps(s, e, t) && id in t.tab.sessions && !SideOf(t.tab.sessions[id], side).stale
    ensures NonePending(t.tab.callbacks, id, side)
  {
    hide Inv, Steps, TimersOk, Follows;
    TimersBeforeAndAfter(s, e, t);
    PendingIsOwn(t.tab, id, side);
  }

  /** The timer of a side that has just gone stale is its only pending one, due one grace period later. */
  lemma NewTimer(s: State, e: Event, t: State, id: string, side: Side)
    requires Inv(s) && Steps(s, e, t) && id in t.tab.sessions
    requires SideOf(t.tab.sessions[id], side).stale && SideOf(t.tab.sessions[id], side).timer == Some(s.tab.nextTimer)
    ensures OnlyPending(t.tab.callbacks, s.tab.nextTimer, id, side, SideOf(t.tab.sessions[id], side).gen,
                        e.now + s.grace)
  {
    hide Inv, Steps, TimersOk;
    TimersBeforeAndAfter(s, e, t);
    PendingIsOwn(t.tab, id, side);
    assert Pending(t.tab.callbacks, s.tab.nextTimer, id, side);
  }

  // --- Drops ---

  /** A session that left had its timers stopped. */
  lemma ClearedNonePending(t: Table, id: string)
    requires TimersOk(t) && id in t.sessions
    ensures NonePending(ClearGrace(t, id).callbacks, id, ClientSide)
    ensures NonePending(ClearGrace(t, id).callbacks, id, ServerSide)
  {
    ClearGraceTimers(t, id);
    var u := ClearGrace(t, id);
    assert id in u.sessions && !u.sessions[id].client.stale && !u.sessions[id].server.stale;
    hide ClearGrace, TimersOk;
    PendingIsOwn(u, id, ClientSide);
    PendingIsOwn(u, id, ServerSide);
  }

  lemma ClearGraceFrame(t: Table, id: string)
    requires id in t.sessions
    ensures var u := ClearGrace(t, id);
      && u == t.(sessions := u.sessions, callbacks := u.callbacks)
      && u.sessions.Keys == t.sessions.Keys
  {
  }

  lemma TrackedKeys(stale: map<string, int>, id: string, now: int)
    ensures Track(stale, id, now).Keys == stale.Keys + {id}
    ensures forall k :: k in Track(stale, id, now) ==> Track(stale, id, now)[k] == Since(stale, k, now)
  {
  }

  lemma Oldest(stale: map<string, int>, id: string, now: int, victim: string)
    requires IsOldest(Track(stale, id, now), victim)
    ensures forall k :: k in stale.Keys + {id} ==> Since(stale, victim, now) <= Since(stale, k, now)
  {
    TrackedKeys(stale, id, now);
  }

  lemma DepartFrame(t: Table, id: string, reason: Reason)
    requires id in t.sessions
    ensures var u := Depart(t, id, reason);
      && u.sessions.Keys == t.sessions.Keys - {id} && u.stale.Keys == t.stale.Keys - {id}
      && (forall k :: k in u.stale ==> u.stale[k] == t.stale[k])
      && id in u.departed && u.departed[id].reason == reason && u.departed == t.departed[id := u.departed[id]]
      && u.callbacks == t.callbacks && u.sent == t.sent
      && (reason.CapExceeded? ==> u.owed == t.owed + multiset{id}) && (reason.EvictedItself? ==> u.owed == t.owed)
  {
  }

  lemma DepartedIndexes(t: Table, cleared: Table, id: string, now: int, cap: nat, victim: string, reason: Reason)
    requires reason.CapExceeded? || reason.EvictedItself?
    requires |t.stale.Keys + {id}| > cap && victim in t.stale.Keys + {id} && victim in t.sessions
    requires forall k :: k in t.stale.Keys + {id} ==> Since(t.stale, victim, now) <= Since(t.stale, k, now)
    requires cleared.sessions.Keys == t.sessions.Keys && cleared.stale.Keys == t.stale.Keys + {id}
    requires forall k :: k in cleared.stale ==> cleared.stale[k] == Since(t.stale, k, now)
    requires cleared.departed == t.departed && cleared.owed == t.owed && cleared.sent == t.sent
    requires NonePending(cleared.callbacks, victim, ClientSide) && NonePending(cleared.callbacks, victim, ServerSide)
    ensures Indexes(t, Depart(cleared, victim, reason), id, now, cap, victim, reason)
  {
    hide NonePending, Since, Depart;
    DepartFrame(cleared, victim, reason);
  }

  lemma EvictionIndexes(t: Table, id: string, now: int, cap: nat, victim: string, reason: Reason)
    requires TimersOk(t) && (reason.CapExceeded? || reason.EvictedItself?)
    requires Overflows(t, id, now, cap) ==> victim in t.sessions && IsOldest(Track(t.stale, id, now), victim)
    ensures Indexes(t, TrackAndEvict(t, id, now, cap, victim, reason), id, now, cap, victim, reason)
  {
    var tracked := t.(stale := Track(t.stale, id, now));
    TrackedKeys(t.stale, id, now);
    assert |tracked.stale.Keys| == |tracked.stale|;
    if |tracked.stale| > cap {
      SameTimers(t, tracked);
      ClearedNonePending(tracked, victim);
      ClearGraceFrame(tracked, victim);
      Oldest(t.stale, id, now, victim);
      DepartedIndexes(t, ClearGrace(tracked, victim), id, now, cap, victim, reason);
    }
    hide TimersOk, NonePending, ClearGrace, Track, IsOldest, Depart;
  }

  /** Indexes looks at the ids, the index and the ledger only. */
  lemma IndexesOf(t: Table, marked: Table, u: Table, id: string, now: int, cap: nat, victim: string, reason: Reason)
    requires Indexes(marked, u, id, now, cap, victim, reason)
    requires marked.stale == t.stale && marked.sessions.Keys == t.sessions.Keys && marked.departed == t.departed
    requires marked.owed == t.owed && marked.sent == t.sent
    ensures Indexes(t, u, id, now, cap, victim, reason)
  {
    hide NonePending;
  }

  lemma MarkSideFrame(t: Table, id: string, side: Side, deadline: int)
    requires id in t.sessions
    ensures var u := MarkSide(t, id, side, deadline);
      && u.stale == t.stale && u.sessions.Keys == t.sessions.Keys && u.departed == t.departed
      && u.owed == t.owed && u.sent == t.sent
  {
  }

  lemma MarkedIndexes(t: Table, id: string, side: Side, now: int, grace: int, cap: nat, victim: string, reason: Reason)
    requires TimersOk(t) && IndexOk(t, cap, now) && id in t.sessions && GoodVictim(t, id, now, cap, victim)
    requires reason.CapExceeded? || reason.EvictedItself?
    ensures Indexes(t, MarkStale(t, id, side, now, grace, cap, victim, reason), id, now, cap, victim, reason)
  {
    hide TimersOk, IndexOk, Indexes, MarkSide, TrackAndEvict, Track, IsOldest;
    var marked := MarkSide(t, id, side, now + grace);
    MarkStaleIndex(t, id, side, now, grace, cap, victim, reason);
    MarkSideTimers(t, id, side, now + grace);
    MarkSideFrame(t, id, side, now + grace);
    EvictionIndexes(marked, id, now, cap, victim, reason);
    IndexesOf(t, marked, MarkStale(t, id, side, now, grace, cap, victim, reason), id, now, cap, victim, reason);
  }

  lemma MarkSideSession(t: Table, id: string, side: Side, deadline: int)
    requires id in t.sessions
    ensures id in MarkSide(t, id, side, deadline).sessions
    ensures var x, y := t.sessions[id], MarkSide(t, id, side, deadline).sessions[id];
      && (side.ClientSide? ==>
            y == x.(clientConn := null, client := Grace(true, x.client.gen + 1, Some(t.nextTimer))))
      && (side.ServerSide? ==>
            y == x.(serverConn := null, server := Grace(true, x.server.gen + 1, Some(t.nextTimer))))
  {
  }

  /** Everybody a step keeps unchanged is kept with its pending callbacks. */
  lemma OthersKept(s: State, e: Event, t: State, id: string)
    requires Inv(s) && Steps(s, e, t)
    requires forall k :: k in t.tab.sessions && k != id ==>
               k in s.tab.sessions && t.tab.sessions[k] == s.tab.sessions[k]
    ensures forall k :: k in t.tab.sessions && k != id ==> Kept(s.tab, t.tab, k)
  {
    hide Inv, Steps, Kept;
    forall k | k in t.tab.sessions && k != id ensures Kept(s.tab, t.tab, k) {
      KeptIfSame(s, e, t, k);
    }
  }

  lemma AllKept(s: State, e: Event, t: State)
    requires Inv(s) && Steps(s, e, t)
    requires forall k :: k in t.tab.sessions ==> k in s.tab.sessions && t.tab.sessions[k] == s.tab.sessions[k]
    ensures forall k :: k in t.tab.sessions ==> Kept(s.tab, t.tab, k)
  {
    hide Inv, Steps, Kept;
    forall k | k in t.tab.sessions ensures Kept(s.tab, t.tab, k) {
      KeptIfSame(s, e, t, k);
    }
  }

  lemma ClientDropMarks(s: State, e: Event, t: State)
    requires Steps(s, e, t) && e.op.OpMarkClientStale?
    ensures var id := e.op.id; var reason := if e.op.victim == id then EvictedItself else CapExceeded;
      if id in s.tab.sessions && s.tab.sessions[id].clientConn == e.op.expected then
        && GoodVictim(s.tab, id, e.now, s.cap, e.op.victim)
        && t == s.(now := e.now, tab := MarkStale(s.tab, id, ClientSide, e.now, s.grace, s.cap, e.op.victim, reason))
      else t == s.(now := e.now)
  {
    hide GoodVictim, MarkStale;
  }

  lemma OneSession(s: State, id: string)
    requires Inv(s) && id in s.tab.sessions
    ensures DeviceSession(s.tab, s.tab.sessions[id].deviceID) == Some(id)
  {
    assert ForDevice(s.tab, id, s.tab.sessions[id].deviceID);
    InvParts(s);
    hide TimersOk, IndexOk, LedgerOk, RegistryOk, Presence, Inv;
  }

  lemma ServerDropMarks(s: State, e: Event, t: State, id: string)
    requires Inv(s) && Steps(s, e, t) && e.op.OpRemoveServerConn?
    requires id in s.tab.sessions && s.tab.sessions[id].deviceID == e.op.server.deviceID
    requires e.op.server.deviceID in s.reg.servers && s.reg.servers[e.op.server.deviceID] == e.op.server
    ensures GoodVictim(s.tab, id, e.now, s.cap, e.op.victim)
    ensures t.tab == MarkStale(s.tab, id, ServerSide, e.now, s.grace, s.cap, e.op.victim, CapExceeded)
  {
    hide GoodVictim, MarkStale, Inv, DeviceSession, CleanupDevice, UnregisterServer;
    OneSession(s, id);
    assert DeviceSession(s.(now := e.now).tab, e.op.server.deviceID) == Some(id);
  }

  lemma TableAt(s: State, now: int)
    requires Inv(s) && s.now <= now
    ensures TimersOk(s.tab) && IndexOk(s.tab, s.cap, now)
  {
    LaterInv(s, now);
    InvParts(s.(now := now));
  }

  /** What the marking of one side does to the sessions, and to nobody's pending callbacks but its own. */
  lemma MarkedSide(s: State, e: Event, t: State, id: string, side: Side, victim: string, reason: Reason)
    requires Inv(s) && Steps(s, e, t) && s.now <= e.now && id in s.tab.sessions
    requires GoodVictim(s.tab, id, e.now, s.cap, victim) && (reason.CapExceeded? || reason.EvictedItself?)
    requires t.tab == MarkStale(s.tab, id, side, e.now, s.grace, s.cap, victim, reason)
    ensures Indexes(s.tab, t.tab, id, e.now, s.cap, victim, reason)
    ensures forall k :: k in t.tab.sessions && k != id ==> Kept(s.tab, t.tab, k)
    ensures id in t.tab.sessions ==>
              if side.ClientSide? then ClientDropped(s.tab, t.tab, id, e.now + s.grace)
              else ServerDropped(s.tab, t.tab, id, e.now + s.grace)
  {
    hide Inv, Steps, MarkStale, MarkSide, Indexes, GoodVictim, TimersOk, IndexOk, Kept, SamePending;
    TableAt(s, e.now);
    MarkedIndexes(s.tab, id, side, e.now, s.grace, s.cap, victim, reason);
    MarkStaleSessions(s.tab, id, side, e.now, s.grace, s.cap, victim, reason);
    MarkSideSession(s.tab, id, side, e.now + s.grace);
    OthersKept(s, e, t, id);
    if id in t.tab.sessions {
      NewTimer(s, e, t, id, side);
      PendingKept(s, e, t, id, if side.ClientSide? then ServerSide else ClientSide);
    }
  }

  /** A drop of the client's bound connection opens the client's window: the side is stale in the next
      generation, with one pending timer, due one grace period later. The session stays, unless it is itself
      the oldest entry of an index that is full. Nobody else changes, but one of the oldest stale sessions
      leaves if there are too many. A drop of any other connection changes nothing. */
  lemma ClientDropOpensWindow(s: State, e: Event, t: State)
    requires Inv(s) && Steps(s, e, t) && e.op.OpMarkClientStale?
    ensures t.reg == s.reg && t.now == e.now
    ensures var id := e.op.id;
      if id in s.tab.sessions && s.tab.sessions[id].clientConn == e.op.expected then
        && Indexes(s.tab, t.tab, id, e.now, s.cap, e.op.victim,
                   if e.op.victim == id then EvictedItself else CapExceeded)
        && (forall k :: k in t.tab.sessions && k != id ==> Kept(s.tab, t.tab, k))
        && (id in t.tab.sessions ==> ClientDropped(s.tab, t.tab, id, e.now + s.grace))
      else t == s.(now := e.now)
  {
    var id := e.op.id;
    ClientDropMarks(s, e, t);
    assert s.now <= e.now;
    hide Inv, Steps, MarkStale, Indexes, GoodVictim, Kept, ClientDropped;
    if id in s.tab.sessions && s.tab.sessions[id].clientConn == e.op.expected {
      MarkedSide(s, e, t, id, ClientSide, e.op.victim, if e.op.victim == id then EvictedItself else CapExceeded);
    }
  }

  /** The end of a registered server's read pump opens the server's window of its device's session in the
      same way. */
  lemma ServerDropOpensWindow(s: State, e: Event, t: State, id: string)
    requires Inv(s) && Steps(s, e, t) && e.op.OpRemoveServerConn?
    requires id in s.tab.sessions && s.tab.sessions[id].deviceID == e.op.server.deviceID
    requires e.op.server.deviceID in s.reg.servers && s.reg.servers[e.op.server.deviceID] == e.op.server
    ensures Indexes(s.tab, t.tab, id, e.now, s.cap, e.op.victim, CapExceeded)
    ensures forall k :: k in t.tab.sessions && k != id ==> Kept(s.tab, t.tab, k)
    ensures id in t.tab.sessions ==> ServerDropped(s.tab, t.tab, id, e.now + s.grace)
  {
    ServerDropMarks(s, e, t, id);
    assert s.now <= e.now;
    hide Inv, Steps, MarkStale, Indexes, GoodVictim, Kept, ServerDropped;
    MarkedSide(s, e, t, id, ServerSide, e.op.victim, CapExceeded);
  }

  // --- Devices that come and go ---

  lemma OfflineRegistry(r: Registry, d: string)
    requires RegistryOk(r)
    ensures Offline(r, CleanupDevice(UnregisterServer(r, d), d), d)
  {
    forall id | id in r.rooms ensures r.rooms[id].deviceID == d <==> d in r.serverRooms && r.serverRooms[d] == id {
      assert RoomOk(r, id);
    }
  }

  /** When the read pump of a device's registered server ends, everything registered for the device goes, and
      nothing of any other; without a session of the device there is nothing else to do. The end of any other
      pump changes nothing. */
  lemma ServerDropTakesOffline(s: State, e: Event, t: State)
    requires Inv(s) && Steps(s, e, t) && e.op.OpRemoveServerConn?
    ensures var d := e.op.server.deviceID;
      if d in s.reg.servers && s.reg.servers[d] == e.op.server then
        && Offline(s.reg, t.reg, d) && t.now == e.now
        && ((forall id :: id in s.tab.sessions ==> s.tab.sessions[id].deviceID != d) ==> t.tab == s.tab)
      else t == s.(now := e.now)
  {
    var d := e.op.server.deviceID;
    InvParts(s);
    OfflineRegistry(s.reg, d);
    hide Inv, CleanupDevice, UnregisterServer, MarkStale, Offline;
  }

  lemma RemovedLeaves(t: Table, id: string, reason: Reason)
    requires TimersOk(t) && id in t.sessions
    ensures Leaves(t, Depart(ClearGrace(t, id), id, reason), id, reason, Announced(reason))
    ensures NonePending(Depart(ClearGrace(t, id), id, reason).callbacks, id, ClientSide)
    ensures NonePending(Depart(ClearGrace(t, id), id, reason).callbacks, id, ServerSide)
  {
    ClearedNonePending(t, id);
    hide NonePending, StopTimer;
  }

  lemma ClearGraceSessions(t: Table, id: string)
    requires id in t.sessions
    ensures forall k :: k in t.sessions && k != id ==>
              k in ClearGrace(t, id).sessions && ClearGrace(t, id).sessions[k] == t.sessions[k]
  {
  }

  lemma RemovalKeepsSessions(s: State, d: string, u: Table)
    requires u == match DeviceSession(s.tab, d)
                  case Some(id) => Depart(ClearGrace(s.tab, id), id, DeviceRemoved)
                  case None => s.tab
    ensures forall k :: k in u.sessions ==> k in s.tab.sessions && u.sessions[k] == s.tab.sessions[k]
  {
    var found := DeviceSession(s.tab, d);
    if found.Some? {
      ClearGraceSessions(s.tab, found.value);
    }
    hide ClearGrace;
  }

  lemma RemoveDeviceIs(s: State, e: Event, t: State)
    requires Steps(s, e, t) && e.op.OpRemoveServer?
    ensures t == s.(now := e.now, reg := CleanupDevice(UnregisterServer(s.reg, e.op.deviceID), e.op.deviceID),
                    tab := match DeviceSession(s.tab, e.op.deviceID)
                           case Some(id) => Depart(ClearGrace(s.tab, id), id, DeviceRemoved)
                           case None => s.tab)
  {
    hide CleanupDevice, UnregisterServer, ClearGrace, Depart;
  }

  /** Removing a device's server takes the device offline and removes its session, whose teardown it owes. */
  lemma RemovalTakesOffline(s: State, e: Event, t: State)
    requires Inv(s) && Steps(s, e, t) && e.op.OpRemoveServer?
    ensures Offline(s.reg, t.reg, e.op.deviceID) && t.now == e.now
    ensures (forall id :: id in s.tab.sessions ==> s.tab.sessions[id].deviceID != e.op.deviceID) ==> t.tab == s.tab
    ensures forall id :: id in s.tab.sessions && s.tab.sessions[id].deviceID == e.op.deviceID ==>
              && Leaves(s.tab, t.tab, id, DeviceRemoved, true)
              && NonePending(t.tab.callbacks, id, ClientSide) && NonePending(t.tab.callbacks, id, ServerSide)
    ensures forall id :: id in t.tab.sessions ==> Kept(s.tab, t.tab, id)
  {
    InvParts(s);
    OfflineRegistry(s.reg, e.op.deviceID);
    assert TimersOk(s.tab);
    hide CleanupDevice, UnregisterServer, Offline, Kept, Leaves, NonePending, ClearGrace, Depart, TimersOk, RegistryOk;
    hide Inv, DeviceSession;
    RemoveDeviceIs(s, e, t);
    hide Steps;
    forall id | id in s.tab.sessions && s.tab.sessions[id].deviceID == e.op.deviceID
      ensures Leaves(s.tab, t.tab, id, DeviceRemoved, true)
      ensures NonePending(t.tab.callbacks, id, ClientSide) && NonePending(t.tab.callbacks, id, ServerSide)
    {
      OneSession(s, id);
      RemovedLeaves(s.tab, id, DeviceRemoved);
    }
    RemovalKeepsSessions(s, e.op.deviceID, t.tab);
    AllKept(s, e, t);
  }

  /** The registry after a server has come: it is registered for its device, in the next generation; the one
      before it is closed; the device's room is routed to it; everything else is as it was. */
  ghost predicate Online(r: Registry, u: Registry, server: OnlineServer) {
    var d := server.deviceID;
    && u.servers == r.servers[d := server] && u.serverGen == server.generation == r.serverGen + 1
    && u.closedServers == (if d in r.servers then r.closedServers + {r.servers[d]} else r.closedServers)
    && u.guests == r.guests && u.serverRooms == r.serverRooms
    && u.rooms == map id | id in r.rooms ::
         if r.rooms[id].deviceID == d then r.rooms[id].(route := Route(server, server.generation)) else r.rooms[id]
  }

  lemma OnlineRegistry(r: Registry, server: OnlineServer)
    requires RegistryOk(r) && server.generation == r.serverGen + 1
    ensures Online(r, RegisterServer(r, server), server)
  {
    var d := server.deviceID;
    forall id | id in r.rooms
      ensures r.rooms[id].deviceID == d <==> d in r.serverRooms && r.serverRooms[d] == id
      ensures !r.rooms[id].closed && r.rooms[id].route.gen <= r.serverGen
    {
      assert RoomOk(r, id);
    }
  }

  /** The session is bound to the server, whose window has ended; the client's side is as it was. */
  ghost predicate Resumed(t: Table, u: Table, id: string, server: OnlineServer)
    requires id in t.sessions && id in u.sessions
  {
    var x := t.sessions[id];
    && u.sessions[id] == x.(serverConn := server, server := Grace(false, x.server.gen, None))
    && NonePending(u.callbacks, id, ServerSide) && SamePending(t.callbacks, u.callbacks, id, ClientSide)
    && (id in u.stale <==> x.client.stale) && (id in u.stale ==> id in t.stale && u.stale[id] == t.stale[id])
  }

  lemma BoundSession(t: Table, id: string, server: OnlineServer)
    requires TimersOk(t) && id in t.sessions
    ensures var u := BindServer(t, id, server); var x := t.sessions[id];
      && u == t.(sessions := u.sessions, callbacks := u.callbacks, stale := u.stale)
      && u.sessions == t.sessions[id := x.(serverConn := server, server := Grace(false, x.server.gen, None))]
      && u.stale == (if x.server.stale && !x.client.stale then t.stale - {id} else t.stale)
  {
    assert SideOk(t, id, ServerSide);
    hide StopTimer, TimersOk;
  }

  lemma BindDeviceIs(s: State, e: Event, t: State)
    requires Steps(s, e, t) && e.op.OpAddServer?
    ensures e.op.server.deviceID == e.op.deviceID && e.op.server.userID == e.op.userID
    ensures e.op.server.generation == s.reg.serverGen + 1 && MayAddServer(s, e.op.deviceID, e.op.userID)
    ensures t == s.(now := e.now, reg := RegisterServer(s.reg, e.op.server),
                    tab := match DeviceSession(s.tab, e.op.deviceID)
                           case Some(id) => BindServer(s.tab, id, e.op.server)
                           case None => s.tab)
  {
    hide RegisterServer, BindServer, MayAddServer;
  }

  lemma StaleIffIndexed(s: State, id: string)
    requires Inv(s) && id in s.tab.sessions
    ensures id in s.tab.stale <==> s.tab.sessions[id].client.stale || s.tab.sessions[id].server.stale
  {
    assert Indexed(s.tab, id, s.now);
  }

  /** Nobody leaves, and of nobody but its own device's session does anything change. */
  lemma ServerComesBack(s: State, e: Event, t: State)
    requires Inv(s) && Steps(s, e, t) && e.op.OpAddServer?
    ensures t.now == e.now && Online(s.reg, t.reg, e.op.server)
    ensures t.tab.sessions.Keys == s.tab.sessions.Keys
    ensures forall id :: id in s.tab.sessions && s.tab.sessions[id].deviceID != e.op.deviceID ==>
              Kept(s.tab, t.tab, id)
    ensures forall id :: id in s.tab.sessions && s.tab.sessions[id].deviceID == e.op.deviceID ==>
              Resumed(s.tab, t.tab, id, e.op.server)
    ensures forall k :: k in t.tab.stale ==> k in s.tab.stale && t.tab.stale[k] == s.tab.stale[k]
    ensures t.tab == s.tab.(sessions := t.tab.sessions, callbacks := t.tab.callbacks, stale := t.tab.stale)
  {
    BindDeviceIs(s, e, t);
    InvParts(s);
    OnlineRegistry(s.reg, e.op.server);
    assert TimersOk(s.tab);
    var found := DeviceSession(s.tab, e.op.deviceID);
    if found.Some? {
      BoundSession(s.tab, found.value, e.op.server);
    }
    hide Steps, BindServer, RegisterServer, Online, MayAddServer, Kept, TimersOk, IndexOk, SamePending, NonePending;
    hide RegistryOk, Presence, LedgerOk, Inv;
    forall id | id in s.tab.sessions && s.tab.sessions[id].deviceID == e.op.deviceID
      ensures Resumed(s.tab, t.tab, id, e.op.server)
    {
      OneSession(s, id);
      StaleIffIndexed(s, id);
      PendingKept(s, e, t, id, ClientSide);
      CalmNonePending(s, e, t, id, ServerSide);
    }
    forall id | id in s.tab.sessions && s.tab.sessions[id].deviceID != e.op.deviceID
      ensures Kept(s.tab, t.tab, id)
    {
      KeptIfSame(s, e, t, id);
    }
  }

  /** AddServer is refused exactly if the device's server, room or session belongs to somebody else. */
  lemma RefusedIff(s: State, deviceID: string, userID: string)
    requires Inv(s)
    ensures !MayAddServer(s, deviceID, userID) <==>
      || (deviceID in s.reg.servers && s.reg.servers[deviceID].userID != userID)
      || (exists id :: id in s.reg.rooms && s.reg.rooms[id].deviceID == deviceID
                       && s.reg.rooms[id].ownerUserID != userID)
      || (exists id :: id in s.tab.sessions && s.tab.sessions[id].deviceID == deviceID
                       && s.tab.sessions[id].ownerUserID != userID)
  {
    InvParts(s);
    forall id | id in s.reg.rooms && s.reg.rooms[id].deviceID == deviceID
      ensures deviceID in s.reg.serverRooms && s.reg.serverRooms[deviceID] == id
    {
      assert RoomOk(s.reg, id);
    }
    hide Inv, TableInv, Presence;
  }

  // --- Sessions that are made, joined, swept, removed and expired ---

  /** Nothing but the session map differs. */
  predicate OnlySessions(s: State, e: Event, t: State) {
    t == s.(now := e.now, tab := s.tab.(sessions := t.tab.sessions))
  }

  lemma CreateSessionCodes(s: State, userID: string, deviceID: string)
    ensures var err := CreateSessionError(s, userID, deviceID);
            var busy := exists id :: id in s.tab.sessions && s.tab.sessions[id].deviceID == deviceID;
      && (err == Some(ErrServerOffline) <==> deviceID !in s.reg.servers)
      && (err == Some(ErrNotOwner) <==> deviceID in s.reg.servers && s.reg.servers[deviceID].userID != userID)
      && (err == Some(ErrServerBusy) <==>
            deviceID in s.reg.servers && s.reg.servers[deviceID].userID == userID && busy)
      && (err == None <==> deviceID in s.reg.servers && s.reg.servers[deviceID].userID == userID && !busy)
  {
    var found := DeviceSession(s.tab, deviceID);
    if found.None? {
      assert forall id :: id in s.tab.sessions ==> !ForDevice(s.tab, id, deviceID);
    }
  }

  lemma CreateGuestSessionCodes(s: State, shortID: string)
    ensures var err := CreateGuestSessionError(s, shortID);
            var busy := shortID in s.reg.guests
              && (exists id :: id in s.tab.sessions
                               && s.tab.sessions[id].deviceID == s.reg.guests[shortID].deviceID);
      && (err == Some(ErrGuestNotFound) <==> shortID !in s.reg.guests)
      && (err == Some(ErrServerBusy) <==> busy)
      && (err == None <==> shortID in s.reg.guests && !busy)
  {
    if shortID in s.reg.guests {
      var found := DeviceSession(s.tab, s.reg.guests[shortID].deviceID);
      if found.None? {
        assert forall id :: id in s.tab.sessions ==> !ForDevice(s.tab, id, s.reg.guests[shortID].deviceID);
      }
    }
  }

  /** A new session belongs to the caller, is bound to the device's server, has no client yet, and nobody is
      stale; a refused call changes nothing. */
  lemma SessionIsCreated(s: State, e: Event, t: State)
    requires Steps(s, e, t) && e.op.OpCreateSession?
    ensures OnlySessions(s, e, t)
    ensures var d := e.op.deviceID;
      if d in s.reg.servers && s.reg.servers[d].userID == e.op.userID
         && forall id :: id in s.tab.sessions ==> s.tab.sessions[id].deviceID != d
      then
        && e.op.id !in s.tab.sessions
        && t.tab.sessions == s.tab.sessions[e.op.id :=
             Sess(e.op.userID, e.op.userID, d, true, e.now, s.reg.servers[d], null,
                  Grace(false, 0, None), Grace(false, 0, None))]
      else t.tab.sessions == s.tab.sessions
  {
    CreateSessionCodes(s.(now := e.now), e.op.userID, e.op.deviceID);
    hide CreateSessionError, DeviceSession;
  }

  /** A guest's session belongs to the user the guest was registered by, and is bound to the server it was
      registered with. */
  lemma GuestSessionIsCreated(s: State, e: Event, t: State)
    requires Steps(s, e, t) && e.op.OpCreateGuestSession?
    ensures OnlySessions(s, e, t)
    ensures if e.op.shortID in s.reg.guests
               && forall id :: id in s.tab.sessions ==>
                    s.tab.sessions[id].deviceID != s.reg.guests[e.op.shortID].deviceID
      then
        var g := s.reg.guests[e.op.shortID];
        && e.op.id !in s.tab.sessions
        && t.tab.sessions == s.tab.sessions[e.op.id :=
             Sess("guest", g.userID, g.deviceID, false, e.now, g.server, null,
                  Grace(false, 0, None), Grace(false, 0, None))]
      else t.tab.sessions == s.tab.sessions
  {
    CreateGuestSessionCodes(s.(now := e.now), e.op.shortID);
    hide CreateGuestSessionError, DeviceSession;
  }

  lemma BindClientIs(s: State, e: Event, t: State)
    requires Steps(s, e, t) && e.op.OpSetSessionClient? && e.op.id in s.tab.sessions
    ensures var x := s.tab.sessions[e.op.id];
      && t == s.(now := e.now, tab := s.tab.(sessions := t.tab.sessions, callbacks := t.tab.callbacks,
                                             stale := t.tab.stale))
      && t.tab.sessions == s.tab.sessions[e.op.id :=
           x.(clientConn := e.op.conn, client := Grace(false, x.client.gen, None))]
      && t.tab.stale == (if x.server.stale then s.tab.stale else s.tab.stale - {e.op.id})
  {
    hide StopTimer;
  }

  /** Joining binds the connection and ends the client's window; the server's side, and everybody else, is
      as it was. */
  lemma JoinBindsClient(s: State, e: Event, t: State)
    requires Inv(s) && Steps(s, e, t) && e.op.OpSetSessionClient?
    ensures var id := e.op.id;
      if id !in s.tab.sessions then t == s.(now := e.now) else
      var x := s.tab.sessions[id];
      && t.reg == s.reg && t.tab.departed == s.tab.departed && t.tab.owed == s.tab.owed && t.tab.sent == s.tab.sent
      && t.tab.sessions == s.tab.sessions[id :=
           x.(clientConn := e.op.conn, client := Grace(false, x.client.gen, None))]
      && t.tab.stale == (if x.server.stale then s.tab.stale else s.tab.stale - {id})
      && NonePending(t.tab.callbacks, id, ClientSide)
      && SamePending(s.tab.callbacks, t.tab.callbacks, id, ServerSide)
      && forall k :: k in t.tab.sessions && k != id ==> Kept(s.tab, t.tab, k)
  {
    if e.op.id in s.tab.sessions {
      BindClientIs(s, e, t);
      CalmNonePending(s, e, t, e.op.id, ClientSide);
      PendingKept(s, e, t, e.op.id, ServerSide);
      OthersKept(s, e, t, e.op.id);
    }
    hide Inv, BindClient, Kept, NonePending, SamePending;
  }

  /** A sweep removes a session iff it is older than maxAge, has no client, and no side of it is stale. It
      sends nothing, and changes nobody else. */
  lemma SweepRemovesIff(s: State, e: Event, t: State)
    requires Steps(s, e, t) && e.op.OpCleanupStaleSessions?
    ensures t == s.(now := e.now, tab := s.tab.(sessions := t.tab.sessions, departed := t.tab.departed))
    ensures t.tab.sessions.Keys <= s.tab.sessions.Keys
    ensures t.tab.departed.Keys <= s.tab.departed.Keys + s.tab.sessions.Keys
    ensures forall id :: id in s.tab.departed && id !in s.tab.sessions ==>
              id in t.tab.departed && t.tab.departed[id] == s.tab.departed[id]
    ensures forall id :: id in s.tab.sessions ==>
      var x := s.tab.sessions[id];
      if x.createdAt + e.op.maxAge < e.now && x.clientConn == null && !x.client.stale && !x.server.stale
      then id !in t.tab.sessions && id in t.tab.departed && t.tab.departed[id] == Departed(x, Abandoned)
      else id in t.tab.sessions && t.tab.sessions[id] == x
  {
  }

  lemma RemoveIs(s: State, e: Event, t: State)
    requires Steps(s, e, t) && e.op.OpRemoveSession?
    ensures t == if e.op.id in s.tab.sessions
                 then s.(now := e.now, tab := Depart(ClearGrace(s.tab, e.op.id), e.op.id, ExplicitlyRemoved))
                 else s.(now := e.now)
  {
    hide Depart, ClearGrace;
  }

  /** An explicit removal removes that session, with its timers stopped and without a teardown. */
  lemma RemovalRemoves(s: State, e: Event, t: State)
    requires Inv(s) && Steps(s, e, t) && e.op.OpRemoveSession?
    ensures t.reg == s.reg && t.now == e.now
    ensures if e.op.id in s.tab.sessions then
              && Leaves(s.tab, t.tab, e.op.id, ExplicitlyRemoved, false)
              && NonePending(t.tab.callbacks, e.op.id, ClientSide)
              && NonePending(t.tab.callbacks, e.op.id, ServerSide)
            else t == s.(now := e.now)
    ensures forall k :: k in t.tab.sessions ==> Kept(s.tab, t.tab, k)
  {
    InvParts(s);
    hide Inv, Kept, Leaves, NonePending, ClearGrace, Depart, TimersOk, RegistryOk, Presence, IndexOk, LedgerOk;
    RemoveIs(s, e, t);
    hide Steps;
    if e.op.id in s.tab.sessions {
      RemovedLeaves(s.tab, e.op.id, ExplicitlyRemoved);
      ClearGraceSessions(s.tab, e.op.id);
      DepartSessions(ClearGrace(s.tab, e.op.id), e.op.id, ExplicitlyRemoved);
    }
    AllKept(s, e, t);
  }

  lemma DepartSessions(t: Table, id: string, reason: Reason)
    requires id in t.sessions
    ensures Depart(t, id, reason).sessions == t.sessions - {id}
  {
  }

  lemma FireIs(s: State, e: Event, t: State)
    requires Steps(s, e, t) && e.op.OpFire?
    ensures e.op.timer in s.tab.callbacks && t == s.(now := e.now, tab := Fire(s.tab, e.op.timer))
  {
    hide Fire;
  }

  /** A callback is used up. If it was still pending and its session is registered, the session leaves because
      the grace of that side expired, and a teardown is owed; otherwise nothing else happens. */
  lemma CallbackExpires(s: State, e: Event, t: State)
    requires Inv(s) && Steps(s, e, t) && e.op.OpFire?
    ensures e.op.timer in s.tab.callbacks && t.reg == s.reg && t.now == e.now
    ensures t.tab.callbacks == s.tab.callbacks - {e.op.timer}
    ensures var cb := s.tab.callbacks[e.op.timer];
      if !cb.stopped && cb.sessionID in s.tab.sessions
      then Leaves(s.tab, t.tab, cb.sessionID,
                  if cb.side.ClientSide? then ClientGraceExpired else ServerGraceExpired, true)
      else t.tab == s.tab.(callbacks := s.tab.callbacks - {e.op.timer})
  {
    FireIs(s, e, t);
    InvParts(s);
    ExpiresIffUnstopped(s.tab, e.op.timer);
    hide Inv, Steps, Expires, TimersOk, RegistryOk, Presence, IndexOk, LedgerOk;
  }

  /** One owed teardown is sent, to the connections the session left with, for the reason it left. */
  lemma TeardownIsSent(s: State, e: Event, t: State)
    requires Steps(s, e, t) && e.op.OpTeardown?
    ensures e.op.id in s.tab.departed && e.op.id in s.tab.owed
    ensures var d := s.tab.departed[e.op.id];
      && t == s.(now := e.now, tab := s.tab.(owed := t.tab.owed, sent := t.tab.sent))
      && t.tab.owed + multiset{e.op.id} == s.tab.owed
      && t.tab.sent == s.tab.sent + multiset{Notice(e.op.id, d.sess.serverConn, d.sess.clientConn, d.reason)}
  {
  }

  // --- Guests and rooms ---

  /** Nothing but guests and rooms differs. */
  predicate OnlyGuestsAndRooms(s: State, e: Event, t: State) {
    t == s.(now := e.now, reg := s.reg.(guests := t.reg.guests, rooms := t.reg.rooms, serverRooms := t.reg.serverRooms))
  }

  lemma RegisterGuestCodes(s: State, shortID: string, deviceID: string)
    ensures var err := RegisterGuestError(s, shortID, deviceID);
      && (err == Some(ErrShortIDConflict) <==> shortID in s.reg.guests)
      && (err == Some(ErrServerOffline) <==> shortID !in s.reg.guests && deviceID !in s.reg.servers)
      && (err == None <==> shortID !in s.reg.guests && deviceID in s.reg.servers)
  {
  }

  lemma GuestIsRegistered(s: State, e: Event, t: State)
    requires Steps(s, e, t) && e.op.OpRegisterGuest?
    ensures OnlyGuestsAndRooms(s, e, t) && t.reg.rooms == s.reg.rooms && t.reg.serverRooms == s.reg.serverRooms
    ensures t.reg.guests ==
      if e.op.shortID !in s.reg.guests && e.op.deviceID in s.reg.servers
      then s.reg.guests[e.op.shortID := Guest(e.op.userID, e.op.deviceID, s.reg.servers[e.op.deviceID])]
      else s.reg.guests
  {
  }

  lemma GuestIsUnregistered(s: State, e: Event, t: State)
    requires Steps(s, e, t) && e.op.OpUnregisterGuest?
    ensures OnlyGuestsAndRooms(s, e, t) && t.reg.rooms == s.reg.rooms && t.reg.serverRooms == s.reg.serverRooms
    ensures t.reg.guests == s.reg.guests - {e.op.shortID}
  {
  }

  lemma CreateRoomCodes(s: State, deviceID: string, userID: string, candidates: seq<string>)
    requires Inv(s)
    ensures var err := CreateRoomError(s, deviceID, userID, candidates);
            var owned := deviceID in s.reg.servers && s.reg.servers[deviceID].userID == userID;
            var roomed := exists id :: id in s.reg.rooms && s.reg.rooms[id].deviceID == deviceID;
            var taken := forall i :: 0 <= i < |candidates| ==> candidates[i] in s.reg.rooms;
      && (err == Some(ErrServerOffline) <==> deviceID !in s.reg.servers)
      && (err == Some(ErrNotOwner) <==> deviceID in s.reg.servers && s.reg.servers[deviceID].userID != userID)
      && (err == Some(ErrRoomAlreadyExists) <==> owned && roomed)
      && (err == Some(ErrShortIDConflict) <==> owned && !roomed && taken)
      && (err == None <==> owned && !roomed && !taken)
  {
    InvParts(s);
    PickRoomIDIsFree(s.reg.rooms.Keys, candidates);
    forall id | id in s.reg.rooms && s.reg.rooms[id].deviceID == deviceID ensures deviceID in s.reg.serverRooms {
      assert RoomOk(s.reg, id);
    }
    hide Inv, PickRoomID, TableInv, Presence;
  }

  lemma {:induction false} PickedFirst(rooms: set<string>, candidates: seq<string>) returns (i: nat)
    requires PickRoomID(rooms, candidates).Some?
    ensures i < |candidates| && PickRoomID(rooms, candidates) == Some(candidates[i]) && candidates[i] !in rooms
    ensures forall j :: 0 <= j < i ==> candidates[j] in rooms
    decreases |candidates|
  {
    if candidates[0] !in rooms {
      i := 0;
    } else {
      i := PickedFirst(rooms, candidates[1..]);
      i := i + 1;
    }
  }

  lemma CreateRoomIs(s: State, e: Event, t: State)
    requires Steps(s, e, t) && e.op.OpCreateRoom?
    ensures var err := CreateRoomError(s, e.op.deviceID, e.op.userID, e.op.candidates);
      if err.Some? then t == s.(now := e.now) else
      var picked := PickRoomID(s.reg.rooms.Keys, e.op.candidates);
      && picked.Some? && e.op.deviceID in s.reg.servers
      && var server := s.reg.servers[e.op.deviceID];
      && t == s.(now := e.now, reg := s.reg.(
                   rooms := s.reg.rooms[picked.value :=
                     RoomRef(e.op.deviceID, e.op.userID, Route(server, server.generation), false)],
                   serverRooms := s.reg.serverRooms[e.op.deviceID := picked.value]))
  {
    hide PickRoomID;
  }

  /** A new room has the first candidate that is free, and is open, owned by the caller and routed to the
      device's server; a refused call changes nothing. */
  lemma RoomIsCreated(s: State, e: Event, t: State) returns (i: nat)
    requires Steps(s, e, t) && e.op.OpCreateRoom?
    ensures if CreateRoomError(s, e.op.deviceID, e.op.userID, e.op.candidates).Some? then t == s.(now := e.now) else
      && OnlyGuestsAndRooms(s, e, t) && t.reg.guests == s.reg.guests
      && i < |e.op.candidates| && e.op.candidates[i] !in s.reg.rooms
      && (forall j :: 0 <= j < i ==> e.op.candidates[j] in s.reg.rooms)
      && e.op.deviceID in s.reg.servers
      && var server := s.reg.servers[e.op.deviceID];
      && t.reg.rooms == s.reg.rooms[e.op.candidates[i] :=
           RoomRef(e.op.deviceID, e.op.userID, Route(server, server.generation), false)]
      && t.reg.serverRooms == s.reg.serverRooms[e.op.deviceID := e.op.candidates[i]]
  {
    CreateRoomIs(s, e, t);
    i := 0;
    hide Steps, CreateRoomError, PickRoomID;
    if CreateRoomError(s, e.op.deviceID, e.op.userID, e.op.candidates).None? {
      i := PickedFirst(s.reg.rooms.Keys, e.op.candidates);
    }
  }

  /** The room is not registered any more, nor is its device's entry; nothing else changes. */
  lemma RoomIsRemoved(s: State, e: Event, t: State)
    requires Steps(s, e, t) && e.op.OpRemoveRoom?
    ensures OnlyGuestsAndRooms(s, e, t) && t.reg.guests == s.reg.guests
    ensures t.reg.rooms == s.reg.rooms - {e.op.roomID}
    ensures t.reg.serverRooms == if e.op.roomID in s.reg.rooms
                                 then s.reg.serverRooms - {s.reg.rooms[e.op.roomID].deviceID} else s.reg.serverRooms
  {
  }

  // --- What closes a window ---

  /** The steps that may touch the client's side of a session that stays. */
  predicate TouchesClient(s: State, op: Op, id: string) {
    || (op.OpSetSessionClient? && op.id == id)
    || (op.OpMarkClientStale? && op.id == id && id in s.tab.sessions && s.tab.sessions[id].clientConn == op.expected)
  }

  /** The steps that may touch the server's side of a session that stays. */
  predicate TouchesServer(s: State, op: Op, id: string) {
    id in s.tab.sessions &&
    if op.OpAddServer? then op.deviceID == s.tab.sessions[id].deviceID
    else
      && op.OpRemoveServerConn? && op.server.deviceID == s.tab.sessions[id].deviceID
      && op.server.deviceID in s.reg.servers && s.reg.servers[op.server.deviceID] == op.server
  }

  ghost predicate SameClientSide(t: Table, u: Table, id: string)
    requires id in t.sessions && id in u.sessions
  {
    && u.sessions[id].client == t.sessions[id].client && u.sessions[id].clientConn == t.sessions[id].clientConn
    && SamePending(t.callbacks, u.callbacks, id, ClientSide)
  }

  ghost predicate SameServerSide(t: Table, u: Table, id: string)
    requires id in t.sessions && id in u.sessions
  {
    && u.sessions[id].server == t.sessions[id].server && u.sessions[id].serverConn == t.sessions[id].serverConn
    && SamePending(t.callbacks, u.callbacks, id, ServerSide)
  }

  /** A read pump's end keeps the sessions of other devices. */
  lemma PumpKeepsOthers(s: State, e: Event, t: State, id: string)
    requires Inv(s) && Steps(s, e, t) && e.op.OpRemoveServerConn?
    requires id in s.tab.sessions && id in t.tab.sessions && !TouchesServer(s, e.op, id)
    ensures t.tab.sessions[id] == s.tab.sessions[id]
  {
    hide Inv, Steps, Indexes, ServerDropped, Offline, SamePending;
    ServerDropTakesOffline(s, e, t);
    if k :| k in s.tab.sessions && s.tab.sessions[k].deviceID == e.op.server.deviceID {
      if e.op.server.deviceID in s.reg.servers && s.reg.servers[e.op.server.deviceID] == e.op.server {
        ServerDropOpensWindow(s, e, t, k);
        assert Kept(s.tab, t.tab, id);
      }
    }
  }

  lemma DeviceStepKeeps(s: State, e: Event, t: State, id: string)
    requires Inv(s) && Steps(s, e, t) && (e.op.OpAddServer? || e.op.OpRemoveServer? || e.op.OpRemoveServerConn?)
    requires id in s.tab.sessions && id in t.tab.sessions && !TouchesServer(s, e.op, id)
    ensures t.tab.sessions[id] == s.tab.sessions[id]
  {
    hide Inv, Steps, Online, Offline, Leaves, NonePending, SamePending;
    if e.op.OpAddServer? {
      ServerComesBack(s, e, t);
      assert Kept(s.tab, t.tab, id);
    } else if e.op.OpRemoveServer? {
      RemovalTakesOffline(s, e, t);
      assert Kept(s.tab, t.tab, id);
    } else {
      PumpKeepsOthers(s, e, t, id);
    }
  }

  lemma TableStepKeeps(s: State, e: Event, t: State, id: string)
    requires Inv(s) && Steps(s, e, t) && OnTable(e.op)
    requires id in s.tab.sessions && id in t.tab.sessions && !TouchesClient(s, e.op, id)
    ensures t.tab.sessions[id] == s.tab.sessions[id]
  {
    hide Inv, Steps, Indexes, ClientDropped, NonePending, SamePending;
    match e.op
    case OpMarkClientStale(marked, _, _) =>
      ClientDropOpensWindow(s, e, t);
      assert marked != id && marked in s.tab.sessions && s.tab.sessions[marked].clientConn == e.op.expected ==>
          Kept(s.tab, t.tab, id);
    case OpSetSessionClient(_, _) =>
      JoinBindsClient(s, e, t);
    case OpRemoveSession(_) =>
      RemovalRemoves(s, e, t);
      assert Kept(s.tab, t.tab, id);
    case OpCleanupStaleSessions(_) => SweepRemovesIff(s, e, t);
    case OpFire(_) => CallbackExpires(s, e, t);
    case OpTeardown(_) => TeardownIsSent(s, e, t);
  }

  lemma OtherStepKeeps(s: State, e: Event, t: State, id: string)
    requires Inv(s) && Steps(s, e, t) && !OnTable(e.op)
    requires !e.op.OpAddServer? && !e.op.OpRemoveServer? && !e.op.OpRemoveServerConn?
    requires id in s.tab.sessions && id in t.tab.sessions
    ensures t.tab.sessions[id] == s.tab.sessions[id]
  {
    hide Inv, Steps, CreateRoomError;
    match e.op
    case OpCreateSession(_, _, _) => SessionIsCreated(s, e, t);
    case OpCreateGuestSession(_, _) => GuestSessionIsCreated(s, e, t);
    case OpRegisterGuest(_, _, _) => GuestIsRegistered(s, e, t);
    case OpUnregisterGuest(_) => GuestIsUnregistered(s, e, t);
    case OpCreateRoom(_, _, _) => var i := RoomIsCreated(s, e, t);
    case OpRemoveRoom(_) => RoomIsRemoved(s, e, t);
    case OpRefuseServer(_, _) => RefusalChangesNothing(s, e, t);
  }

  lemma RefusalChangesNothing(s: State, e: Event, t: State)
    requires Steps(s, e, t) && e.op.OpRefuseServer?
    ensures t == s.(now := e.now)
  {
  }

  /** A registered session that a step neither touches nor removes is as it was. */
  lemma SessionKept(s: State, e: Event, t: State, id: string)
    requires Inv(s) && Steps(s, e, t) && id in s.tab.sessions && id in t.tab.sessions
    requires !TouchesClient(s, e.op, id) && !TouchesServer(s, e.op, id)
    ensures t.tab.sessions[id] == s.tab.sessions[id]
  {
    hide Inv, Steps, TouchesClient, TouchesServer;
    if OnTable(e.op) {
      TableStepKeeps(s, e, t, id);
    } else if e.op.OpAddServer? || e.op.OpRemoveServer? || e.op.OpRemoveServerConn? {
      DeviceStepKeeps(s, e, t, id);
    } else {
      OtherStepKeeps(s, e, t, id);
    }
  }

  /** The client's side of a session that stays, and with it an open window, changes only when that client
      rejoins or drops again; in particular neither the return nor the loss of a server touches it. */
  lemma ClientSideKept(s: State, e: Event, t: State, id: string)
    requires Inv(s) && Steps(s, e, t) && id in s.tab.sessions && id in t.tab.sessions
    requires !TouchesClient(s, e.op, id)
    ensures SameClientSide(s.tab, t.tab, id)
  {
    hide Inv, Steps, Indexes, Online, Offline, TouchesClient, NonePending, OnlyPending, SamePending;
    if !TouchesServer(s, e.op, id) {
      SessionKept(s, e, t, id);
      PendingKept(s, e, t, id, ClientSide);
    } else if e.op.OpAddServer? {
      ServerComesBack(s, e, t);
      assert Resumed(s.tab, t.tab, id, e.op.server);
    } else {
      ServerDropOpensWindow(s, e, t, id);
    }
  }

  /** The server's side of a session that stays changes only when its device's server comes back or is lost. */
  lemma ServerSideKept(s: State, e: Event, t: State, id: string)
    requires Inv(s) && Steps(s, e, t) && id in s.tab.sessions && id in t.tab.sessions
    requires !TouchesServer(s, e.op, id)
    ensures SameServerSide(s.tab, t.tab, id)
  {
    hide Inv, Steps, Indexes, TouchesServer, NonePending, OnlyPending, SamePending;
    if !TouchesClient(s, e.op, id) {
      SessionKept(s, e, t, id);
      PendingKept(s, e, t, id, ServerSide);
    } else if e.op.OpSetSessionClient? {
      JoinBindsClient(s, e, t);
    } else {
      ClientDropOpensWindow(s, e, t);
    }
  }

  /** In every run: a client window that is open stays open, with its timer pending, until the client rejoins,
      or a second drop is reported, or the session leaves the map. */
  lemma {:induction false} ClientWindowStaysOpen(states: seq<State>, events: seq<Event>, i: nat, j: nat, id: string)
    requires IsRun(states, events) && i <= j < |states|
    requires forall k :: i <= k <= j ==> id in states[k].tab.sessions
    requires forall k :: i <= k < j ==> !TouchesClient(states[k], events[k].op, id)
    ensures states[j].tab.sessions[id].client == states[i].tab.sessions[id].client
    ensures states[j].tab.sessions[id].clientConn == states[i].tab.sessions[id].clientConn
    ensures SamePending(states[i].tab.callbacks, states[j].tab.callbacks, id, ClientSide)
    decreases j
  {
    hide Steps, Inv, TouchesClient;
    if i < j {
      ClientWindowStaysOpen(states, events, i, j - 1, id);
      RunInv(states, events, j - 1);
      assert StepAt(states, events, j - 1);
      ClientSideKept(states[j - 1], events[j - 1], states[j], id);
    }
  }

  lemma {:induction false} ServerWindowStaysOpen(states: seq<State>, events: seq<Event>, i: nat, j: nat, id: string)
    requires IsRun(states, events) && i <= j < |states|
    requires forall k :: i <= k <= j ==> id in states[k].tab.sessions
    requires forall k :: i <= k < j ==> !TouchesServer(states[k], events[k].op, id)
    ensures states[j].tab.sessions[id].server == states[i].tab.sessions[id].server
    ensures states[j].tab.sessions[id].serverConn == states[i].tab.sessions[id].serverConn
    ensures SamePending(states[i].tab.callbacks, states[j].tab.callbacks, id, ServerSide)
    decreases j
  {
    hide Steps, Inv, TouchesServer;
    if i < j {
      ServerWindowStaysOpen(states, events, i, j - 1, id);
      RunInv(states, events, j - 1);
      assert StepAt(states, events, j - 1);
      ServerSideKept(states[j - 1], events[j - 1], states[j], id);
    }
  }
}
