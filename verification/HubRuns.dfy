/** Theorems about whole runs of the hub, from the empty hub on. */
module HubRuns {
  import opened Common
  import opened Connections
  import opened Servers
  import opened Rooms
  import opened HubModel
  import opened HubInvariants

  ghost predicate Starts(s: State) {
    s.cap >= 1 && s.grace > 0 && s == Empty(s.grace, s.cap, s.now)
  }

  /** states[i] is the hub before events[i]. */
  ghost predicate IsRun(states: seq<State>, events: seq<Event>) {
    && |states| == |events| + 1
    && Starts(states[0])
    && forall i :: 0 <= i < |events| ==> StepAt(states, events, i)
  }

  ghost predicate StepAt(states: seq<State>, events: seq<Event>, i: nat)
    requires i < |events| && |states| == |events| + 1
  {
    Steps(states[i], events[i], states[i + 1])
  }

  lemma NextKeepsConfig(s: State, e: Event)
    requires Enabled(s, e)
    ensures Next(s, e).grace == s.grace && Next(s, e).cap == s.cap && Next(s, e).now == e.now
  {
  }

  lemma StartInv(s: State)
    requires Starts(s)
    ensures Inv(s)
  {
    EmptyInv(s.grace, s.cap, s.now);
  }

  lemma StepInv(s: State, e: Event, t: State)
    requires Inv(s) && Steps(s, e, t)
    ensures Inv(t) && t.grace == s.grace && t.cap == s.cap && t.now == e.now
  {
    NextKeepsInv(s, e);
    NextKeepsConfig(s, e);
  }

  /** Every reachable hub satisfies every invariant. */
  lemma {:induction false} RunInv(states: seq<State>, events: seq<Event>, k: nat)
    requires IsRun(states, events) && k < |states|
    ensures Inv(states[k])
    ensures states[k].grace == states[0].grace && states[k].cap == states[0].cap
    ensures k > 0 ==> states[k].now == events[k - 1].now
    decreases k
  {
    hide Steps, Starts, Inv;
    if k == 0 {
      StartInv(states[0]);
    } else {
      RunInv(states, events, k - 1);
      assert StepAt(states, events, k - 1);
      StepInv(states[k - 1], events[k - 1], states[k]);
    }
  }

  // --- Grace windows ---

  /** This side is stale, in the grace window `gen` whose timer is `timer`. */
  ghost predicate InWindow(t: Table, id: string, side: Side, gen: nat, timer: nat) {
    id in t.sessions && SideOf(t.sessions[id], side) == Grace(true, gen, Some(timer))
  }

  /** e is the drop that marks this side of the session stale. */
  ghost predicate Marks(s: State, op: Op, id: string, side: Side) {
    match side
    case ClientSide => op.OpMarkClientStale? && op.id == id && IsBound(s, id, op.expected)
    case ServerSide =>
      op.OpRemoveServerConn? && IsRegistered(s, op.server)
      && DeviceSession(s.tab, op.server.deviceID) == Some(id)
  }

  lemma MarkWindows(t: Table, id0: string, side0: Side, now: int, grace: int, cap: nat, victim: string,
                    reason: Reason, id: string, side: Side, gen: nat, timer: nat)
    requires id0 in t.sessions
    requires InWindow(MarkStale(t, id0, side0, now, grace, cap, victim, reason), id, side, gen, timer)
    ensures InWindow(t, id, side, gen, timer) || ((id, side) == (id0, side0) && timer == t.nextTimer)
  {
    MarkStaleSessions(t, id0, side0, now, grace, cap, victim, reason);
  }

  lemma BindServerWindows(t: Table, id0: string, server: OnlineServer, id: string, side: Side, gen: nat, timer: nat)
    requires id0 in t.sessions && InWindow(BindServer(t, id0, server), id, side, gen, timer)
    ensures InWindow(t, id, side, gen, timer)
  {
  }

  lemma BindClientWindows(t: Table, id0: string, conn: Connection?, id: string, side: Side, gen: nat, timer: nat)
    requires id0 in t.sessions && InWindow(BindClient(t, id0, conn), id, side, gen, timer)
    ensures InWindow(t, id, side, gen, timer)
  {
  }

  lemma FireWindows(t: Table, k: nat, id: string, side: Side, gen: nat, timer: nat)
    requires k in t.callbacks && InWindow(Fire(t, k), id, side, gen, timer)
    ensures InWindow(t, id, side, gen, timer)
  {
  }

  lemma DeviceOpWindows(s: State, op: Op, id: string, side: Side, gen: nat, timer: nat)
    requires op.OpAddServer? || op.OpRemoveServer? || op.OpRemoveServerConn?
    requires InWindow(Apply(s, op).tab, id, side, gen, timer)
    ensures InWindow(s.tab, id, side, gen, timer) || (Marks(s, op, id, side) && timer == s.tab.nextTimer)
  {
    match op
    case OpAddServer(deviceID, userID, server) =>
      var found := DeviceSession(s.tab, server.deviceID);
      if found.Some? {
        BindServerWindows(s.tab, found.value, server, id, side, gen, timer);
      }
    case OpRemoveServer(deviceID) =>
    case OpRemoveServerConn(server, victim) =>
      var found := DeviceSession(s.tab, server.deviceID);
      if IsRegistered(s, server) && found.Some? {
        MarkWindows(s.tab, found.value, ServerSide, s.now, s.grace, s.cap, victim, CapExceeded, id, side, gen, timer);
      }
  }

  lemma TableOpWindows(s: State, op: Op, id: string, side: Side, gen: nat, timer: nat)
    requires Enabled(s, At(s.now, op)) && OnTable(op)
    requires InWindow(Apply(s, op).tab, id, side, gen, timer)
    ensures InWindow(s.tab, id, side, gen, timer) || (Marks(s, op, id, side) && timer == s.tab.nextTimer)
  {
    match op
    case OpMarkClientStale(id0, expected, victim) =>
      if IsBound(s, id0, expected) {
        MarkWindows(s.tab, id0, ClientSide, s.now, s.grace, s.cap, victim,
                    if victim != id0 then CapExceeded else EvictedItself, id, side, gen, timer);
      }
    case OpSetSessionClient(id0, conn) =>
      if id0 in s.tab.sessions {
        BindClientWindows(s.tab, id0, conn, id, side, gen, timer);
      }
    case OpFire(k) => FireWindows(s.tab, k, id, side, gen, timer);
    case _ =>
  }

  /** A window that is open after a step was open before it, or the step is the drop that opens it. */
  lemma WindowBefore(s: State, e: Event, id: string, side: Side, gen: nat, timer: nat)
    requires Enabled(s, e) && InWindow(Next(s, e).tab, id, side, gen, timer)
    ensures InWindow(s.tab, id, side, gen, timer) || (Marks(s, e.op, id, side) && timer == s.tab.nextTimer)
  {
    var u := s.(now := e.now);
    if OnTable(e.op) {
      TableOpWindows(u, e.op, id, side, gen, timer);
    } else if e.op.OpAddServer? || e.op.OpRemoveServer? || e.op.OpRemoveServerConn? {
      DeviceOpWindows(u, e.op, id, side, gen, timer);
    } else {
      OtherOpWindows(u, e.op, id, side, gen, timer);
    }
  }

  lemma OtherOpWindows(s: State, op: Op, id: string, side: Side, gen: nat, timer: nat)
    requires Enabled(s, At(s.now, op))
    requires !OnTable(op) && !op.OpAddServer? && !op.OpRemoveServer? && !op.OpRemoveServerConn?
    requires InWindow(Apply(s, op).tab, id, side, gen, timer)
    ensures InWindow(s.tab, id, side, gen, timer)
  {
  }

  /** Pending callbacks never change except that they may get stopped, and a new one is due at `due`. */
  ghost predicate Follows(before: map<nat, Callback>, after: map<nat, Callback>, next: nat, due: int) {
    forall k :: k in after ==>
      if k in before
      then after[k] == before[k].(stopped := after[k].stopped) && (before[k].stopped ==> after[k].stopped)
      else k == next && after[k].deadline == due
  }

  lemma FollowsTwice(a: map<nat, Callback>, b: map<nat, Callback>, c: map<nat, Callback>, next: nat, due: int)
    requires b.Keys <= a.Keys && Follows(a, b, next, due) && Follows(b, c, next, due)
    requires forall k :: k in c ==> k in b
    ensures Follows(a, c, next, due)
  {
  }

  lemma StopFollows(cs: map<nat, Callback>, timer: Option<nat>, next: nat, due: int)
    ensures Follows(cs, StopTimer(cs, timer), next, due) && StopTimer(cs, timer).Keys == cs.Keys
  {
  }

  lemma ClearFollows(t: Table, id: string, due: int)
    requires id in t.sessions
    ensures Follows(t.callbacks, ClearGrace(t, id).callbacks, t.nextTimer, due)
    ensures ClearGrace(t, id).callbacks.Keys == t.callbacks.Keys
  {
    var x := t.sessions[id];
    StopFollows(t.callbacks, x.client.timer, t.nextTimer, due);
    StopFollows(StopTimer(t.callbacks, x.client.timer), x.server.timer, t.nextTimer, due);
    FollowsTwice(t.callbacks, StopTimer(t.callbacks, x.client.timer), ClearGrace(t, id).callbacks, t.nextTimer, due);
  }

  lemma MarkSideFollows(t: Table, id: string, side: Side, due: int)
    requires id in t.sessions && t.nextTimer !in t.callbacks
    ensures Follows(t.callbacks, MarkSide(t, id, side, due).callbacks, t.nextTimer, due)
  {
    StopFollows(t.callbacks, SideOf(t.sessions[id], side).timer, t.nextTimer, due);
  }

  lemma StopKeepsFollows(before: map<nat, Callback>, cs: map<nat, Callback>, timer: Option<nat>, next: nat, due: int)
    requires Follows(before, cs, next, due)
    ensures Follows(before, StopTimer(cs, timer), next, due)
  {
  }

  lemma ClearKeepsFollows(before: map<nat, Callback>, t: Table, id: string, next: nat, due: int)
    requires id in t.sessions && Follows(before, t.callbacks, next, due)
    ensures Follows(before, ClearGrace(t, id).callbacks, next, due)
  {
    var x := t.sessions[id];
    StopKeepsFollows(before, t.callbacks, x.client.timer, next, due);
    StopKeepsFollows(before, StopTimer(t.callbacks, x.client.timer), x.server.timer, next, due);
  }

  lemma EvictFollows(before: map<nat, Callback>, t: Table, id: string, now: int, cap: nat, victim: string,
                     reason: Reason, next: nat, due: int)
    requires Follows(before, t.callbacks, next, due)
    ensures Follows(before, TrackAndEvict(t, id, now, cap, victim, reason).callbacks, next, due)
  {
    hide Follows;
    if victim in t.sessions {
      ClearKeepsFollows(before, t.(stale := Track(t.stale, id, now)), victim, next, due);
    }
  }

  lemma MarkStaleFollows(t: Table, id: string, side: Side, now: int, grace: int, cap: nat, victim: string,
                         reason: Reason)
    requires id in t.sessions && t.nextTimer !in t.callbacks
    ensures Follows(t.callbacks, MarkStale(t, id, side, now, grace, cap, victim, reason).callbacks, t.nextTimer,
                    now + grace)
  {
    hide Follows, MarkSide, TrackAndEvict;
    MarkSideFollows(t, id, side, now + grace);
    EvictFollows(t.callbacks, MarkSide(t, id, side, now + grace), id, now, cap, victim, reason, t.nextTimer,
                 now + grace);
  }

  lemma BindFollows(t: Table, server: OnlineServer, due: int)
    ensures Follows(t.callbacks, BindDevice(t, server).callbacks, t.nextTimer, due)
  {
    hide Follows, StopTimer;
    Unstopped(t.callbacks, t.nextTimer, due);
    var found := DeviceSession(t, server.deviceID);
    if found.Some? {
      StopFollows(t.callbacks, t.sessions[found.value].server.timer, t.nextTimer, due);
    }
  }

  lemma Unstopped(cs: map<nat, Callback>, next: nat, due: int)
    ensures Follows(cs, cs, next, due)
  {
  }

  lemma RemoveFollows(t: Table, deviceID: string, due: int)
    ensures Follows(t.callbacks, RemoveDevice(t, deviceID).callbacks, t.nextTimer, due)
  {
    hide Follows, ClearGrace;
    Unstopped(t.callbacks, t.nextTimer, due);
    var found := DeviceSession(t, deviceID);
    if found.Some? {
      ClearFollows(t, found.value, due);
    }
  }

  lemma MarkDeviceFollows(t: Table, deviceID: string, now: int, grace: int, cap: nat, victim: string)
    requires t.nextTimer !in t.callbacks
    ensures Follows(t.callbacks, MarkDevice(t, deviceID, now, grace, cap, victim).callbacks, t.nextTimer, now + grace)
  {
    hide Follows, MarkStale;
    Unstopped(t.callbacks, t.nextTimer, now + grace);
    var found := DeviceSession(t, deviceID);
    if found.Some? {
      MarkStaleFollows(t, found.value, ServerSide, now, grace, cap, victim, CapExceeded);
    }
  }

  lemma DeviceOpFollows(s: State, op: Op)
    requires op.OpAddServer? || op.OpRemoveServer? || op.OpRemoveServerConn?
    requires s.tab.nextTimer !in s.tab.callbacks
    ensures Follows(s.tab.callbacks, Apply(s, op).tab.callbacks, s.tab.nextTimer, s.now + s.grace)
  {
    hide Follows, BindDevice, RemoveDevice, MarkDevice;
    Unstopped(s.tab.callbacks, s.tab.nextTimer, s.now + s.grace);
    match op
    case OpAddServer(deviceID, userID, server) => BindFollows(s.tab, server, s.now + s.grace);
    case OpRemoveServer(deviceID) => RemoveFollows(s.tab, deviceID, s.now + s.grace);
    case OpRemoveServerConn(server, victim) =>
      MarkDeviceFollows(s.tab, server.deviceID, s.now, s.grace, s.cap, victim);
  }

  lemma BindClientFollows(t: Table, id: string, conn: Connection?, due: int)
    requires id in t.sessions
    ensures Follows(t.callbacks, BindClient(t, id, conn).callbacks, t.nextTimer, due)
  {
    hide Follows, StopTimer;
    StopFollows(t.callbacks, t.sessions[id].client.timer, t.nextTimer, due);
  }

  lemma FireFollows(t: Table, timer: nat, due: int)
    requires timer in t.callbacks
    ensures Follows(t.callbacks, Fire(t, timer).callbacks, t.nextTimer, due)
  {
  }

  lemma TableOpFollows(s: State, op: Op)
    requires OnTable(op) && s.tab.nextTimer !in s.tab.callbacks
    ensures Follows(s.tab.callbacks, Apply(s, op).tab.callbacks, s.tab.nextTimer, s.now + s.grace)
  {
    hide Follows, MarkStale, BindClient, ClearGrace, Fire;
    var due := s.now + s.grace;
    Unstopped(s.tab.callbacks, s.tab.nextTimer, due);
    match op
    case OpMarkClientStale(id, expected, victim) =>
      if IsBound(s, id, expected) {
        MarkStaleFollows(s.tab, id, ClientSide, s.now, s.grace, s.cap, victim,
                         if victim != id then CapExceeded else EvictedItself);
      }
    case OpSetSessionClient(id, conn) =>
      if id in s.tab.sessions {
        BindClientFollows(s.tab, id, conn, due);
      }
    case OpRemoveSession(id) =>
      if id in s.tab.sessions {
        ClearFollows(s.tab, id, due);
      }
    case OpFire(timer) =>
      if timer in s.tab.callbacks {
        FireFollows(s.tab, timer, due);
      }
    case _ =>
  }

  lemma CallbackBefore(s: State, e: Event)
    requires TimersOk(s.tab) && Enabled(s, e)
    ensures Follows(s.tab.callbacks, Next(s, e).tab.callbacks, s.tab.nextTimer, e.now + s.grace)
  {
    var u := s.(now := e.now);
    assert s.tab.nextTimer !in s.tab.callbacks;
    Unstopped(s.tab.callbacks, s.tab.nextTimer, e.now + s.grace);
    hide Follows, TimersOk, Enabled;
    if OnTable(e.op) {
      TableOpFollows(u, e.op);
    } else if e.op.OpAddServer? || e.op.OpRemoveServer? || e.op.OpRemoveServerConn? {
      DeviceOpFollows(u, e.op);
    } else {
      assert Next(s, e).tab.callbacks == s.tab.callbacks;
    }
  }

  /** One step back from an open window: it was open, with its timer pending, or this step opened it. */
  lemma StepWindow(s: State, e: Event, t: State, id: string, side: Side, gen: nat, timer: nat)
    requires Inv(s) && Steps(s, e, t) && InWindow(t.tab, id, side, gen, timer) && timer in t.tab.callbacks
    ensures if InWindow(s.tab, id, side, gen, timer)
            then timer in s.tab.callbacks && s.tab.callbacks[timer].deadline == t.tab.callbacks[timer].deadline
            else Marks(s.(now := e.now), e.op, id, side) && t.tab.callbacks[timer].deadline == e.now + s.grace
  {
    WindowBefore(s, e, id, side, gen, timer);
    CallbackBefore(s, e);
    if InWindow(s.tab, id, side, gen, timer) {
      WindowTimerPending(s.tab, id, side, gen, timer);
    }
  }

  /** Looks back from an open window to the drop that opened it. */
  lemma {:induction false} OpenedBy(states: seq<State>, events: seq<Event>, k: nat,
                                    id: string, side: Side, gen: nat, timer: nat) returns (i: nat)
    requires IsRun(states, events) && k < |states| && InWindow(states[k].tab, id, side, gen, timer)
    requires timer in states[k].tab.callbacks
    ensures i < k && Marks(states[i].(now := events[i].now), events[i].op, id, side)
    ensures forall j :: i < j <= k ==>
              && InWindow(states[j].tab, id, side, gen, timer)
              && timer in states[j].tab.callbacks
    ensures states[k].tab.callbacks[timer].deadline == events[i].now + states[0].grace
    decreases k
  {
    hide Steps, Inv, Marks;
    if k == 0 {
      assert false;
    } else {
      var s, e := states[k - 1], events[k - 1];
      RunInv(states, events, k - 1);
      assert StepAt(states, events, k - 1);
      StepWindow(s, e, states[k], id, side, gen, timer);
      if InWindow(s.tab, id, side, gen, timer) {
        i := OpenedBy(states, events, k - 1, id, side, gen, timer);
      } else {
        i := k - 1;
      }
    }
  }

  lemma WindowTimerPending(t: Table, id: string, side: Side, gen: nat, timer: nat)
    requires TimersOk(t) && InWindow(t, id, side, gen, timer)
    ensures timer in t.callbacks && Armed(t.callbacks[timer], id, side, gen)
  {
    assert SideOk(t, id, side);
  }

  lemma ExpiryIsInWindow(t: Table, timer: nat)
    requires TimersOk(t) && timer in t.callbacks && Expires(t, t.callbacks[timer])
    ensures var cb := t.callbacks[timer];
            !cb.stopped && InWindow(t, cb.sessionID, cb.side, cb.gen, timer)
  {
    ExpiresIffUnstopped(t, timer);
    assert CallbackOk(t, timer);
  }

  /** Grace safety. Whenever a fired callback removes a session, its side has been stale without
      interruption since the very drop that armed this timer, and for the whole grace period. */
  lemma GraceSafety(states: seq<State>, events: seq<Event>, k: nat, timer: nat) returns (i: nat)
    requires IsRun(states, events) && k < |events|
    requires events[k].op == OpFire(timer) && timer in states[k].tab.callbacks
    requires var id := states[k].tab.callbacks[timer].sessionID;
             id in states[k].tab.sessions && id !in states[k + 1].tab.sessions
    ensures var cb := states[k].tab.callbacks[timer];
      && i < k
      && Marks(states[i].(now := events[i].now), events[i].op, cb.sessionID, cb.side)
      && events[i].now + states[0].grace == cb.deadline <= events[k].now
      && (forall j :: i < j <= k ==> InWindow(states[j].tab, cb.sessionID, cb.side, cb.gen, timer))
  {
    RunInv(states, events, k);
    assert StepAt(states, events, k);
    var cb := states[k].tab.callbacks[timer];
    assert Expires(states[k].tab, cb);
    ExpiryIsInWindow(states[k].tab, timer);
    i := OpenedBy(states, events, k, cb.sessionID, cb.side, cb.gen, timer);
  }

  /** A fired callback has an effect iff it was not stopped and its session is still registered; the
      callbacks of cancelled and of earlier windows are all stopped, so they change nothing. */
  lemma StaleCallbacksDoNothing(states: seq<State>, events: seq<Event>, k: nat, timer: nat)
    requires IsRun(states, events) && k < |events| && events[k].op == OpFire(timer)
    ensures timer in states[k].tab.callbacks
    ensures var cb := states[k].tab.callbacks[timer];
      if !cb.stopped && cb.sessionID in states[k].tab.sessions
      then cb.sessionID !in states[k + 1].tab.sessions
      else states[k + 1] == states[k].(now := events[k].now,
                                       tab := states[k].tab.(callbacks := states[k].tab.callbacks - {timer}))
  {
    RunInv(states, events, k);
    assert StepAt(states, events, k);
    ExpiresIffUnstopped(states[k].tab, timer);
  }

  /** No callback of this side of the session can still expire it. */
  ghost predicate AllStopped(t: Table, id: string, side: Side) {
    forall k :: k in t.callbacks && t.callbacks[k].sessionID == id && t.callbacks[k].side == side ==>
      t.callbacks[k].stopped
  }

  lemma CalmSideHasNoTimers(t: Table, id: string, side: Side)
    requires TimersOk(t) && id in t.sessions && !SideOf(t.sessions[id], side).stale
    ensures AllStopped(t, id, side)
  {
    forall k | k in t.callbacks && t.callbacks[k].sessionID == id && t.callbacks[k].side == side
      ensures t.callbacks[k].stopped
    {
      assert CallbackOk(t, k);
    }
  }

  /** A client that rejoins keeps its session and ends the client's grace window for good. */
  lemma RejoinEndsWindow(s: State, id: string, conn: Connection)
    requires Inv(s) && id in s.tab.sessions
    ensures var t := SetSessionClient(s, id, conn).tab;
      && id in t.sessions && t.sessions[id].clientConn == conn && AllStopped(t, id, ClientSide)
  {
    BindClientInv(s.tab, id, conn, s.cap, s.now);
    CalmSideHasNoTimers(SetSessionClient(s, id, conn).tab, id, ClientSide);
  }

  /** A server that comes back for its device's owner keeps every session of the device and ends the
      server's grace window for good. */
  lemma ResumeEndsWindow(s: State, server: OnlineServer, id: string)
    requires Inv(s) && MayAddServer(s, server.deviceID, server.userID) && server.generation == s.reg.serverGen + 1
    requires ForDevice(s.tab, id, server.deviceID)
    ensures var t := AddServer(s, server).tab;
      && id in t.sessions && t.sessions[id].serverConn == server && AllStopped(t, id, ServerSide)
  {
    AddServerInv(s, server);
    assert DeviceSession(s.tab, server.deviceID) == Some(id);
    BindServerSessions(s.tab, id, server);
    hide BindServer, MayAddServer, RegisterServer, AllStopped;
    CalmSideHasNoTimers(AddServer(s, server).tab, id, ServerSide);
  }

  // --- No side stays stale for longer than the grace period ---

  /** The clock fires due timers: no step happens later than the deadline of an unstopped callback. */
  ghost predicate Prompt(states: seq<State>, events: seq<Event>)
    requires |states| == |events| + 1
  {
    forall i, k :: 0 <= i < |events| && k in states[i].tab.callbacks && !states[i].tab.callbacks[k].stopped ==>
      events[i].now <= states[i].tab.callbacks[k].deadline
  }

  lemma StepDeadlines(s: State, e: Event, t: State, timer: nat)
    requires Inv(s) && Steps(s, e, t) && timer in t.tab.callbacks && !t.tab.callbacks[timer].stopped
    ensures if timer in s.tab.callbacks
            then !s.tab.callbacks[timer].stopped && t.tab.callbacks[timer].deadline == s.tab.callbacks[timer].deadline
            else t.tab.callbacks[timer].deadline > e.now
  {
    CallbackBefore(s, e);
  }

  lemma NotOverdue(states: seq<State>, events: seq<Event>, k: nat, timer: nat)
    requires IsRun(states, events) && Prompt(states, events) && k < |states|
    requires timer in states[k].tab.callbacks && !states[k].tab.callbacks[timer].stopped
    ensures states[k].now <= states[k].tab.callbacks[timer].deadline
  {
    hide Steps, Inv;
    RunInv(states, events, k);
    if k == 0 {
      assert false;
    } else {
      RunInv(states, events, k - 1);
      assert StepAt(states, events, k - 1);
      StepDeadlines(states[k - 1], events[k - 1], states[k], timer);
    }
  }

  /** No stale side is orphaned: it has exactly one pending unstopped timer, due one grace period after
      the drop; so with a clock that fires due timers it has been stale for at most that long. */
  lemma NoOrphanedStaleSide(states: seq<State>, events: seq<Event>, k: nat, id: string, side: Side)
      returns (timer: nat, i: nat)
    requires IsRun(states, events) && k < |states|
    requires id in states[k].tab.sessions && SideOf(states[k].tab.sessions[id], side).stale
    ensures var t := states[k].tab;
      && timer in t.callbacks && Armed(t.callbacks[timer], id, side, SideOf(t.sessions[id], side).gen)
      && (forall other | other in t.callbacks && Armed(t.callbacks[other], id, side, t.callbacks[other].gen) ::
            other == timer)
      && i < k && Marks(states[i].(now := events[i].now), events[i].op, id, side)
      && t.callbacks[timer].deadline == events[i].now + states[0].grace
      && (forall j :: i < j <= k ==> InWindow(states[j].tab, id, side, SideOf(t.sessions[id], side).gen, timer))
      && (Prompt(states, events) ==> states[k].now <= events[i].now + states[0].grace)
  {
    RunInv(states, events, k);
    var t := states[k].tab;
    assert SideOk(t, id, side);
    timer := SideOf(t.sessions[id], side).timer.value;
    i := OpenedBy(states, events, k, id, side, SideOf(t.sessions[id], side).gen, timer);
    forall other | other in t.callbacks && Armed(t.callbacks[other], id, side, t.callbacks[other].gen)
      ensures other == timer
    {
      assert CallbackOk(t, other);
    }
    if Prompt(states, events) {
      NotOverdue(states, events, k, timer);
    }
  }

  // --- Teardowns ---

  /** Why a session may leave the map in this step. */
  ghost predicate DepartsAs(s: State, op: Op, id: string, reason: Reason) {
    match op
    case OpFire(timer) => timer in s.tab.callbacks && s.tab.callbacks[timer].sessionID == id &&
      reason == ExpiryReason(s.tab.callbacks[timer].side)
    case OpRemoveServer(deviceID) => ForDevice(s.tab, id, deviceID) && reason == DeviceRemoved
    case OpRemoveServerConn(server, victim) => IsRegistered(s, server) && victim == id && reason == CapExceeded
    case OpMarkClientStale(marked, expected, victim) =>
      IsBound(s, marked, expected) && victim == id && reason == if id == marked then EvictedItself else CapExceeded
    case OpRemoveSession(removed) => removed == id && reason == ExplicitlyRemoved
    case OpCleanupStaleSessions(maxAge) =>
      id in s.tab.sessions && IsAbandoned(s.tab.sessions[id], s.now, maxAge) && reason == Abandoned
    case _ => false
  }

  /** The connections a session leaves with: those it had, less the one whose drop is this very step. */
  ghost predicate LeftWith(op: Op, id: string, before: Sess, after: Sess) {
    && after.serverConn == (if op.OpRemoveServerConn? && op.server.deviceID == before.deviceID then null
                            else before.serverConn)
    && after.clientConn == (if op.OpMarkClientStale? && op.id == id then null else before.clientConn)
  }

  lemma MarkDeparture(t: Table, id0: string, side: Side, now: int, grace: int, cap: nat, victim: string,
                      reason: Reason, id: string)
    requires id0 in t.sessions && id in t.sessions
    requires id !in MarkStale(t, id0, side, now, grace, cap, victim, reason).sessions
    ensures id == victim
    ensures var u := MarkStale(t, id0, side, now, grace, cap, victim, reason);
      && id in u.departed && u.departed[id].reason == reason
      && u.departed[id].sess.serverConn == (if id == id0 && side.ServerSide? then null else t.sessions[id].serverConn)
      && u.departed[id].sess.clientConn == (if id == id0 && side.ClientSide? then null else t.sessions[id].clientConn)
  {
    hide TrackAndEvict;
    EvictDeparture(MarkSide(t, id0, side, now + grace), id0, now, cap, victim, reason, id);
  }

  lemma EvictDeparture(t: Table, id0: string, now: int, cap: nat, victim: string, reason: Reason, id: string)
    requires id in t.sessions && id !in TrackAndEvict(t, id0, now, cap, victim, reason).sessions
    ensures id == victim
    ensures var u := TrackAndEvict(t, id0, now, cap, victim, reason);
      && id in u.departed && u.departed[id].reason == reason
      && u.departed[id].sess.serverConn == t.sessions[id].serverConn
      && u.departed[id].sess.clientConn == t.sessions[id].clientConn
  {
  }

  lemma DropDeparture(s: State, op: Op, id: string)
    requires op.OpMarkClientStale? || op.OpRemoveServerConn?
    requires OneSessionPerDevice(s.tab)
    requires id in s.tab.sessions && id !in Apply(s, op).tab.sessions
    ensures var u := Apply(s, op).tab;
      && id in u.departed && DepartsAs(s, op, id, u.departed[id].reason)
      && LeftWith(op, id, s.tab.sessions[id], u.departed[id].sess)
  {
    match op
    case OpMarkClientStale(marked, expected, victim) =>
      MarkDeparture(s.tab, marked, ClientSide, s.now, s.grace, s.cap, victim,
                    if victim != marked then CapExceeded else EvictedItself, id);
    case OpRemoveServerConn(server, victim) =>
      MarkDeparture(s.tab, DeviceSession(s.tab, server.deviceID).value, ServerSide, s.now, s.grace, s.cap, victim,
                    CapExceeded, id);
  }

  lemma FireDeparture(t: Table, timer: nat, id: string)
    requires timer in t.callbacks && id in t.sessions && id !in Fire(t, timer).sessions
    ensures var cb, u := t.callbacks[timer], Fire(t, timer);
      && cb.sessionID == id && id in u.departed
      && u.departed[id] == Departed(t.sessions[id], ExpiryReason(cb.side))
  {
  }

  lemma BindDeviceKeepsSessions(t: Table, server: OnlineServer)
    ensures BindDevice(t, server).sessions.Keys == t.sessions.Keys
  {
    var found := DeviceSession(t, server.deviceID);
    if found.Some? {
      BindServerSessions(t, found.value, server);
    }
  }

  lemma OtherDeparture(s: State, op: Op, id: string)
    requires !op.OpMarkClientStale? && !op.OpRemoveServerConn?
    requires id in s.tab.sessions && id !in Apply(s, op).tab.sessions
    ensures var u := Apply(s, op).tab;
      && id in u.departed && DepartsAs(s, op, id, u.departed[id].reason)
      && LeftWith(op, id, s.tab.sessions[id], u.departed[id].sess)
  {
    hide Fire, BindDevice, RegisterServer, CleanupDevice, UnregisterServer;
    match op
    case OpFire(timer) =>
      if timer in s.tab.callbacks {
        FireDeparture(s.tab, timer, id);
      }
    case OpAddServer(deviceID, userID, server) => BindDeviceKeepsSessions(s.tab, server);
    case _ =>
  }

  lemma DropFrozen(s: State, op: Op, id: string)
    requires IdsOk(s.tab) && id in s.tab.departed && (op.OpMarkClientStale? || op.OpRemoveServerConn?)
    ensures id in Apply(s, op).tab.departed && Apply(s, op).tab.departed[id] == s.tab.departed[id]
  {
    hide MarkStale, CleanupDevice, UnregisterServer;
    match op
    case OpMarkClientStale(marked, expected, victim) =>
      if IsBound(s, marked, expected) {
        MarkFrozen(s.tab, marked, ClientSide, s.now, s.grace, s.cap, victim,
                   if victim != marked then CapExceeded else EvictedItself, id);
      }
    case OpRemoveServerConn(server, victim) =>
      var found := DeviceSession(s.tab, server.deviceID);
      if IsRegistered(s, server) && found.Some? {
        MarkFrozen(s.tab, found.value, ServerSide, s.now, s.grace, s.cap, victim, CapExceeded, id);
      }
  }

  lemma DeviceFrozen(s: State, op: Op, id: string)
    requires IdsOk(s.tab) && id in s.tab.departed && (op.OpAddServer? || op.OpRemoveServer?)
    ensures id in Apply(s, op).tab.departed && Apply(s, op).tab.departed[id] == s.tab.departed[id]
  {
    hide CleanupDevice, UnregisterServer, RegisterServer, MayAddServer;
    match op
    case OpAddServer(deviceID, userID, server) => assert BindDevice(s.tab, server).departed == s.tab.departed;
    case _ =>
  }

  lemma TableFrozen(s: State, op: Op, id: string)
    requires IdsOk(s.tab) && id in s.tab.departed
    requires !op.OpMarkClientStale? && !op.OpRemoveServerConn? && !op.OpAddServer? && !op.OpRemoveServer?
    ensures id in Apply(s, op).tab.departed && Apply(s, op).tab.departed[id] == s.tab.departed[id]
  {
  }

  /** A departed session object is frozen: no step changes it, and its id is never used again. */
  lemma DepartedFrozen(s: State, op: Op, id: string)
    requires IdsOk(s.tab) && id in s.tab.departed
    ensures id in Apply(s, op).tab.departed && Apply(s, op).tab.departed[id] == s.tab.departed[id]
  {
    hide Apply, IdsOk;
    if op.OpMarkClientStale? || op.OpRemoveServerConn? {
      DropFrozen(s, op, id);
    } else if op.OpAddServer? || op.OpRemoveServer? {
      DeviceFrozen(s, op, id);
    } else {
      TableFrozen(s, op, id);
    }
  }

  lemma MarkFrozen(t: Table, id0: string, side: Side, now: int, grace: int, cap: nat, victim: string,
                   reason: Reason, id: string)
    requires IdsOk(t) && id0 in t.sessions && id in t.departed
    ensures var u := MarkStale(t, id0, side, now, grace, cap, victim, reason);
            id in u.departed && u.departed[id] == t.departed[id]
  {
    EvictFrozen(MarkSide(t, id0, side, now + grace), id0, now, cap, victim, reason, id);
    hide TrackAndEvict;
  }

  lemma EvictFrozen(t: Table, id0: string, now: int, cap: nat, victim: string, reason: Reason, id: string)
    requires id in t.departed && id !in t.sessions
    ensures var u := TrackAndEvict(t, id0, now, cap, victim, reason);
            id in u.departed && u.departed[id] == t.departed[id]
  {
  }

  lemma {:induction false} FrozenForGood(states: seq<State>, events: seq<Event>, i: nat, j: nat, id: string)
    requires IsRun(states, events) && i <= j < |states| && id in states[i].tab.departed
    ensures id in states[j].tab.departed && states[j].tab.departed[id] == states[i].tab.departed[id]
    decreases j
  {
    hide Steps, Inv;
    if i < j {
      FrozenForGood(states, events, i, j - 1, id);
      RunInv(states, events, j - 1);
      assert StepAt(states, events, j - 1);
      StepFrozen(states[j - 1], events[j - 1], states[j], id);
    }
  }

  lemma StepFrozen(s: State, e: Event, t: State, id: string)
    requires Inv(s) && Steps(s, e, t) && id in s.tab.departed
    ensures id in t.tab.departed && t.tab.departed[id] == s.tab.departed[id]
  {
    assert IdsOk(s.tab);
    hide Inv, IdsOk, Apply, Enabled;
    DepartedFrozen(s.(now := e.now), e.op, id);
  }

  lemma StepDeparture(s: State, e: Event, t: State, id: string)
    requires Inv(s) && Steps(s, e, t) && id in s.tab.sessions && id !in t.tab.sessions
    ensures id in t.tab.departed && DepartsAs(s.(now := e.now), e.op, id, t.tab.departed[id].reason)
    ensures LeftWith(e.op, id, s.tab.sessions[id], t.tab.departed[id].sess)
  {
    if e.op.OpMarkClientStale? || e.op.OpRemoveServerConn? {
      DropDeparture(s.(now := e.now), e.op, id);
    } else {
      OtherDeparture(s.(now := e.now), e.op, id);
    }
  }

  /** Exactly-once teardown. Follow a session that leaves the map in step i to any later moment j. It
      is not registered again; its object is still as it was when it left; all teardowns ever sent for
      it went to the connections it then had; and there is exactly one of them, owed or sent, if it
      left by grace expiry, by a cap eviction in favour of another session, or by RemoveServer, and
      none if it left by RemoveSession, as abandoned, or as the session evicted by its own drop. */
  lemma ExactlyOnceTeardown(states: seq<State>, events: seq<Event>, i: nat, j: nat, id: string)
    requires IsRun(states, events) && i < j < |states|
    requires id in states[i].tab.sessions && id !in states[i + 1].tab.sessions
    ensures id !in states[j].tab.sessions && id in states[j].tab.departed
    ensures var d := states[j].tab.departed[id];
      && id in states[i + 1].tab.departed && d == states[i + 1].tab.departed[id]
      && LeftWith(events[i].op, id, states[i].tab.sessions[id], d.sess)
      && DepartsAs(states[i].(now := events[i].now), events[i].op, id, d.reason)
      && (forall n :: n in states[j].tab.sent && n.sessionID == id ==> n == NoticeFor(id, d))
      && states[j].tab.owed[id] + states[j].tab.sent[NoticeFor(id, d)] == if Announced(d.reason) then 1 else 0
  {
    hide Steps, DepartsAs;
    RunInv(states, events, i);
    RunInv(states, events, j);
    assert StepAt(states, events, i);
    StepDeparture(states[i], events[i], states[i + 1], id);
    FrozenForGood(states, events, i + 1, j, id);
    LedgerAt(states[j], id);
  }

  lemma LedgerAt(s: State, id: string)
    requires Inv(s) && id in s.tab.departed
    ensures id !in s.tab.sessions
    ensures Teardowns(s.tab, id) == if Announced(s.tab.departed[id].reason) then 1 else 0
    ensures forall n :: n in s.tab.sent && n.sessionID == id ==> n == NoticeFor(id, s.tab.departed[id])
  {
  }

  /** A session that is still registered has no teardown, owed or sent. */
  lemma NoTeardownWhileRegistered(states: seq<State>, events: seq<Event>, j: nat, id: string, n: Notice)
    requires IsRun(states, events) && j < |states| && id in states[j].tab.sessions && n.sessionID == id
    ensures states[j].tab.owed[id] == 0 && states[j].tab.sent[n] == 0
  {
    RunInv(states, events, j);
    NothingBeforeDeparture(states[j].tab, id, n);
  }

  // --- The skipped teardown of MarkClientStale ---

  /** Dropping this client removes its own session and owes nobody a teardown. */
  ghost predicate SkipsTeardown(s: State, now: int, id: string, expected: Connection?, victim: string) {
    var t := MarkClientStale(s.(now := now), id, expected, victim).tab;
    && Enabled(s, At(now, OpMarkClientStale(id, expected, victim)))
    && id !in t.sessions && t.owed[id] == 0
  }

  /** What a caller would have to look at before the drop: the index is full, does not hold id yet, and
      all its entries were made at this very instant. */
  ghost predicate FullOfNewEntries(s: State, id: string, now: int) {
    id !in s.tab.stale && |s.tab.stale| == s.cap && forall k :: k in s.tab.stale ==> s.tab.stale[k] == now
  }

  lemma SkipOverflows(s: State, now: int, id: string, expected: Connection?, victim: string)
    requires IsBound(s, id, expected) && SkipsTeardown(s, now, id, expected, victim)
    ensures victim == id && Overflows(s.tab, id, now, s.cap) && IsOldest(Track(s.tab.stale, id, now), id)
  {
    hide MarkStale;
    var reason := if victim != id then CapExceeded else EvictedItself;
    MarkDeparture(s.tab, id, ClientSide, now, s.grace, s.cap, victim, reason, id);
    OnlyOverflowRemoves(s.tab, id, ClientSide, now, s.grace, s.cap, victim, reason, id);
  }

  lemma NoneOlder(s: State, now: int, id: string)
    requires IndexOk(s.tab, s.cap, s.now) && s.now <= now && id in s.tab.sessions
    requires Overflows(s.tab, id, now, s.cap) && IsOldest(Track(s.tab.stale, id, now), id)
    ensures FullOfNewEntries(s, id, now)
  {
    TrackSize(s.tab.stale, id, now);
    var tracked := Track(s.tab.stale, id, now);
    forall k | k in s.tab.stale ensures s.tab.stale[k] == now {
      assert tracked[id] <= tracked[k];
    }
  }

  lemma SkipNeedsFullIndex(s: State, now: int, id: string, expected: Connection?, victim: string)
    requires Inv(s) && s.now <= now && IsBound(s, id, expected)
    requires SkipsTeardown(s, now, id, expected, victim)
    ensures FullOfNewEntries(s, id, now)
  {
    hide SkipsTeardown, FullOfNewEntries, Overflows, IsOldest;
    SkipOverflows(s, now, id, expected, victim);
    NoneOlder(s, now, id);
  }

  lemma DropEvictsItself(t: Table, id: string, now: int, grace: int, cap: nat)
    requires id in t.sessions && Overflows(t, id, now, cap)
    ensures var u := MarkStale(t, id, ClientSide, now, grace, cap, id, EvictedItself);
            id !in u.sessions && u.owed == t.owed
  {
  }

  lemma EqualTimesMakeItOldest(s: State, id: string, now: int)
    requires FullOfNewEntries(s, id, now)
    ensures Overflows(s.tab, id, now, s.cap) && GoodVictim(s.tab, id, now, s.cap, id)
  {
    TrackSize(s.tab.stale, id, now);
  }

  lemma NothingOwedYet(s: State, id: string)
    requires Inv(s) && id in s.tab.sessions
    ensures s.tab.owed[id] == 0
  {
    NothingBeforeDeparture(s.tab, id, Notice(id, null, null, EvictedItself));
  }

  lemma FullIndexMaySkip(s: State, now: int, id: string, expected: Connection?)
    requires Inv(s) && s.now <= now && IsBound(s, id, expected) && FullOfNewEntries(s, id, now)
    ensures SkipsTeardown(s, now, id, expected, id)
  {
    hide MarkStale, Inv, GoodVictim, Overflows, FullOfNewEntries;
    NothingOwedYet(s, id);
    EqualTimesMakeItOldest(s, id, now);
    DropEvictsItself(s.tab, id, now, s.grace, s.cap);
  }

  /** A drop can go without teardown iff it needs a new entry in a full index whose entries are all as
      young as the drop itself, so that the map iteration may pick the session just marked. */
  lemma SkippedTeardownIff(s: State, now: int, id: string, expected: Connection?)
    requires Inv(s) && s.now <= now && IsBound(s, id, expected)
    ensures (exists victim :: SkipsTeardown(s, now, id, expected, victim)) <==> FullOfNewEntries(s, id, now)
  {
    hide SkipsTeardown, Inv;
    if victim :| SkipsTeardown(s, now, id, expected, victim) {
      SkipNeedsFullIndex(s, now, id, expected, victim);
    }
    if FullOfNewEntries(s, id, now) {
      FullIndexMaySkip(s, now, id, expected);
    }
  }

  lemma OnlyOverflowRemoves(t: Table, id0: string, side: Side, now: int, grace: int, cap: nat, victim: string,
                            reason: Reason, id: string)
    requires id0 in t.sessions && id in t.sessions
    requires id !in MarkStale(t, id0, side, now, grace, cap, victim, reason).sessions
    ensures Overflows(t, id0, now, cap)
  {
  }

  /** With a clock that advances between steps no teardown is ever skipped. */
  lemma StrictClockSkipsNone(s: State, now: int, id: string, expected: Connection?, victim: string)
    requires Inv(s) && s.now < now && IsBound(s, id, expected)
    ensures !SkipsTeardown(s, now, id, expected, victim)
  {
    SkippedTeardownIff(s, now, id, expected);
    if |s.tab.stale| == s.cap {
      assert s.tab.stale.Keys != {};
      var k :| k in s.tab.stale.Keys;
      assert s.tab.stale[k] <= s.now;
    }
  }

  ghost function TieReg(servers: map<string, OnlineServer>): Registry {
    Registry(servers, map[], map[], map[], |servers|, {})
  }

  ghost function TieState(servers: map<string, OnlineServer>, sessions: map<string, Sess>): State {
    State(TieReg(servers), Table(sessions, map[], map[], 0, map[], multiset{}, multiset{}), 30, 1, 7)
  }

  ghost function TieSess(server: OnlineServer, client: Connection?): Sess {
    Sess("u", "u", server.deviceID, true, 7, server, client, Grace(false, 0, None), Grace(false, 0, None))
  }

  lemma TieRegister(servers: map<string, OnlineServer>, server: OnlineServer)
    requires server.deviceID !in servers
    ensures RegisterServer(TieReg(servers), server) == TieReg(servers[server.deviceID := server])
  {
    assert servers[server.deviceID := server].Keys == servers.Keys + {server.deviceID};
    assert |servers[server.deviceID := server].Keys| == |servers[server.deviceID := server]|;
    assert |servers.Keys| == |servers|;
  }

  lemma TieAdd(servers: map<string, OnlineServer>, server: OnlineServer)
    requires server.userID == "u" && server.deviceID !in servers && server.generation == |servers| + 1
    ensures Steps(TieState(servers, map[]), At(7, OpAddServer(server.deviceID, "u", server)),
                  TieState(servers[server.deviceID := server], map[]))
  {
    var s := TieState(servers, map[]);
    TieRegister(servers, server);
    assert forall id :: !ForDevice(s.tab, id, server.deviceID);
    hide RegisterServer;
    assert BindDevice(s.tab, server) == s.tab;
    assert MayAddServer(s, server.deviceID, "u");
  }

  lemma TieCreate(servers: map<string, OnlineServer>, sessions: map<string, Sess>, server: OnlineServer, id: string)
    requires server.userID == "u" && server.deviceID in servers && servers[server.deviceID] == server
    requires id != "" && id !in sessions
    requires forall k :: k in sessions ==> sessions[k].deviceID != server.deviceID
    ensures Steps(TieState(servers, sessions), At(7, OpCreateSession("u", server.deviceID, id)),
                  TieState(servers, sessions[id := TieSess(server, null)]))
  {
    var s := TieState(servers, sessions);
    assert forall k :: !ForDevice(s.tab, k, server.deviceID);
  }

  lemma TieBind(servers: map<string, OnlineServer>, sessions: map<string, Sess>, server: OnlineServer, id: string,
                conn: Connection)
    requires id in sessions && sessions[id] == TieSess(server, null)
    ensures Steps(TieState(servers, sessions), At(7, OpSetSessionClient(id, conn)),
                  TieState(servers, sessions[id := TieSess(server, conn)]))
  {
    var s := TieState(servers, sessions);
    assert s.tab.stale - {id} == s.tab.stale;
    assert BindClient(s.tab, id, conn).sessions == sessions[id := TieSess(server, conn)];
  }

  lemma TieDrop(servers: map<string, OnlineServer>, sessions: map<string, Sess>, server: OnlineServer, id: string,
                conn: Connection) returns (t: State)
    requires id in sessions && sessions[id] == TieSess(server, conn)
    ensures Steps(TieState(servers, sessions), At(7, OpMarkClientStale(id, conn, "")), t)
    ensures t.tab.stale == map[id := 7] && t.tab.departed == map[]
    ensures t.tab.owed == multiset{} && t.tab.sent == multiset{}
    ensures t.cap == 1 && t.now == 7
    ensures forall k :: k in sessions && k != id ==> k in t.tab.sessions && t.tab.sessions[k] == sessions[k]
  {
    var s := TieState(servers, sessions);
    assert Track(s.tab.stale, id, 7) == map[id := 7];
    assert |map[id := 7]| == 1;
    t := Next(s, At(7, OpMarkClientStale(id, conn, "")));
  }

  lemma TieEvict(s: State, server: OnlineServer, id: string, other: string, conn: Connection) returns (t: State)
    requires s.tab.stale == map[other := 7] && s.tab.departed == map[]
    requires s.tab.owed == multiset{} && s.tab.sent == multiset{}
    requires s.cap == 1 && s.now == 7
    requires id != other && id in s.tab.sessions && s.tab.sessions[id] == TieSess(server, conn)
    ensures Steps(s, At(7, OpMarkClientStale(id, conn, id)), t)
    ensures id !in t.tab.sessions && t.tab.owed == multiset{} && t.tab.sent == multiset{}
  {
    TrackSize(s.tab.stale, id, 7);
    assert |s.tab.stale| == 1;
    t := Next(s, At(7, OpMarkClientStale(id, conn, id)));
  }

  lemma Extend(states: seq<State>, events: seq<Event>, e: Event, t: State)
      returns (longer: seq<State>, more: seq<Event>)
    requires IsRun(states, events) && Steps(states[|events|], e, t)
    ensures IsRun(longer, more) && longer == states + [t] && more == events + [e]
    ensures |longer| == |more| + 1 && longer[0] == states[0]
  {
    hide Steps, Starts;
    longer, more := states + [t], events + [e];
    forall i | 0 <= i < |more| ensures StepAt(longer, more, i) {
      assert i < |events| ==> StepAt(states, events, i);
    }
  }

  lemma TieStart()
    ensures IsRun([TieState(map[], map[])], [])
  {
    assert Starts(TieState(map[], map[]));
  }

  ghost function TieServers(a: OnlineServer, b: OnlineServer): map<string, OnlineServer> {
    map["A" := a, "B" := b]
  }

  ghost function TieSessions(a: OnlineServer, b: OnlineServer, c: Connection?, d: Connection?): map<string, Sess> {
    map["s" := TieSess(a, c), "t" := TieSess(b, d)]
  }

  lemma TieSetup(a: OnlineServer, b: OnlineServer) returns (states: seq<State>, events: seq<Event>)
    requires a.deviceID == "A" && a.userID == "u" && a.generation == 1
    requires b.deviceID == "B" && b.userID == "u" && b.generation == 2
    ensures IsRun(states, events) && |states| == 5 && |events| == 4 && states[0].cap == 1
    ensures states[4] == TieState(TieServers(a, b), TieSessions(a, b, null, null))
  {
    hide Steps, IsRun;
    TieStart();
    var one, both := map["A" := a], TieServers(a, b);
    assert both == one["B" := b];
    TieAdd(map[], a);
    TieAdd(one, b);
    states, events := Extend([TieState(map[], map[])], [], At(7, OpAddServer("A", "u", a)), TieState(one, map[]));
    states, events := Extend(states, events, At(7, OpAddServer("B", "u", b)), TieState(both, map[]));
    var s := map["s" := TieSess(a, null)];
    assert TieSessions(a, b, null, null) == s["t" := TieSess(b, null)];
    TieCreate(both, map[], a, "s");
    TieCreate(both, s, b, "t");
    states, events := Extend(states, events, At(7, OpCreateSession("u", "A", "s")), TieState(both, s));
    states, events := Extend(states, events, At(7, OpCreateSession("u", "B", "t")),
                             TieState(both, TieSessions(a, b, null, null)));
  }

  lemma TieJoin(a: OnlineServer, b: OnlineServer, c: Connection, d: Connection)
      returns (states: seq<State>, events: seq<Event>)
    requires a.deviceID == "A" && a.userID == "u" && a.generation == 1
    requires b.deviceID == "B" && b.userID == "u" && b.generation == 2
    ensures IsRun(states, events) && |states| == 7 && |events| == 6 && states[0].cap == 1
    ensures states[6] == TieState(TieServers(a, b), TieSessions(a, b, c, d))
  {
    hide Steps, IsRun, TieState, TieServers;
    states, events := TieSetup(a, b);
    var both := TieServers(a, b);
    assert TieSessions(a, b, c, null) == TieSessions(a, b, null, null)["s" := TieSess(a, c)];
    assert TieSessions(a, b, c, d) == TieSessions(a, b, c, null)["t" := TieSess(b, d)];
    TieBind(both, TieSessions(a, b, null, null), a, "s", c);
    TieBind(both, TieSessions(a, b, c, null), b, "t", d);
    states, events := Extend(states, events, At(7, OpSetSessionClient("s", c)),
                             TieState(both, TieSessions(a, b, c, null)));
    states, events := Extend(states, events, At(7, OpSetSessionClient("t", d)),
                             TieState(both, TieSessions(a, b, c, d)));
  }

  /** The failing input, in a reachable hub with cap 1: two sessions whose clients drop at the same
      instant. The second one is evicted by its own drop, and its server, which is still connected, is
      never told. */
  lemma TieSkipsTeardown(a: OnlineServer, b: OnlineServer, c: Connection, d: Connection)
      returns (states: seq<State>, events: seq<Event>)
    requires a.deviceID == "A" && a.userID == "u" && a.generation == 1
    requires b.deviceID == "B" && b.userID == "u" && b.generation == 2
    ensures IsRun(states, events) && |events| == 8 && states[0].cap == 1
    ensures events[7].op == OpMarkClientStale("t", d, "t")
    ensures "t" in states[7].tab.sessions && states[7].tab.sessions["t"].serverConn == b
    ensures "t" !in states[8].tab.sessions && states[8].tab.owed == multiset{} && states[8].tab.sent == multiset{}
  {
    hide Steps, IsRun, TieState, TieServers;
    states, events := TieJoin(a, b, c, d);
    var dropped := TieDrop(TieServers(a, b), TieSessions(a, b, c, d), a, "s", c);
    var evicted := TieEvict(dropped, b, "t", "s", d);
    states, events := Extend(states, events, At(7, OpMarkClientStale("s", c, "")), dropped);
    states, events := Extend(states, events, At(7, OpMarkClientStale("t", d, "t")), evicted);
  }

  // --- Presence, rooms and owners ---

  /** In every reachable hub: one session per device; a session's server side is stale iff it has no
      server connection iff its device is offline; a stale client side has no client connection; a server
      connection is the registered server unless that server was closed; and a session of CreateSession is
      bound to the registered server, whose user owns it. The stale index holds exactly the sessions with a
      stale side, within the cap. */
  lemma PresenceCoherence(states: seq<State>, events: seq<Event>, k: nat, id: string)
    requires IsRun(states, events) && k < |states| && id in states[k].tab.sessions
    ensures var s := states[k]; var x := s.tab.sessions[id];
      && (forall other | ForDevice(s.tab, other, x.deviceID) :: other == id)
      && (x.server.stale <==> x.serverConn == null)
      && (x.serverConn == null <==> x.deviceID !in s.reg.servers)
      && (x.client.stale ==> x.clientConn == null)
      && (x.serverConn != null ==>
            (x.serverConn == s.reg.servers[x.deviceID] <==> x.serverConn !in s.reg.closedServers))
      && (x.direct && x.serverConn != null ==>
            x.serverConn == s.reg.servers[x.deviceID] && x.serverConn.userID == x.ownerUserID)
      && (id in s.tab.stale <==> IsStale(x))
    ensures |states[k].tab.stale| <= states[0].cap
    ensures forall other :: other in states[k].tab.stale ==> other in states[k].tab.sessions
  {
    RunInv(states, events, k);
    assert PresenceOk(states[k].reg, states[k].tab.sessions[id]);
    assert ConnOk(states[k].tab.sessions[id]);
  }

  /** A guest session starts out bound to the server its guest was registered with. That is the device's
      registered server iff it has not been closed, which a caller can tell from it beforehand. */
  lemma GuestSessionBoundIff(states: seq<State>, events: seq<Event>, k: nat)
    requires IsRun(states, events) && k < |events| && events[k].op.OpCreateGuestSession?
    requires CreateGuestSessionError(states[k], events[k].op.shortID).None?
    ensures events[k].op.shortID in states[k].reg.guests && events[k].op.id in states[k + 1].tab.sessions
    ensures var guest := states[k].reg.guests[events[k].op.shortID];
            var x := states[k + 1].tab.sessions[events[k].op.id];
      && x.serverConn == guest.server && x.deviceID == guest.deviceID && x.deviceID in states[k + 1].reg.servers
      && (states[k + 1].reg.servers[x.deviceID] == x.serverConn <==> guest.server !in states[k].reg.closedServers)
  {
    RunInv(states, events, k);
    assert StepAt(states, events, k);
    var s := states[k];
    assert RegisteredOrClosed(s.reg, s.reg.guests[events[k].op.shortID].deviceID,
                              s.reg.guests[events[k].op.shortID].server);
  }

  ghost function LateState(servers: map<string, OnlineServer>, guests: map<string, Guest>, gen: nat,
                           closed: set<OnlineServer>, sessions: map<string, Sess>): State {
    State(Registry(servers, guests, map[], map[], gen, closed),
          Table(sessions, map[], map[], 0, map[], multiset{}, multiset{}), 30, 1, 7)
  }

  lemma LateStart(s: State)
    requires s == LateState(map[], map[], 0, {}, map[])
    ensures IsRun([s], [])
  {
    assert Starts(s);
  }

  lemma LateRegister(s: State, guest: Guest, t: State)
    requires s.reg.guests == map[] && guest.deviceID in s.reg.servers && s.now == 7
    requires s.reg.servers[guest.deviceID] == guest.server
    requires t == s.(reg := s.reg.(guests := map["g" := guest]))
    ensures Steps(s, At(7, OpRegisterGuest("g", guest.userID, guest.deviceID)), t)
  {
  }

  lemma LateAdd(s: State, server: OnlineServer, t: State)
    requires s.tab.sessions == map[] && s.reg.rooms == map[] && s.reg.serverRooms == map[] && s.now == 7
    requires server.generation == s.reg.serverGen + 1
    requires server.deviceID in s.reg.servers ==> s.reg.servers[server.deviceID].userID == server.userID
    requires t == s.(reg := RegisterServer(s.reg, server))
    ensures Steps(s, At(7, OpAddServer(server.deviceID, server.userID, server)), t)
  {
    assert forall id :: !ForDevice(s.tab, id, server.deviceID);
  }

  lemma LateGuestSession(s: State, guest: Guest, t: State)
    requires s.reg.guests == map["g" := guest] && s.tab.sessions == map[] && s.tab.departed == map[] && s.now == 7
    requires t == s.(tab := s.tab.(sessions :=
                       map["s" := NewSess("guest", guest.userID, guest.deviceID, false, 7, guest.server)]))
    ensures Steps(s, At(7, OpCreateGuestSession("g", "s")), t)
    ensures CreateGuestSessionError(s, "g").None?
  {
    assert forall id :: !ForDevice(s.tab, id, guest.deviceID);
  }

  /** A reachable case: a guest is registered, the device's server is replaced, and a session of that guest
      is then bound to the closed server, although the device is online with the new one. */
  lemma GuestOfReplacedServer(a: OnlineServer, b: OnlineServer) returns (states: seq<State>, events: seq<Event>)
    requires a.deviceID == b.deviceID && a.userID == b.userID && a.generation == 1 && b.generation == 2
    ensures IsRun(states, events) && |events| == 4 && events[3].op == OpCreateGuestSession("g", "s")
    ensures CreateGuestSessionError(states[3], "g").None? && "s" in states[4].tab.sessions
    ensures states[4].tab.sessions["s"].serverConn == a && a in states[4].reg.closedServers
    ensures IsRegistered(states[4], b)
  {
    hide Steps, IsRun, Starts, StepAt, CreateGuestSessionError;
    var d, u := a.deviceID, a.userID;
    var guest := Guest(u, d, a);
    var s0 := LateState(map[], map[], 0, {}, map[]);
    var s1 := LateState(map[d := a], map[], 1, {}, map[]);
    var s2 := LateState(map[d := a], map["g" := guest], 1, {}, map[]);
    var s3 := LateState(map[d := b], map["g" := guest], 2, {a}, map[]);
    var s4 := LateState(map[d := b], map["g" := guest], 2, {a}, map["s" := NewSess("guest", u, d, false, 7, a)]);
    LateStart(s0);
    LateAdd(s0, a, s1);
    LateRegister(s1, guest, s2);
    assert s3 == s2.(reg := RegisterServer(s2.reg, b)) by {
      assert map[d := a][d := b] == map[d := b];
    }
    LateAdd(s2, b, s3);
    LateGuestSession(s3, guest, s4);
    states, events := Extend([s0], [], At(7, OpAddServer(d, u, a)), s1);
    states, events := Extend(states, events, At(7, OpRegisterGuest("g", u, d)), s2);
    states, events := Extend(states, events, At(7, OpAddServer(d, u, b)), s3);
    states, events := Extend(states, events, At(7, OpCreateGuestSession("g", "s")), s4);
  }

  /** In every reachable hub: rooms and serverRooms are mutually inverse, and every registered room is
      open, belongs to an online device, routes to that device's current server in its generation, and
      is owned by that server's user; guest registrations belong to online devices, and the server of one is
      the registered one unless it was closed. */
  lemma RoomRegistry(states: seq<State>, events: seq<Event>, k: nat)
    requires IsRun(states, events) && k < |states|
    ensures var r := states[k].reg;
      && (forall d, id | d in r.serverRooms && r.serverRooms[d] == id :: id in r.rooms && r.rooms[id].deviceID == d)
      && (forall id | id in r.rooms ::
            var room := r.rooms[id];
            && room.deviceID in r.serverRooms && r.serverRooms[room.deviceID] == id
            && room.deviceID in r.servers && !room.closed
            && room.route == Route(r.servers[room.deviceID], r.servers[room.deviceID].generation)
            && room.ownerUserID == r.servers[room.deviceID].userID)
      && (forall g | g in r.guests ::
            && r.guests[g].deviceID in r.servers
            && (r.servers[r.guests[g].deviceID] == r.guests[g].server <==> r.guests[g].server !in r.closedServers))
  {
    RunInv(states, events, k);
    var r := states[k].reg;
    assert forall g | g in r.guests :: RegisteredOrClosed(r, r.guests[g].deviceID, r.guests[g].server);
    assert forall id | id in r.rooms :: RoomOk(r, id);
  }

  /** Unless it is the object a step registers, an unregistered server stays unregistered, and closed
      servers stay closed. */
  lemma StepSuperseded(s: State, e: Event, t: State, server: OnlineServer)
    requires Steps(s, e, t) && server.generation <= s.reg.serverGen && !IsRegistered(s, server)
    ensures server.generation <= t.reg.serverGen && !IsRegistered(t, server)
    ensures s.reg.closedServers <= t.reg.closedServers
  {
    var u := s.(now := e.now);
    if OnTable(e.op) {
      assert t.reg == s.reg;
    } else {
      RegistrySuperseded(u, e.op, server);
    }
  }

  lemma RegistrySuperseded(s: State, op: Op, server: OnlineServer)
    requires Enabled(s, At(s.now, op)) && !OnTable(op)
    requires server.generation <= s.reg.serverGen && !IsRegistered(s, server)
    ensures server.generation <= Apply(s, op).reg.serverGen && !IsRegistered(Apply(s, op), server)
    ensures s.reg.closedServers <= Apply(s, op).reg.closedServers
  {
  }

  lemma {:induction false} SupersededForGood(states: seq<State>, events: seq<Event>, i: nat, j: nat,
                                             server: OnlineServer)
    requires IsRun(states, events) && i <= j < |states|
    requires server.generation <= states[i].reg.serverGen && !IsRegistered(states[i], server)
    ensures server.generation <= states[j].reg.serverGen && !IsRegistered(states[j], server)
    ensures states[i].reg.closedServers <= states[j].reg.closedServers
    decreases j
  {
    hide Steps;
    if i < j {
      SupersededForGood(states, events, i, j - 1, server);
      assert StepAt(states, events, j - 1);
      StepSuperseded(states[j - 1], events[j - 1], states[j], server);
    }
  }

  lemma StepReplaces(s: State, e: Event, t: State, replaced: OnlineServer)
    requires Inv(s) && Steps(s, e, t) && IsRegistered(s, replaced)
    requires e.op.OpAddServer? && e.op.deviceID == replaced.deviceID
    ensures replaced.generation <= t.reg.serverGen && !IsRegistered(t, replaced) && replaced in t.reg.closedServers
  {
  }

  /** A server that was just added is the one whose frames are routed. */
  lemma AddedIsRoutable(s: State, now: int, deviceID: string, userID: string, server: OnlineServer, t: State)
    requires Inv(s) && Steps(s, At(now, OpAddServer(deviceID, userID, server)), t)
    ensures server.deviceID == deviceID && Routable(t, server) && t.tab == BindDevice(s.tab, server) && t.now == now
  {
    StepInv(s, At(now, OpAddServer(deviceID, userID, server)), t);
    assert IsRegistered(t, server);
    assert t.reg.servers[server.deviceID] !in t.reg.closedServers;
  }

  lemma StepIgnoresSuperseded(s: State, e: Event, t: State, replaced: OnlineServer)
    requires Steps(s, e, t) && !IsRegistered(s, replaced) && e.op.OpRemoveServerConn? && e.op.server == replaced
    ensures t == s.(now := e.now)
  {
  }

  /** No stale server frame. Once AddServer has replaced a server it is closed, no frame of it is ever
      routed again, whenever it was read, and the end of its read pump changes nothing. */
  lemma ReplacedServerIsCut(states: seq<State>, events: seq<Event>, i: nat, j: nat, replaced: OnlineServer)
    requires IsRun(states, events) && i < j < |states| && IsRegistered(states[i], replaced)
    requires events[i].op.OpAddServer? && events[i].op.deviceID == replaced.deviceID
    ensures !Routable(states[j], replaced) && replaced in states[j].reg.closedServers
    ensures j < |events| && events[j].op.OpRemoveServerConn? && events[j].op.server == replaced ==>
              states[j + 1] == states[j].(now := events[j].now)
  {
    hide Steps, Inv;
    RunInv(states, events, i);
    assert StepAt(states, events, i);
    StepReplaces(states[i], events[i], states[i + 1], replaced);
    SupersededForGood(states, events, i + 1, j, replaced);
    if j < |events| && events[j].op.OpRemoveServerConn? && events[j].op.server == replaced {
      assert StepAt(states, events, j);
      StepIgnoresSuperseded(states[j], events[j], states[j + 1], replaced);
    }
  }

  ghost predicate SameIdentity(x: Sess, y: Sess) {
    x.userID == y.userID && x.ownerUserID == y.ownerUserID && x.deviceID == y.deviceID
    && x.direct == y.direct && x.createdAt == y.createdAt
  }

  lemma MarkStaleIdentity(t: Table, id0: string, side: Side, now: int, grace: int, cap: nat, victim: string,
                          reason: Reason, id: string)
    requires id0 in t.sessions && id in t.sessions
    ensures var u := MarkStale(t, id0, side, now, grace, cap, victim, reason);
            id in u.sessions ==> SameIdentity(t.sessions[id], u.sessions[id])
  {
    MarkStaleSessions(t, id0, side, now, grace, cap, victim, reason);
  }

  lemma MarkDeviceIdentity(t: Table, deviceID: string, now: int, grace: int, cap: nat, victim: string, id: string)
    requires id in t.sessions
    ensures var u := MarkDevice(t, deviceID, now, grace, cap, victim);
            id in u.sessions ==> SameIdentity(t.sessions[id], u.sessions[id])
  {
    var found := DeviceSession(t, deviceID);
    if found.Some? {
      MarkStaleIdentity(t, found.value, ServerSide, now, grace, cap, victim, CapExceeded, id);
    }
  }

  lemma DropIdentity(s: State, op: Op, id: string)
    requires op.OpMarkClientStale? || op.OpRemoveServerConn?
    requires id in s.tab.sessions && id in Apply(s, op).tab.sessions
    ensures SameIdentity(s.tab.sessions[id], Apply(s, op).tab.sessions[id])
  {
    hide MarkStale, MarkDevice, SameIdentity, CleanupDevice, UnregisterServer;
    Unchanged(s.tab.sessions[id]);
    match op
    case OpMarkClientStale(marked, expected, victim) =>
      if IsBound(s, marked, expected) {
        MarkStaleIdentity(s.tab, marked, ClientSide, s.now, s.grace, s.cap, victim,
                          if victim != marked then CapExceeded else EvictedItself, id);
      }
    case OpRemoveServerConn(server, victim) =>
      MarkDeviceIdentity(s.tab, server.deviceID, s.now, s.grace, s.cap, victim, id);
  }

  lemma Unchanged(x: Sess)
    ensures SameIdentity(x, x)
  {
  }

  lemma BindDeviceIdentity(t: Table, server: OnlineServer, id: string)
    requires id in t.sessions
    ensures id in BindDevice(t, server).sessions && SameIdentity(t.sessions[id], BindDevice(t, server).sessions[id])
  {
    var found := DeviceSession(t, server.deviceID);
    if found.Some? {
      BindServerSessions(t, found.value, server);
    }
  }

  lemma BindClientIdentity(t: Table, id0: string, conn: Connection?, id: string)
    requires id0 in t.sessions && id in t.sessions
    ensures id in BindClient(t, id0, conn).sessions
    ensures SameIdentity(t.sessions[id], BindClient(t, id0, conn).sessions[id])
  {
  }

  lemma BindIdentity(s: State, op: Op, id: string)
    requires op.OpAddServer? || op.OpSetSessionClient?
    requires id in s.tab.sessions && id in Apply(s, op).tab.sessions
    ensures SameIdentity(s.tab.sessions[id], Apply(s, op).tab.sessions[id])
  {
    hide BindDevice, BindClient, SameIdentity, RegisterServer, MayAddServer;
    Unchanged(s.tab.sessions[id]);
    match op
    case OpAddServer(deviceID, userID, server) => BindDeviceIdentity(s.tab, server, id);
    case OpSetSessionClient(id0, conn) =>
      if id0 in s.tab.sessions {
        BindClientIdentity(s.tab, id0, conn, id);
      }
  }

  lemma OtherIdentity(s: State, op: Op, id: string)
    requires !op.OpMarkClientStale? && !op.OpRemoveServerConn? && !op.OpAddServer? && !op.OpSetSessionClient?
    requires Enabled(s, At(s.now, op)) && id in s.tab.sessions && id in Apply(s, op).tab.sessions
    ensures SameIdentity(s.tab.sessions[id], Apply(s, op).tab.sessions[id])
  {
  }

  lemma StepIdentity(s: State, e: Event, t: State, id: string)
    requires Steps(s, e, t) && id in s.tab.sessions && id in t.tab.sessions
    ensures SameIdentity(s.tab.sessions[id], t.tab.sessions[id])
  {
    var u := s.(now := e.now);
    if e.op.OpMarkClientStale? || e.op.OpRemoveServerConn? {
      DropIdentity(u, e.op, id);
    } else if e.op.OpAddServer? || e.op.OpSetSessionClient? {
      BindIdentity(u, e.op, id);
    } else {
      OtherIdentity(u, e.op, id);
    }
  }

  lemma StepNoReturn(s: State, e: Event, t: State, id: string)
    requires Inv(s) && Steps(s, e, t) && id in s.tab.departed
    ensures id in t.tab.departed && id !in t.tab.sessions
  {
    StepFrozen(s, e, t, id);
    NextKeepsInv(s, e);
  }

  /** Owner stability. Between any two moments at which a session is registered, across drops, grace
      windows and reconnects, it keeps its owner, user and device; and whenever a session of
      CreateSession is bound to a server, that server's user is its owner. */
  lemma {:induction false} OwnerStability(states: seq<State>, events: seq<Event>, i: nat, j: nat, id: string)
    requires IsRun(states, events) && i <= j < |states|
    requires id in states[i].tab.sessions && id in states[j].tab.sessions
    ensures SameIdentity(states[i].tab.sessions[id], states[j].tab.sessions[id])
    ensures var x := states[j].tab.sessions[id];
            x.direct && x.serverConn != null ==> x.serverConn.userID == states[i].tab.sessions[id].ownerUserID
    decreases j
  {
    hide Steps, Inv;
    PresenceCoherence(states, events, j, id);
    if i < j {
      RunInv(states, events, j - 1);
      assert StepAt(states, events, j - 1);
      if id !in states[j - 1].tab.sessions {
        GoneBetween(states, events, i, j - 1, id);
        StepNoReturn(states[j - 1], events[j - 1], states[j], id);
      } else {
        OwnerStability(states, events, i, j - 1, id);
        StepIdentity(states[j - 1], events[j - 1], states[j], id);
      }
    }
  }

  lemma {:induction false} GoneBetween(states: seq<State>, events: seq<Event>, i: nat, j: nat, id: string)
    requires IsRun(states, events) && i <= j < |states|
    requires id in states[i].tab.sessions && id !in states[j].tab.sessions
    ensures id in states[j].tab.departed
    decreases j
  {
    hide Steps, Inv, DepartsAs, LeftWith;
    RunInv(states, events, j - 1);
    assert StepAt(states, events, j - 1);
    if id in states[j - 1].tab.sessions {
      StepDeparture(states[j - 1], events[j - 1], states[j], id);
    } else {
      GoneBetween(states, events, i, j - 1, id);
      StepFrozen(states[j - 1], events[j - 1], states[j], id);
    }
  }
}
