/** What every step of the hub keeps. */
module HubInvariants {
  import opened Common
  import opened Connections
  import opened Servers
  import opened Rooms
  import opened HubModel

  // --- Invariants of the session table ---

  ghost predicate IdsOk(t: Table) {
    && "" !in t.sessions
    && forall id :: id in t.sessions ==> id !in t.departed
  }

  ghost predicate OneSessionPerDevice(t: Table) {
    forall a, b | a in t.sessions && b in t.sessions :: t.sessions[a].deviceID == t.sessions[b].deviceID ==> a == b
  }

  ghost predicate ConnsOk(t: Table) {
    forall id :: id in t.sessions ==> ConnOk(t.sessions[id])
  }

  ghost predicate ConnOk(x: Sess) {
    (x.client.stale ==> x.clientConn == null) && (x.server.stale <==> x.serverConn == null)
  }

  ghost predicate Armed(cb: Callback, id: string, side: Side, gen: nat) {
    !cb.stopped && cb.sessionID == id && cb.side == side && cb.gen == gen
  }

  /** A stale side owns a pending, unstopped timer of its current generation; a calm one owns none. */
  ghost predicate SideOk(t: Table, id: string, side: Side)
    requires id in t.sessions
  {
    var g := SideOf(t.sessions[id], side);
    if g.stale then g.timer.Some? && g.timer.value in t.callbacks && Armed(t.callbacks[g.timer.value], id, side, g.gen)
    else g.timer.None?
  }

  /** An unstopped callback of a registered session is the one its side owns; a stopped one can no
      longer match flag and generation. */
  ghost predicate CallbackOk(t: Table, timer: nat)
    requires timer in t.callbacks
  {
    var cb := t.callbacks[timer];
    && (cb.sessionID in t.sessions || cb.sessionID in t.departed)
    && (cb.sessionID in t.sessions ==>
          var g := SideOf(t.sessions[cb.sessionID], cb.side);
          && cb.gen <= g.gen
          && (!cb.stopped ==> g.stale && g.timer == Some(timer))
          && (cb.stopped ==> cb.gen < g.gen || !g.stale))
  }

  ghost predicate TimersOk(t: Table) {
    && (forall id, side :: id in t.sessions ==> SideOk(t, id, side))
    && (forall timer :: timer in t.callbacks ==> timer < t.nextTimer && CallbackOk(t, timer))
  }

  /** staleSessions holds exactly the sessions with a stale side, within the cap. */
  ghost predicate IndexOk(t: Table, cap: nat, now: int) {
    && (forall id :: id in t.stale <==> id in t.sessions && IsStale(t.sessions[id]))
    && (forall id :: id in t.stale ==> t.stale[id] <= now)
    && |t.stale| <= cap
  }

  /** What IndexOk says of one session. */
  ghost predicate Indexed(t: Table, id: string, now: int) {
    && (id in t.stale <==> id in t.sessions && IsStale(t.sessions[id]))
    && (id in t.stale ==> t.stale[id] <= now)
  }

  /** Teardowns owed to and sent for a departed session. */
  ghost function Teardowns(t: Table, id: string): nat
    requires id in t.departed
  {
    t.owed[id] + t.sent[NoticeFor(id, t.departed[id])]
  }

  /** Every departed session has exactly one teardown, owed or sent, if its departure is announced, and
      none otherwise; and nothing was ever sent but the connections it had when it departed. */
  ghost predicate LedgerOk(t: Table) {
    && (forall id :: id in t.departed ==> Teardowns(t, id) == if Announced(t.departed[id].reason) then 1 else 0)
    && (forall id :: id in t.owed ==> id in t.departed)
    && (forall n :: n in t.sent ==> n.sessionID in t.departed && n == NoticeFor(n.sessionID, t.departed[n.sessionID]))
  }

  ghost predicate ShapeOk(t: Table) {
    IdsOk(t) && OneSessionPerDevice(t) && ConnsOk(t)
  }

  ghost predicate TableInv(t: Table, cap: nat, now: int) {
    && ShapeOk(t)
    && TimersOk(t) && IndexOk(t, cap, now) && LedgerOk(t)
  }

  // --- Timers ---

  lemma MarkSideTimers(t: Table, id: string, side: Side, deadline: int)
    requires TimersOk(t) && id in t.sessions
    ensures TimersOk(MarkSide(t, id, side, deadline))
  {
    var u := MarkSide(t, id, side, deadline);
    assert SideOk(t, id, side);
    forall k, s | k in u.sessions ensures SideOk(u, k, s) {
      assert SideOk(t, k, s);
    }
    forall timer | timer in u.callbacks ensures timer < u.nextTimer && CallbackOk(u, timer) {
      if timer in t.callbacks {
        assert CallbackOk(t, timer);
      }
    }
  }

  /** One side calmed, its timer stopped. */
  ghost function CalmSide(t: Table, id: string, side: Side): Table
    requires id in t.sessions
  {
    t.(sessions := t.sessions[id := Calmed(t.sessions[id], side)],
       callbacks := StopTimer(t.callbacks, SideOf(t.sessions[id], side).timer))
  }

  lemma CalmSideTimers(t: Table, id: string, side: Side)
    requires TimersOk(t) && id in t.sessions
    ensures TimersOk(CalmSide(t, id, side))
  {
    var u := CalmSide(t, id, side);
    assert SideOk(t, id, side);
    forall k, s | k in u.sessions ensures SideOk(u, k, s) {
      assert SideOk(t, k, s);
    }
    forall timer | timer in u.callbacks ensures timer < u.nextTimer && CallbackOk(u, timer) {
      assert CallbackOk(t, timer);
    }
  }

  /** TimersOk looks at sessions, departed ids, callbacks and nextTimer only. */
  lemma SameTimers(t: Table, u: Table)
    requires TimersOk(t)
    requires u.sessions.Keys == t.sessions.Keys && u.departed == t.departed
    requires u.callbacks == t.callbacks && u.nextTimer == t.nextTimer
    requires forall id :: id in t.sessions ==>
               t.sessions[id].client == u.sessions[id].client && t.sessions[id].server == u.sessions[id].server
    ensures TimersOk(u)
  {
    forall k, s | k in u.sessions ensures SideOk(u, k, s) {
      assert SideOk(t, k, s);
    }
    forall timer | timer in u.callbacks ensures timer < u.nextTimer && CallbackOk(u, timer) {
      assert CallbackOk(t, timer);
    }
  }

  lemma CancelTimers(t: Table, id: string, side: Side)
    requires TimersOk(t) && id in t.sessions
    ensures TimersOk(Cancel(t, id, side))
  {
    CalmSideTimers(t, id, side);
    SameTimers(CalmSide(t, id, side), Cancel(t, id, side));
  }

  lemma ClearGraceTimers(t: Table, id: string)
    requires TimersOk(t) && id in t.sessions
    ensures TimersOk(ClearGrace(t, id))
  {
    CalmSideTimers(t, id, ClientSide);
    CalmSideTimers(CalmSide(t, id, ClientSide), id, ServerSide);
    SameTimers(CalmSide(CalmSide(t, id, ClientSide), id, ServerSide), ClearGrace(t, id));
  }

  lemma DepartTimers(t: Table, id: string, reason: Reason)
    requires TimersOk(t) && id in t.sessions
    ensures TimersOk(Depart(t, id, reason))
  {
    var u := Depart(t, id, reason);
    forall k, s | k in u.sessions ensures SideOk(u, k, s) {
      assert SideOk(t, k, s);
    }
    forall timer | timer in u.callbacks ensures timer < u.nextTimer && CallbackOk(u, timer) {
      assert CallbackOk(t, timer);
    }
  }

  lemma SweepTimers(t: Table, now: int, maxAge: int)
    requires TimersOk(t)
    ensures TimersOk(Sweep(t, now, maxAge))
  {
    var u := Sweep(t, now, maxAge);
    forall k, s | k in u.sessions ensures SideOk(u, k, s) {
      assert SideOk(t, k, s);
    }
    forall timer | timer in u.callbacks ensures timer < u.nextTimer && CallbackOk(u, timer) {
      assert CallbackOk(t, timer);
    }
  }

  lemma InsertTimers(t: Table, id: string, x: Sess)
    requires TimersOk(t) && id !in t.sessions && id !in t.departed
    requires x.client.timer.None? && x.server.timer.None? && !IsStale(x)
    ensures TimersOk(t.(sessions := t.sessions[id := x]))
  {
    var u := t.(sessions := t.sessions[id := x]);
    forall k, s | k in u.sessions ensures SideOk(u, k, s) {
      if k != id {
        assert SideOk(t, k, s);
      }
    }
    forall timer | timer in u.callbacks ensures timer < u.nextTimer && CallbackOk(u, timer) {
      assert CallbackOk(t, timer);
    }
  }

  /** Running a callback uses it up. */
  lemma FireTimers(t: Table, timer: nat)
    requires TimersOk(t) && timer in t.callbacks
    ensures TimersOk(Fire(t, timer))
  {
    var u, id := Fire(t, timer), t.callbacks[timer].sessionID;
    ExpiresIffUnstopped(t, timer);
    forall k, s | k in u.sessions ensures SideOk(u, k, s) {
      assert SideOk(t, k, s);
    }
    forall other | other in u.callbacks ensures other < u.nextTimer && CallbackOk(u, other) {
      assert CallbackOk(t, other);
    }
  }

  /** The guard of the expiry functions, flag and generation, recognises exactly the timers that were
      neither stopped nor overtaken: whether Stop came too late makes no difference. */
  lemma ExpiresIffUnstopped(t: Table, timer: nat)
    requires TimersOk(t) && timer in t.callbacks
    ensures Expires(t, t.callbacks[timer]) <==>
            !t.callbacks[timer].stopped && t.callbacks[timer].sessionID in t.sessions
  {
    assert CallbackOk(t, timer);
    var cb := t.callbacks[timer];
    if cb.sessionID in t.sessions {
      assert SideOk(t, cb.sessionID, cb.side);
    }
  }

  // --- The stale index ---

  lemma TrackSize(stale: map<string, int>, id: string, now: int)
    ensures |Track(stale, id, now)| == |stale| + (if id in stale then 0 else 1)
  {
    var m := Track(stale, id, now);
    assert m.Keys == stale.Keys + {id};
    assert |m.Keys| == |m| && |stale.Keys| == |stale|;
  }

  lemma DropSize(stale: map<string, int>, id: string)
    ensures |stale - {id}| == |stale| - (if id in stale then 1 else 0)
  {
    var m := stale - {id};
    assert m.Keys == stale.Keys - {id};
    assert |m.Keys| == |m| && |stale.Keys| == |stale|;
  }

  /** t and u agree on k. */
  ghost predicate SameAt(t: Table, u: Table, k: string) {
    && (k in u.sessions <==> k in t.sessions) && (k in t.sessions ==> u.sessions[k] == t.sessions[k])
    && (k in u.stale <==> k in t.stale) && (k in t.stale ==> u.stale[k] == t.stale[k])
  }

  lemma OneReindexed(t: Table, u: Table, id: string, limit: nat, cap: nat, now: int)
    requires IndexOk(t, limit, now) && |u.stale| <= cap
    requires forall k :: k != id ==> SameAt(t, u, k)
    requires Indexed(u, id, now)
    ensures IndexOk(u, cap, now)
  {
    hide IndexOk, IsStale;
    forall k ensures Indexed(u, k, now) {
      IndexedAt(t, k, limit, now);
      assert k != id ==> SameAt(t, u, k);
    }
    AllIndexed(u, cap, now);
  }

  lemma IndexedAt(t: Table, id: string, cap: nat, now: int)
    requires IndexOk(t, cap, now)
    ensures Indexed(t, id, now)
  {
  }

  lemma AllIndexed(t: Table, cap: nat, now: int)
    requires |t.stale| <= cap && forall k :: Indexed(t, k, now)
    ensures IndexOk(t, cap, now)
  {
    forall id ensures id in t.stale <==> id in t.sessions && IsStale(t.sessions[id]) {
      assert Indexed(t, id, now);
    }
    forall id | id in t.stale ensures t.stale[id] <= now {
      assert Indexed(t, id, now);
    }
  }

  lemma TrackAgrees(t: Table, id: string, side: Side, now: int, grace: int)
    requires id in t.sessions
    ensures var u := MarkSide(t, id, side, now + grace).(stale := Track(t.stale, id, now));
      && u.sessions.Keys == t.sessions.Keys && IsStale(u.sessions[id]) && id in u.stale
      && (id in t.stale ==> u.stale[id] == t.stale[id]) && (id !in t.stale ==> u.stale[id] == now)
      && (forall k :: k != id ==> SameAt(t, u, k))
  {
  }

  lemma TrackIndex(t: Table, id: string, side: Side, now: int, grace: int, cap: nat)
    requires IndexOk(t, cap, now) && id in t.sessions
    ensures var u := MarkSide(t, id, side, now + grace).(stale := Track(t.stale, id, now));
      && u.sessions.Keys == t.sessions.Keys
      && IndexOk(u, cap + 1, now)
      && (|u.stale| <= cap ==> IndexOk(u, cap, now))
  {
    var u := MarkSide(t, id, side, now + grace).(stale := Track(t.stale, id, now));
    TrackSize(t.stale, id, now);
    TrackAgrees(t, id, side, now, grace);
    hide MarkSide, Track, IsStale, SameAt;
    assert |t.stale| <= cap && Indexed(t, id, now);
    hide IndexOk;
    OneReindexed(t, u, id, cap, cap + 1, now);
    if |u.stale| <= cap {
      OneReindexed(t, u, id, cap, cap, now);
    }
  }

  lemma StaleIsRegistered(t: Table, id: string, cap: nat, now: int)
    requires IndexOk(t, cap, now) && id in t.stale
    ensures id in t.sessions
  {
    assert Indexed(t, id, now);
  }

  lemma EvictIndex(t: Table, id: string, now: int, cap: nat, victim: string, reason: Reason)
    requires var u := t.(stale := Track(t.stale, id, now));
      && IndexOk(u, cap + 1, now)
      && if |u.stale| <= cap then IndexOk(u, cap, now) else victim in u.stale
    ensures IndexOk(TrackAndEvict(t, id, now, cap, victim, reason), cap, now)
    ensures |Track(t.stale, id, now)| > cap ==> victim in t.sessions
  {
    var tracked := t.(stale := Track(t.stale, id, now));
    hide IndexOk, Track, Depart, ClearGrace;
    if |tracked.stale| > cap {
      StaleIsRegistered(tracked, victim, cap + 1, now);
      RemoveIndex(tracked, victim, reason, cap + 1, cap, now);
    }
  }

  /** Marking keeps the index exact and within the cap; the entry it may evict is an oldest one. */
  lemma MarkStaleIndex(t: Table, id: string, side: Side, now: int, grace: int, cap: nat, victim: string, reason: Reason)
    requires IndexOk(t, cap, now) && id in t.sessions && GoodVictim(t, id, now, cap, victim)
    ensures IndexOk(MarkStale(t, id, side, now, grace, cap, victim, reason), cap, now)
    ensures Overflows(t, id, now, cap) ==> victim in t.sessions
  {
    TrackIndex(t, id, side, now, grace, cap);
    var marked := MarkSide(t, id, side, now + grace);
    assert marked.stale == t.stale;
    hide IndexOk, MarkSide, Track, TrackAndEvict;
    EvictIndex(marked, id, now, cap, victim, reason);
  }

  lemma CancelAgrees(t: Table, id: string, side: Side)
    requires id in t.sessions
    ensures var u := Cancel(t, id, side);
      && id in u.sessions
      && u.stale == (if IsStale(u.sessions[id]) then t.stale else t.stale - {id})
      && (IsStale(u.sessions[id]) ==> IsStale(t.sessions[id]))
      && (forall k :: k != id ==> SameAt(t, u, k))
  {
  }

  lemma CancelIndex(t: Table, id: string, side: Side, cap: nat, now: int)
    requires IndexOk(t, cap, now) && id in t.sessions
    ensures IndexOk(Cancel(t, id, side), cap, now)
  {
    DropSize(t.stale, id);
    CancelAgrees(t, id, side);
    assert |t.stale| <= cap && Indexed(t, id, now);
    hide Cancel, IsStale, IndexOk, SameAt;
    OneReindexed(t, Cancel(t, id, side), id, cap, cap, now);
  }

  lemma RemoveAgrees(t: Table, id: string, reason: Reason)
    requires id in t.sessions
    ensures var u := Depart(ClearGrace(t, id), id, reason);
            id !in u.sessions && u.stale == t.stale - {id} && forall k :: k != id ==> SameAt(t, u, k)
    ensures var u := Depart(t, id, reason);
            id !in u.sessions && u.stale == t.stale - {id} && forall k :: k != id ==> SameAt(t, u, k)
  {
  }

  /** A stale session that leaves makes room; any other leaves the index as it is. */
  lemma RemoveIndex(t: Table, id: string, reason: Reason, limit: nat, cap: nat, now: int)
    requires IndexOk(t, limit, now) && id in t.sessions && (limit <= cap || (limit == cap + 1 && id in t.stale))
    ensures IndexOk(Depart(ClearGrace(t, id), id, reason), cap, now)
    ensures IndexOk(Depart(t, id, reason), cap, now)
  {
    DropSize(t.stale, id);
    RemoveAgrees(t, id, reason);
    assert |t.stale| <= limit;
    hide Depart, ClearGrace, IsStale, IndexOk, SameAt;
    OneReindexed(t, Depart(ClearGrace(t, id), id, reason), id, limit, cap, now);
    OneReindexed(t, Depart(t, id, reason), id, limit, cap, now);
  }

  // --- Teardowns ---

  /** Nothing was owed to or sent for a session that has not departed. */
  lemma NothingBeforeDeparture(t: Table, id: string, n: Notice)
    requires LedgerOk(t) && id !in t.departed && n.sessionID == id
    ensures t.owed[id] == 0 && t.sent[n] == 0
  {
    assert id !in t.owed && n !in t.sent;
  }

  lemma DepartTeardowns(t: Table, id: string, reason: Reason, k: string)
    requires LedgerOk(t) && id in t.sessions && id !in t.departed && k in Depart(t, id, reason).departed
    ensures var u := Depart(t, id, reason);
            Teardowns(u, k) == if Announced(u.departed[k].reason) then 1 else 0
  {
    if k == id {
      NothingBeforeDeparture(t, id, NoticeFor(id, Departed(t.sessions[id], reason)));
    } else {
      assert Teardowns(t, k) == if Announced(t.departed[k].reason) then 1 else 0;
    }
  }

  lemma DepartLedger(t: Table, id: string, reason: Reason)
    requires LedgerOk(t) && id in t.sessions && id !in t.departed
    ensures LedgerOk(Depart(t, id, reason))
  {
    var u := Depart(t, id, reason);
    forall k | k in u.departed
      ensures Teardowns(u, k) == if Announced(u.departed[k].reason) then 1 else 0
    {
      DepartTeardowns(t, id, reason, k);
    }
    forall n | n in u.sent
      ensures n.sessionID in u.departed && n == NoticeFor(n.sessionID, u.departed[n.sessionID])
    {
      assert n in t.sent;
    }
  }

  lemma SweepLedger(t: Table, now: int, maxAge: int)
    requires LedgerOk(t) && IdsOk(t)
    ensures LedgerOk(Sweep(t, now, maxAge))
  {
    var u := Sweep(t, now, maxAge);
    forall k | k in u.departed
      ensures Teardowns(u, k) == if Announced(u.departed[k].reason) then 1 else 0
    {
      if k in t.departed {
        assert u.departed[k] == t.departed[k];
        assert Teardowns(t, k) == if Announced(t.departed[k].reason) then 1 else 0;
      } else {
        assert t.sent[NoticeFor(k, u.departed[k])] == 0;
        assert t.owed[k] == 0;
      }
    }
  }

  lemma TeardownLedger(t: Table, id: string)
    requires LedgerOk(t) && id in t.owed && id in t.departed
    ensures LedgerOk(Teardown(t, id))
  {
    var u := Teardown(t, id);
    forall k | k in u.departed
      ensures Teardowns(u, k) == if Announced(u.departed[k].reason) then 1 else 0
    {
      assert Teardowns(t, k) == if Announced(t.departed[k].reason) then 1 else 0;
    }
  }

  // --- The whole table ---

  lemma SameLedger(t: Table, u: Table)
    requires LedgerOk(t) && u.departed == t.departed && u.owed == t.owed && u.sent == t.sent
    ensures LedgerOk(u)
  {
    assert forall id :: id in t.departed ==> Teardowns(u, id) == Teardowns(t, id);
  }

  /** Sessions of u are sessions of t with the same device and coherent connections. */
  lemma SubShape(t: Table, u: Table)
    requires ShapeOk(t)
    requires forall id :: id in u.sessions ==>
               id in t.sessions && u.sessions[id].deviceID == t.sessions[id].deviceID && ConnOk(u.sessions[id])
    requires forall id :: id in u.departed ==> id in t.departed || id !in u.sessions
    ensures ShapeOk(u)
  {
  }

  /** An eviction leaves the other sessions as they are. */
  lemma EvictSessions(t: Table, id: string, now: int, cap: nat, victim: string, reason: Reason)
    ensures var u := TrackAndEvict(t, id, now, cap, victim, reason);
      && (forall k :: k in u.sessions ==> k in t.sessions && u.sessions[k] == t.sessions[k])
      && (forall k :: k in u.departed ==> k in t.departed || k !in u.sessions)
  {
  }

  lemma MarkSideShape(t: Table, id: string, side: Side, deadline: int)
    requires ShapeOk(t) && id in t.sessions
    ensures ShapeOk(MarkSide(t, id, side, deadline))
  {
    assert ConnOk(t.sessions[id]);
    SubShape(t, MarkSide(t, id, side, deadline));
  }

  lemma EvictShape(t: Table, id: string, now: int, cap: nat, victim: string, reason: Reason)
    requires ShapeOk(t)
    ensures ShapeOk(TrackAndEvict(t, id, now, cap, victim, reason))
  {
    EvictSessions(t, id, now, cap, victim, reason);
    hide TrackAndEvict, ConnOk;
    SubShape(t, TrackAndEvict(t, id, now, cap, victim, reason));
  }

  lemma MarkStaleShape(t: Table, id: string, side: Side, now: int, grace: int, cap: nat, victim: string, reason: Reason)
    requires ShapeOk(t) && id in t.sessions
    ensures ShapeOk(MarkStale(t, id, side, now, grace, cap, victim, reason))
  {
    hide ShapeOk, MarkSide, TrackAndEvict;
    MarkSideShape(t, id, side, now + grace);
    EvictShape(MarkSide(t, id, side, now + grace), id, now, cap, victim, reason);
  }

  lemma MarkStaleTimers(t: Table, id: string, side: Side, now: int, grace: int, cap: nat, victim: string,
                        reason: Reason)
    requires TimersOk(t) && id in t.sessions
    ensures TimersOk(MarkStale(t, id, side, now, grace, cap, victim, reason))
  {
    var marked := MarkSide(t, id, side, now + grace);
    var tracked := marked.(stale := Track(t.stale, id, now));
    MarkSideTimers(t, id, side, now + grace);
    SameTimers(marked, tracked);
    if |tracked.stale| > cap {
      if victim in t.sessions {
        ClearGraceTimers(tracked, victim);
        DepartTimers(ClearGrace(tracked, victim), victim, reason);
      } else {
        SameTimers(tracked, tracked.(stale := tracked.stale - {victim}));
      }
    }
  }

  lemma MarkStaleLedger(t: Table, id: string, side: Side, now: int, grace: int, cap: nat, victim: string,
                        reason: Reason)
    requires LedgerOk(t) && IdsOk(t) && id in t.sessions
    ensures LedgerOk(MarkStale(t, id, side, now, grace, cap, victim, reason))
  {
    var tracked := MarkSide(t, id, side, now + grace).(stale := Track(t.stale, id, now));
    SameLedger(t, tracked);
    if |tracked.stale| > cap {
      if victim in t.sessions {
        SameLedger(tracked, ClearGrace(tracked, victim));
        DepartLedger(ClearGrace(tracked, victim), victim, reason);
      } else {
        SameLedger(tracked, tracked.(stale := tracked.stale - {victim}));
      }
    }
  }

  lemma MarkStaleInv(t: Table, id: string, side: Side, now: int, grace: int, cap: nat, victim: string, reason: Reason)
    requires TableInv(t, cap, now) && id in t.sessions && GoodVictim(t, id, now, cap, victim)
    ensures TableInv(MarkStale(t, id, side, now, grace, cap, victim, reason), cap, now)
  {
    MarkStaleIndex(t, id, side, now, grace, cap, victim, reason);
    MarkStaleShape(t, id, side, now, grace, cap, victim, reason);
    MarkStaleTimers(t, id, side, now, grace, cap, victim, reason);
    MarkStaleLedger(t, id, side, now, grace, cap, victim, reason);
  }

  lemma RemoveInv(t: Table, id: string, reason: Reason, cap: nat, now: int)
    requires TableInv(t, cap, now) && id in t.sessions
    ensures TableInv(Depart(ClearGrace(t, id), id, reason), cap, now)
  {
    RemoveIndex(t, id, reason, cap, cap, now);
    ClearGraceTimers(t, id);
    DepartTimers(ClearGrace(t, id), id, reason);
    SameLedger(t, ClearGrace(t, id));
    DepartLedger(ClearGrace(t, id), id, reason);
    SubShape(t, Depart(ClearGrace(t, id), id, reason));
  }

  /** A session rebinds one of its connections without going stale. */
  lemma RebindInv(t: Table, id: string, x: Sess, cap: nat, now: int)
    requires TableInv(t, cap, now) && id in t.sessions
    requires x.client == t.sessions[id].client && x.server == t.sessions[id].server
    ensures TimersOk(t.(sessions := t.sessions[id := x]))
    ensures IndexOk(t.(sessions := t.sessions[id := x]), cap, now)
  {
    SameTimers(t, t.(sessions := t.sessions[id := x]));
  }

  lemma BindServerSessions(t: Table, id: string, server: OnlineServer)
    requires id in t.sessions
    ensures var u := BindServer(t, id, server);
      && u.sessions.Keys == t.sessions.Keys
      && (forall k :: k in u.sessions && k != id ==> u.sessions[k] == t.sessions[k])
      && u.sessions[id].serverConn == server && !u.sessions[id].server.stale
      && u.sessions[id].deviceID == t.sessions[id].deviceID
      && u.sessions[id].ownerUserID == t.sessions[id].ownerUserID
  {
  }

  lemma BindServerShape(t: Table, id: string, server: OnlineServer)
    requires ShapeOk(t) && id in t.sessions
    ensures ShapeOk(BindServer(t, id, server))
  {
    assert ConnOk(t.sessions[id]);
    BindServerSessions(t, id, server);
    SubShape(t, BindServer(t, id, server));
  }

  lemma BindServerInv(t: Table, id: string, server: OnlineServer, cap: nat, now: int)
    requires TableInv(t, cap, now) && id in t.sessions
    ensures TableInv(BindServer(t, id, server), cap, now)
  {
    BindServerShape(t, id, server);
    var x := t.sessions[id].(serverConn := server);
    RebindInv(t, id, x, cap, now);
    SameLedger(t, BindServer(t, id, server));
    if t.sessions[id].server.stale {
      CancelTimers(t.(sessions := t.sessions[id := x]), id, ServerSide);
      CancelIndex(t.(sessions := t.sessions[id := x]), id, ServerSide, cap, now);
    }
  }

  lemma BindClientShape(t: Table, id: string, conn: Connection?)
    requires ShapeOk(t) && id in t.sessions
    ensures ShapeOk(BindClient(t, id, conn))
  {
    assert ConnOk(t.sessions[id]);
    SubShape(t, BindClient(t, id, conn));
  }

  lemma BindClientInv(t: Table, id: string, conn: Connection?, cap: nat, now: int)
    requires TableInv(t, cap, now) && id in t.sessions
    ensures TableInv(BindClient(t, id, conn), cap, now)
  {
    BindClientShape(t, id, conn);
    var x := t.sessions[id].(clientConn := conn);
    RebindInv(t, id, x, cap, now);
    SameLedger(t, BindClient(t, id, conn));
    CancelTimers(t.(sessions := t.sessions[id := x]), id, ClientSide);
    CancelIndex(t.(sessions := t.sessions[id := x]), id, ClientSide, cap, now);
  }

  lemma FireIndex(t: Table, timer: nat, cap: nat, now: int)
    requires IndexOk(t, cap, now) && timer in t.callbacks
    ensures IndexOk(Fire(t, timer), cap, now)
  {
    var cb := t.callbacks[timer];
    var rest := t.(callbacks := t.callbacks - {timer});
    assert IndexOk(rest, cap, now);
    hide IndexOk, Depart;
    if Expires(t, cb) {
      RemoveIndex(rest, cb.sessionID, ExpiryReason(cb.side), cap, cap, now);
    }
  }

  lemma FireLedger(t: Table, timer: nat)
    requires LedgerOk(t) && ShapeOk(t) && timer in t.callbacks
    ensures LedgerOk(Fire(t, timer)) && ShapeOk(Fire(t, timer))
  {
    var cb := t.callbacks[timer];
    var rest := t.(callbacks := t.callbacks - {timer});
    SubShape(t, Fire(t, timer));
    SameLedger(t, rest);
    hide LedgerOk, ConnOk;
    if Expires(t, cb) {
      DepartLedger(rest, cb.sessionID, ExpiryReason(cb.side));
    }
  }

  lemma FireInv(t: Table, timer: nat, cap: nat, now: int)
    requires TableInv(t, cap, now) && timer in t.callbacks
    ensures TableInv(Fire(t, timer), cap, now)
  {
    hide ShapeOk, TimersOk, IndexOk, LedgerOk, Fire;
    FireTimers(t, timer);
    FireIndex(t, timer, cap, now);
    FireLedger(t, timer);
  }

  lemma SweepInv(t: Table, now: int, maxAge: int, cap: nat)
    requires TableInv(t, cap, now)
    ensures TableInv(Sweep(t, now, maxAge), cap, now)
  {
    SweepTimers(t, now, maxAge);
    SweepLedger(t, now, maxAge);
    var u := Sweep(t, now, maxAge);
    SubShape(t, u);
    forall id ensures id in u.stale <==> id in u.sessions && IsStale(u.sessions[id]) {
      assert id in t.stale <==> id in t.sessions && IsStale(t.sessions[id]);
    }
  }

  lemma TeardownInv(t: Table, id: string, cap: nat, now: int)
    requires TableInv(t, cap, now) && id in t.owed && id in t.departed
    ensures TableInv(Teardown(t, id), cap, now)
  {
    TeardownLedger(t, id);
    SameTimers(t, Teardown(t, id));
    SubShape(t, Teardown(t, id));
  }

  lemma InsertShape(t: Table, id: string, x: Sess)
    requires ShapeOk(t) && FreshID(t, id) && ConnOk(x)
    requires forall k :: !ForDevice(t, k, x.deviceID)
    ensures ShapeOk(t.(sessions := t.sessions[id := x]))
  {
    assert forall k :: k in t.sessions ==> !ForDevice(t, k, x.deviceID);
  }

  lemma InsertInv(t: Table, id: string, x: Sess, cap: nat, now: int)
    requires TableInv(t, cap, now) && FreshID(t, id)
    requires forall k :: !ForDevice(t, k, x.deviceID)
    requires x.client == x.server == Grace(false, 0, None) && x.serverConn != null
    ensures TableInv(t.(sessions := t.sessions[id := x]), cap, now)
  {
    hide TimersOk, LedgerOk, ShapeOk;
    InsertTimers(t, id, x);
    SameLedger(t, t.(sessions := t.sessions[id := x]));
    InsertShape(t, id, x);
  }

  // --- The registry, and the sessions against it ---

  ghost predicate ServersOk(r: Registry) {
    && (forall d :: d in r.servers ==>
          && r.servers[d].deviceID == d && r.servers[d].generation <= r.serverGen
          && r.servers[d] !in r.closedServers)
    && (forall x :: x in r.closedServers ==> x.generation <= r.serverGen)
  }

  /** A registered room is open and routed to its device's current server, whose user owns it. */
  ghost predicate RoomOk(r: Registry, id: string)
    requires id in r.rooms
  {
    var room := r.rooms[id];
    && room.deviceID in r.serverRooms && r.serverRooms[room.deviceID] == id
    && room.deviceID in r.servers
    && room.route == Route(r.servers[room.deviceID], r.servers[room.deviceID].generation)
    && room.ownerUserID == r.servers[room.deviceID].userID
    && !room.closed
  }

  /** A server that was registered for the device at some time: it still is, or it has been closed. */
  predicate RegisteredOrClosed(r: Registry, deviceID: string, server: OnlineServer) {
    (deviceID in r.servers && r.servers[deviceID] == server) || server in r.closedServers
  }

  ghost predicate GuestsOk(r: Registry, guests: map<string, Guest>) {
    forall g :: g in guests ==>
      guests[g].deviceID in r.servers && RegisteredOrClosed(r, guests[g].deviceID, guests[g].server)
  }

  /** rooms and serverRooms are mutually inverse; guests and rooms belong to online devices. A guest keeps
      the server it was registered with, even one that has been replaced since. */
  ghost predicate RegistryOk(r: Registry) {
    && ServersOk(r)
    && GuestsOk(r, r.guests)
    && (forall id :: id in r.rooms ==> RoomOk(r, id))
    && (forall d :: d in r.serverRooms ==> r.serverRooms[d] in r.rooms && r.rooms[r.serverRooms[d]].deviceID == d)
  }

  /** serverStale, a nil ServerConn and an offline device coincide; a session of CreateSession is bound
      to the registered server, and that server's user owns it; one of CreateGuestSession may instead be bound
      to a server that was closed before the session was made. */
  ghost predicate PresenceOk(r: Registry, x: Sess) {
    && (x.server.stale <==> x.deviceID !in r.servers)
    && (x.serverConn != null ==> RegisteredOrClosed(r, x.deviceID, x.serverConn))
    && (x.direct && x.serverConn != null ==>
          x.deviceID in r.servers && x.serverConn == r.servers[x.deviceID] && x.serverConn.userID == x.ownerUserID)
  }

  ghost predicate Presence(r: Registry, sessions: map<string, Sess>) {
    forall id :: id in sessions ==> PresenceOk(r, sessions[id])
  }

  ghost predicate Inv(s: State) {
    && s.cap >= 1 && s.grace > 0
    && TableInv(s.tab, s.cap, s.now)
    && RegistryOk(s.reg)
    && Presence(s.reg, s.tab.sessions)
  }

  lemma RegisterServerOk(r: Registry, server: OnlineServer)
    requires RegistryOk(r) && server.generation == r.serverGen + 1
    requires server.deviceID in r.servers ==> r.servers[server.deviceID].userID == server.userID
    ensures RegistryOk(RegisterServer(r, server))
  {
    var u := RegisterServer(r, server);
    forall id | id in u.rooms ensures RoomOk(u, id) {
      assert RoomOk(r, id);
    }
  }

  lemma CleanupDeviceOk(r: Registry, deviceID: string)
    requires RegistryOk(r)
    ensures RegistryOk(CleanupDevice(UnregisterServer(r, deviceID), deviceID))
  {
    var u := CleanupDevice(UnregisterServer(r, deviceID), deviceID);
    forall id | id in u.rooms ensures RoomOk(u, id) {
      assert RoomOk(r, id);
    }
    forall d | d in u.serverRooms ensures u.serverRooms[d] in u.rooms && u.rooms[u.serverRooms[d]].deviceID == d {
      assert d in r.serverRooms;
    }
  }

  lemma {:induction false} PickRoomIDIsFree(rooms: set<string>, candidates: seq<string>)
    ensures var picked := PickRoomID(rooms, candidates);
            if picked.Some? then picked.value in candidates && picked.value !in rooms
            else forall i :: 0 <= i < |candidates| ==> candidates[i] in rooms
    decreases |candidates|
  {
    if candidates != [] {
      PickRoomIDIsFree(rooms, candidates[1..]);
      assert candidates == [candidates[0]] + candidates[1..];
    }
  }

  lemma CreateRoomOk(s: State, deviceID: string, userID: string, candidates: seq<string>)
    requires RegistryOk(s.reg)
    ensures RegistryOk(CreateRoom(s, deviceID, userID, candidates).reg)
  {
    PickRoomIDIsFree(s.reg.rooms.Keys, candidates);
    var u := CreateRoom(s, deviceID, userID, candidates).reg;
    forall id | id in u.rooms ensures RoomOk(u, id) {
      if id in s.reg.rooms {
        assert RoomOk(s.reg, id);
      }
    }
  }

  predicate SameServers(r: Registry, u: Registry) {
    u.servers == r.servers && u.closedServers == r.closedServers
  }

  lemma CreateRoomOnlyRooms(s: State, deviceID: string, userID: string, candidates: seq<string>)
    ensures var t := CreateRoom(s, deviceID, userID, candidates);
            t == s.(reg := t.reg) && SameServers(s.reg, t.reg)
  {
  }

  lemma GuestOk(r: Registry, guests: map<string, Guest>)
    requires RegistryOk(r) && GuestsOk(r, guests)
    ensures RegistryOk(r.(guests := guests))
  {
    forall id | id in r.rooms ensures RoomOk(r.(guests := guests), id) {
      assert RoomOk(r, id);
    }
  }

  lemma RegisterGuestOk(s: State, shortID: string, userID: string, deviceID: string)
    requires RegistryOk(s.reg)
    ensures var t := RegisterGuest(s, shortID, userID, deviceID);
            t == s.(reg := t.reg) && SameServers(s.reg, t.reg) && RegistryOk(t.reg)
  {
    GuestOk(s.reg, RegisterGuest(s, shortID, userID, deviceID).reg.guests);
  }

  lemma UnregisterGuestOk(s: State, shortID: string)
    requires RegistryOk(s.reg)
    ensures RegistryOk(UnregisterGuest(s, shortID).reg)
  {
    GuestOk(s.reg, s.reg.guests - {shortID});
  }

  lemma RemoveRoomOk(s: State, roomID: string)
    requires RegistryOk(s.reg)
    ensures RegistryOk(RemoveRoom(s, roomID).reg)
  {
    var u := RemoveRoom(s, roomID).reg;
    forall id | id in u.rooms ensures RoomOk(u, id) {
      assert RoomOk(s.reg, id);
    }
    if roomID in s.reg.rooms {
      assert RoomOk(s.reg, roomID);
    }
  }

  // --- Steps ---

  lemma OnlinePresence(s: State, server: OnlineServer, t: Table)
    requires Presence(s.reg, s.tab.sessions) && MayAddServer(s, server.deviceID, server.userID)
    requires forall id :: id in t.sessions ==> id in s.tab.sessions
    requires forall id :: id in t.sessions && !ForDevice(s.tab, id, server.deviceID) ==>
               t.sessions[id] == s.tab.sessions[id]
    requires forall id :: id in t.sessions && ForDevice(s.tab, id, server.deviceID) ==>
               && t.sessions[id].serverConn == server && !t.sessions[id].server.stale
               && t.sessions[id].deviceID == server.deviceID
               && t.sessions[id].ownerUserID == s.tab.sessions[id].ownerUserID
    ensures Presence(RegisterServer(s.reg, server), t.sessions)
  {
    forall id | id in t.sessions ensures PresenceOk(RegisterServer(s.reg, server), t.sessions[id]) {
      assert PresenceOk(s.reg, s.tab.sessions[id]);
    }
  }

  lemma BindDeviceInv(t: Table, server: OnlineServer, cap: nat, now: int)
    requires TableInv(t, cap, now)
    ensures var u := BindDevice(t, server);
      && TableInv(u, cap, now)
      && (forall id :: id in u.sessions ==> id in t.sessions)
      && (forall id :: id in u.sessions && !ForDevice(t, id, server.deviceID) ==> u.sessions[id] == t.sessions[id])
      && (forall id :: id in u.sessions && ForDevice(t, id, server.deviceID) ==>
            && u.sessions[id].serverConn == server && !u.sessions[id].server.stale
            && u.sessions[id].deviceID == server.deviceID
            && u.sessions[id].ownerUserID == t.sessions[id].ownerUserID)
  {
    var found := DeviceSession(t, server.deviceID);
    if found.Some? {
      BindServerInv(t, found.value, server, cap, now);
      BindServerSessions(t, found.value, server);
      assert forall id :: ForDevice(t, id, server.deviceID) ==> id == found.value;
      hide TableInv, BindServer;
    }
  }

  lemma AddServerInv(s: State, server: OnlineServer)
    requires Inv(s) && MayAddServer(s, server.deviceID, server.userID) && server.generation == s.reg.serverGen + 1
    ensures Inv(AddServer(s, server))
  {
    hide TableInv, RegistryOk, Presence, BindDevice;
    RegisterServerOk(s.reg, server);
    BindDeviceInv(s.tab, server, s.cap, s.now);
    OnlinePresence(s, server, BindDevice(s.tab, server));
  }

  lemma OfflinePresence(s: State, d: string, t: Table)
    requires Presence(s.reg, s.tab.sessions)
    requires forall id :: id in t.sessions ==> id in s.tab.sessions
    requires forall id :: id in t.sessions && !ForDevice(s.tab, id, d) ==>
               t.sessions[id] == s.tab.sessions[id]
    requires forall id :: id in t.sessions && ForDevice(s.tab, id, d) ==>
               t.sessions[id].server.stale && t.sessions[id].serverConn == null && t.sessions[id].deviceID == d
    ensures Presence(CleanupDevice(UnregisterServer(s.reg, d), d), t.sessions)
  {
    forall id | id in t.sessions ensures PresenceOk(CleanupDevice(UnregisterServer(s.reg, d), d), t.sessions[id]) {
      assert PresenceOk(s.reg, s.tab.sessions[id]);
    }
  }

  lemma RemoveServerInv(s: State, deviceID: string)
    requires Inv(s)
    ensures Inv(RemoveServer(s, deviceID))
    ensures forall id :: !ForDevice(RemoveServer(s, deviceID).tab, id, deviceID)
  {
    CleanupDeviceOk(s.reg, deviceID);
    var found := DeviceSession(s.tab, deviceID);
    if found.Some? {
      RemoveInv(s.tab, found.value, DeviceRemoved, s.cap, s.now);
      assert forall id :: ForDevice(s.tab, id, deviceID) ==> id == found.value;
    }
    OfflinePresence(s, deviceID, RemoveServer(s, deviceID).tab);
  }

  lemma MarkDeviceInv(t: Table, d: string, now: int, grace: int, cap: nat, victim: string)
    requires TableInv(t, cap, now)
    requires var found := DeviceSession(t, d);
             found.Some? ==> GoodVictim(t, found.value, now, cap, victim)
    ensures var u := MarkDevice(t, d, now, grace, cap, victim);
      && TableInv(u, cap, now)
      && (forall id :: id in u.sessions ==> id in t.sessions)
      && (forall id :: id in u.sessions && !ForDevice(t, id, d) ==> u.sessions[id] == t.sessions[id])
      && (forall id :: id in u.sessions && ForDevice(t, id, d) ==>
            u.sessions[id].server.stale && u.sessions[id].serverConn == null && u.sessions[id].deviceID == d)
  {
    var found := DeviceSession(t, d);
    if found.Some? {
      MarkStaleInv(t, found.value, ServerSide, now, grace, cap, victim, CapExceeded);
      MarkStaleSessions(t, found.value, ServerSide, now, grace, cap, victim, CapExceeded);
      assert forall id :: ForDevice(t, id, d) ==> id == found.value;
      hide TableInv, MarkStale;
    }
  }

  lemma RemoveServerConnInv(s: State, conn: OnlineServer, victim: string)
    requires Inv(s) && IsRegistered(s, conn)
    requires var found := DeviceSession(s.tab, conn.deviceID);
             found.Some? ==> GoodVictim(s.tab, found.value, s.now, s.cap, victim)
    ensures Inv(RemoveServerConn(s, conn, victim))
  {
    hide TableInv, RegistryOk, Presence, MarkDevice, GoodVictim;
    var d := conn.deviceID;
    CleanupDeviceOk(s.reg, d);
    MarkDeviceInv(s.tab, d, s.now, s.grace, s.cap, victim);
    OfflinePresence(s, d, MarkDevice(s.tab, d, s.now, s.grace, s.cap, victim));
  }

  /** MarkStale changes the marked session only, and removes at most the victim. */
  lemma MarkStaleSessions(t: Table, id: string, side: Side, now: int, grace: int, cap: nat, victim: string,
                          reason: Reason)
    requires id in t.sessions
    ensures var u := MarkStale(t, id, side, now, grace, cap, victim, reason);
      && (forall k :: k in u.sessions ==> k in t.sessions)
      && (forall k :: k in u.sessions && k != id ==> u.sessions[k] == t.sessions[k])
      && (id in u.sessions ==> u.sessions[id] == MarkSide(t, id, side, now + grace).sessions[id])
      && (forall k :: k in u.departed ==> k in t.departed || k !in u.sessions)
  {
    EvictSessions(MarkSide(t, id, side, now + grace), id, now, cap, victim, reason);
    hide TrackAndEvict;
  }

  /** Presence looks at the server side of a session only. */
  lemma SameServerSides(s: State, t: Table)
    requires Inv(s) && TableInv(t, s.cap, s.now)
    requires forall id :: id in t.sessions ==>
               && id in s.tab.sessions
               && t.sessions[id].(client := s.tab.sessions[id].client, clientConn := s.tab.sessions[id].clientConn)
                  == s.tab.sessions[id]
    ensures Inv(s.(tab := t))
  {
    forall id | id in t.sessions ensures PresenceOk(s.reg, t.sessions[id]) {
      assert PresenceOk(s.reg, s.tab.sessions[id]);
    }
  }

  lemma MarkClientServerSides(t: Table, id: string, now: int, grace: int, cap: nat, victim: string, reason: Reason)
    requires id in t.sessions
    ensures forall k :: k in MarkStale(t, id, ClientSide, now, grace, cap, victim, reason).sessions ==>
              var x := MarkStale(t, id, ClientSide, now, grace, cap, victim, reason).sessions[k];
              && k in t.sessions
              && x.(client := t.sessions[k].client, clientConn := t.sessions[k].clientConn) == t.sessions[k]
  {
    MarkStaleSessions(t, id, ClientSide, now, grace, cap, victim, reason);
  }

  lemma MarkClientStaleInv(s: State, id: string, expected: Connection?, victim: string)
    requires Inv(s) && IsBound(s, id, expected) && GoodVictim(s.tab, id, s.now, s.cap, victim)
    ensures Inv(MarkClientStale(s, id, expected, victim))
  {
    var reason := if victim != id then CapExceeded else EvictedItself;
    MarkStaleInv(s.tab, id, ClientSide, s.now, s.grace, s.cap, victim, reason);
    MarkClientServerSides(s.tab, id, s.now, s.grace, s.cap, victim, reason);
    SameServerSides(s, MarkStale(s.tab, id, ClientSide, s.now, s.grace, s.cap, victim, reason));
  }

  lemma CreateInv(s: State, id: string, x: Sess)
    requires Inv(s) && FreshID(s.tab, id)
    requires forall k :: !ForDevice(s.tab, k, x.deviceID)
    requires x.client == x.server == Grace(false, 0, None) && x.serverConn != null
    requires PresenceOk(s.reg, x)
    ensures Inv(s.(tab := s.tab.(sessions := s.tab.sessions[id := x])))
  {
    InsertInv(s.tab, id, x, s.cap, s.now);
  }

  lemma BindClientSessions(t: Table, id: string, conn: Connection?)
    requires id in t.sessions
    ensures var u := BindClient(t, id, conn);
            forall k :: k in u.sessions ==>
              && k in t.sessions
              && u.sessions[k].(client := t.sessions[k].client, clientConn := t.sessions[k].clientConn) == t.sessions[k]
  {
  }

  lemma SetSessionClientInv(s: State, id: string, conn: Connection)
    requires Inv(s) && id in s.tab.sessions
    ensures Inv(SetSessionClient(s, id, conn))
  {
    hide TableInv, RegistryOk, Presence, BindClient;
    BindClientInv(s.tab, id, conn, s.cap, s.now);
    BindClientSessions(s.tab, id, conn);
    SameServerSides(s, BindClient(s.tab, id, conn));
  }

  lemma SameServersInv(s: State, r: Registry)
    requires Inv(s) && RegistryOk(r) && SameServers(s.reg, r)
    ensures Inv(s.(reg := r))
  {
  }

  predicate OnTable(op: Op) {
    op.OpSetSessionClient? || op.OpMarkClientStale? || op.OpRemoveSession? || op.OpCleanupStaleSessions?
    || op.OpFire? || op.OpTeardown?
  }

  lemma RemoveSessionInv(s: State, id: string)
    requires Inv(s)
    ensures Inv(RemoveSession(s, id))
  {
    hide RegistryOk, Presence;
    if id in s.tab.sessions {
      RemoveInv(s.tab, id, ExplicitlyRemoved, s.cap, s.now);
      hide TableInv;
      SameServerSides(s, Depart(ClearGrace(s.tab, id), id, ExplicitlyRemoved));
    }
  }

  lemma CleanupInv(s: State, maxAge: int)
    requires Inv(s)
    ensures Inv(s.(tab := Sweep(s.tab, s.now, maxAge)))
  {
    hide RegistryOk, Presence, TableInv;
    SweepInv(s.tab, s.now, maxAge, s.cap);
    SameServerSides(s, Sweep(s.tab, s.now, maxAge));
  }

  lemma FiredInv(s: State, timer: nat)
    requires Inv(s) && timer in s.tab.callbacks
    ensures Inv(s.(tab := Fire(s.tab, timer)))
  {
    hide RegistryOk, Presence, TableInv;
    FireInv(s.tab, timer, s.cap, s.now);
    SameServerSides(s, Fire(s.tab, timer));
  }

  lemma TornDownInv(s: State, id: string)
    requires Inv(s) && id in s.tab.owed && id in s.tab.departed
    ensures Inv(s.(tab := Teardown(s.tab, id)))
  {
    hide RegistryOk, Presence, TableInv;
    TeardownInv(s.tab, id, s.cap, s.now);
    SameServerSides(s, Teardown(s.tab, id));
  }

  lemma TableOpKeepsInv(s: State, op: Op)
    requires Inv(s) && Enabled(s, At(s.now, op)) && OnTable(op)
    ensures Inv(Apply(s, op))
  {
    hide Inv, BindClient, MarkStale, RemoveSession, Sweep, Fire, Teardown, GoodVictim;
    match op
    case OpSetSessionClient(id, conn) =>
      if id in s.tab.sessions {
        SetSessionClientInv(s, id, conn);
      }
    case OpMarkClientStale(id, expected, victim) =>
      if IsBound(s, id, expected) {
        MarkClientStaleInv(s, id, expected, victim);
      }
    case OpRemoveSession(id) => RemoveSessionInv(s, id);
    case OpCleanupStaleSessions(maxAge) => CleanupInv(s, maxAge);
    case OpFire(timer) => FiredInv(s, timer);
    case OpTeardown(id) => TornDownInv(s, id);
  }

  lemma RegisterGuestInv(s: State, shortID: string, userID: string, deviceID: string)
    requires Inv(s)
    ensures Inv(RegisterGuest(s, shortID, userID, deviceID))
  {
    InvParts(s);
    RegisterGuestOk(s, shortID, userID, deviceID);
    hide Inv, RegistryOk, TableInv, Presence, RegisterGuest;
    SameServersInv(s, RegisterGuest(s, shortID, userID, deviceID).reg);
  }

  lemma UnregisterGuestInv(s: State, shortID: string)
    requires Inv(s)
    ensures Inv(UnregisterGuest(s, shortID))
  {
    InvParts(s);
    UnregisterGuestOk(s, shortID);
    hide Inv, RegistryOk, TableInv, Presence;
    SameServersInv(s, UnregisterGuest(s, shortID).reg);
  }

  lemma GuestOpKeepsInv(s: State, op: Op)
    requires Inv(s) && (op.OpRegisterGuest? || op.OpUnregisterGuest?)
    ensures Inv(Apply(s, op))
  {
    hide Inv, RegisterGuest, UnregisterGuest;
    match op
    case OpRegisterGuest(shortID, userID, deviceID) => RegisterGuestInv(s, shortID, userID, deviceID);
    case OpUnregisterGuest(shortID) => UnregisterGuestInv(s, shortID);
  }

  lemma InvParts(s: State)
    requires Inv(s)
    ensures RegistryOk(s.reg) && TableInv(s.tab, s.cap, s.now) && Presence(s.reg, s.tab.sessions)
  {
  }

  lemma DeviceOpKeepsInv(s: State, op: Op)
    requires Inv(s) && Enabled(s, At(s.now, op))
    requires op.OpAddServer? || op.OpRemoveServer? || op.OpRemoveServerConn?
    ensures Inv(Apply(s, op))
  {
    match op
    case OpAddServer(deviceID, userID, server) =>
      AddServerInv(s, server);
    case OpRemoveServer(deviceID) => RemoveServerInv(s, deviceID);
    case OpRemoveServerConn(server, victim) =>
      if IsRegistered(s, server) {
        RemoveServerConnInv(s, server, victim);
      }
  }

  lemma CreateSessionInv(s: State, userID: string, deviceID: string, id: string)
    requires Inv(s) && FreshID(s.tab, id)
    ensures Inv(CreateSession(s, userID, deviceID, id))
  {
    if CreateSessionError(s, userID, deviceID).None? {
      assert PresenceOk(s.reg, NewSess(userID, userID, deviceID, true, s.now, s.reg.servers[deviceID]));
      hide Inv;
      CreateInv(s, id, NewSess(userID, userID, deviceID, true, s.now, s.reg.servers[deviceID]));
    }
  }

  lemma CreateGuestSessionInv(s: State, shortID: string, id: string)
    requires Inv(s) && FreshID(s.tab, id)
    ensures Inv(CreateGuestSession(s, shortID, id))
  {
    if CreateGuestSessionError(s, shortID).None? {
      var g := s.reg.guests[shortID];
      assert PresenceOk(s.reg, NewSess("guest", g.userID, g.deviceID, false, s.now, g.server));
      hide Inv;
      CreateInv(s, id, NewSess("guest", g.userID, g.deviceID, false, s.now, g.server));
    }
  }

  lemma CreateOpKeepsInv(s: State, op: Op)
    requires Inv(s) && Enabled(s, At(s.now, op)) && (op.OpCreateSession? || op.OpCreateGuestSession?)
    ensures Inv(Apply(s, op))
  {
    hide Inv, CreateSession, CreateGuestSession;
    match op
    case OpCreateSession(userID, deviceID, id) => CreateSessionInv(s, userID, deviceID, id);
    case OpCreateGuestSession(shortID, id) => CreateGuestSessionInv(s, shortID, id);
  }

  lemma CreateRoomInv(s: State, deviceID: string, userID: string, candidates: seq<string>)
    requires Inv(s)
    ensures Inv(CreateRoom(s, deviceID, userID, candidates))
  {
    InvParts(s);
    hide Inv, RegistryOk, TableInv, Presence, CreateRoom;
    CreateRoomOk(s, deviceID, userID, candidates);
    CreateRoomOnlyRooms(s, deviceID, userID, candidates);
    SameServersInv(s, CreateRoom(s, deviceID, userID, candidates).reg);
  }

  lemma RemoveRoomInv(s: State, roomID: string)
    requires Inv(s)
    ensures Inv(RemoveRoom(s, roomID))
  {
    InvParts(s);
    hide Inv, RegistryOk, TableInv, Presence;
    RemoveRoomOk(s, roomID);
    SameServersInv(s, RemoveRoom(s, roomID).reg);
  }

  lemma RoomOpKeepsInv(s: State, op: Op)
    requires Inv(s) && (op.OpCreateRoom? || op.OpRemoveRoom?)
    ensures Inv(Apply(s, op))
  {
    hide Inv, CreateRoom, RemoveRoom;
    match op
    case OpCreateRoom(deviceID, userID, candidates) => CreateRoomInv(s, deviceID, userID, candidates);
    case OpRemoveRoom(roomID) => RemoveRoomInv(s, roomID);
  }

  lemma ApplyKeepsInv(s: State, op: Op)
    requires Inv(s) && Enabled(s, At(s.now, op))
    ensures Inv(Apply(s, op))
  {
    hide Inv, Enabled, Apply;
    if OnTable(op) {
      TableOpKeepsInv(s, op);
    } else if op.OpRegisterGuest? || op.OpUnregisterGuest? {
      GuestOpKeepsInv(s, op);
    } else if op.OpCreateSession? || op.OpCreateGuestSession? {
      CreateOpKeepsInv(s, op);
    } else if op.OpCreateRoom? || op.OpRemoveRoom? {
      RoomOpKeepsInv(s, op);
    } else if op.OpRefuseServer? {
      RefusalKeepsState(s, op);
    } else {
      DeviceOpKeepsInv(s, op);
    }
  }

  lemma RefusalKeepsState(s: State, op: Op)
    requires op.OpRefuseServer?
    ensures Apply(s, op) == s
  {
  }

  lemma LaterInv(s: State, now: int)
    requires Inv(s) && s.now <= now
    ensures Inv(s.(now := now))
  {
  }

  lemma EnabledLater(s: State, e: Event)
    requires Enabled(s, e)
    ensures Enabled(s.(now := e.now), At(e.now, e.op))
  {
  }

  /** Every step of the hub keeps every invariant. */
  lemma NextKeepsInv(s: State, e: Event)
    requires Inv(s) && Enabled(s, e)
    ensures Inv(Next(s, e))
  {
    hide Inv, Apply;
    LaterInv(s, e.now);
    EnabledLater(s, e);
    ApplyKeepsInv(s.(now := e.now), e.op);
  }

  lemma EmptyInv(grace: int, cap: nat, now: int)
    requires cap >= 1 && grace > 0
    ensures Inv(Empty(grace, cap, now))
  {
  }
}
