/** A room: its seats, which clients share with the room by reference, and its route to the server. */
module Rooms {
  import opened Common
  import opened Connections
  import opened Servers
  import M = RoomModel

  /** An admission together with the client record embedded in it: a pointer to the one is a pointer
      into the other, so both are this object. What the join established never changes. */
  class RoomClient {
    const id: string
    const record: M.Client
    var conn: Connection?
    var expiresAt: int

    constructor (id: string, record: M.Client, expiresAt: int)
      ensures this.id == id && this.record == record && conn == null && this.expiresAt == expiresAt
    {
      this.id, this.record, this.conn, this.expiresAt := id, record, null, expiresAt;
    }
  }

  const DEFAULT_ROOM_ADMISSION_TTL: int := 30

  /** Where a room's messages to its server go. */
  datatype Route = Route(server: OnlineServer?, gen: nat)

  function Rebind(r: Route, closed: bool, server: OnlineServer?): Route {
    if closed || server == null || server.generation <= r.gen then r else Route(server, server.generation)
  }

  function RebindAll(r: Route, servers: seq<OnlineServer>): Route
    decreases |servers|
  {
    if servers == [] then r else RebindAll(Rebind(r, false, servers[0]), servers[1..])
  }

  /** What other goroutines may do to the room while a message to its server is under way. */
  datatype Interim = Rebinds(server: OnlineServer) | Closes

  /** The servers offered while the room was still open; a closed room keeps its route. */
  function OfferedInTime(interim: seq<Interim>): seq<OnlineServer>
    decreases |interim|
  {
    if interim == [] || interim[0].Closes? then [] else [interim[0].server] + OfferedInTime(interim[1..])
  }

  /** Exactly the offers made before the room was closed are in time. */
  lemma {:induction false} OfferedBeforeClosing(interim: seq<Interim>, k: nat)
    requires k < |OfferedInTime(interim)| || (k < |interim| && forall i :: 0 <= i <= k ==> interim[i].Rebinds?)
    ensures k < |OfferedInTime(interim)| && k < |interim|
    ensures forall i :: 0 <= i <= k ==> interim[i].Rebinds?
    ensures OfferedInTime(interim)[k] == interim[k].server
    decreases k
  {
    if k > 0 {
      OfferedBeforeClosing(interim[1..], k - 1);
    }
  }

  /** Rebinding an open room ends at the newest generation offered, or stays if none is newer. */
  lemma {:induction false} RebindEndsAtNewest(r: Route, servers: seq<OnlineServer>)
    ensures var last := RebindAll(r, servers);
      && (last == r || (last.server in servers && last.server != null && last.gen == last.server.generation > r.gen))
      && last.gen >= r.gen
      && (forall i :: 0 <= i < |servers| ==> servers[i].generation <= last.gen)
    decreases |servers|
  {
    if servers != [] {
      RebindEndsAtNewest(Rebind(r, false, servers[0]), servers[1..]);
      assert forall i :: 0 < i < |servers| ==> servers[i] == servers[1..][i - 1];
    }
  }

  /** Calls that arrive in different orders leave the same route, given that generations are distinct. */
  lemma RebindConfluent(r: Route, xs: seq<OnlineServer>, ys: seq<OnlineServer>)
    requires multiset(xs) == multiset(ys)
    requires forall i, j :: 0 <= i < |xs| && 0 <= j < |xs| && xs[i].generation == xs[j].generation ==> xs[i] == xs[j]
    ensures RebindAll(r, xs) == RebindAll(r, ys)
  {
    RebindEndsAtNewest(r, xs);
    RebindEndsAtNewest(r, ys);
    var x, y := RebindAll(r, xs), RebindAll(r, ys);
    assert forall s: OnlineServer :: s in xs <==> s in multiset(xs);
    assert forall s: OnlineServer :: s in ys <==> s in multiset(ys);
    if x != r {
      assert x.server in ys;
    }
    if y != r {
      assert y.server in xs;
    }
  }

  class Room {
    const id: string
    const deviceID: string
    const ownerUserID: string
    const admissionTTL: int
    var serverConn: OnlineServer?
    var serverGen: nat
    var clients: map<string, RoomClient>
    var admissions: map<string, RoomClient>
    var closed: bool

    /** The abstract seats, and the objects that represent them. */
    ghost var seats: map<string, M.Seat>
    ghost var Repr: set<RoomClient>

    /** clients holds exactly the attached admissions, by reference. */
    ghost predicate Valid()
      reads this`admissions, this`clients, this`seats, this`Repr, Repr
    {
      && (forall id :: id in admissions <==> id in seats)
      && (forall id :: id in admissions ==> admissions[id] in Repr && Represents(admissions[id], id, seats[id]))
      && (forall id :: id in clients <==> id in seats && seats[id].conn != null)
      && (forall id :: id in clients ==> id in admissions && clients[id] == admissions[id])
    }

    static ghost predicate Represents(client: RoomClient, id: string, seat: M.Seat)
      reads client
    {
      client.id == id && M.Seat(client.record, client.conn, client.expiresAt) == seat
    }

    /** What the seats say of the objects. */
    lemma SeatsShowObjects()
      requires Valid()
      ensures admissions.Keys == seats.Keys
      ensures forall id :: id in seats ==>
                && admissions[id].id == id && admissions[id].record == seats[id].client
                && admissions[id].conn == seats[id].conn && admissions[id].expiresAt == seats[id].expiresAt
      ensures forall id :: id in clients <==> id in seats && seats[id].conn != null
      ensures forall id :: id in clients ==> clients[id] == admissions[id]
    {
      assert forall id :: id in seats ==> Represents(admissions[id], id, seats[id]);
    }

    ghost function View(): M.State
      reads this`closed, this`seats
    {
      M.State(ownerUserID, admissionTTL, closed, seats)
    }

    constructor (id: string, deviceID: string, ownerUserID: string, server: OnlineServer?, ttl: int)
      ensures this.id == id && this.deviceID == deviceID && this.ownerUserID == ownerUserID
      ensures Valid() && View() == M.State(ownerUserID, ttl, false, map[]) && Repr == {}
      ensures serverConn == server && serverGen == if server != null then server.generation else 0
      ensures M.Inv(View()) && M.OneGuestHost(View())
    {
      this.id, this.deviceID, this.ownerUserID, this.admissionTTL := id, deviceID, ownerUserID, ttl;
      serverConn, serverGen := server, if server != null then server.generation else 0;
      clients, admissions, closed, seats, Repr := map[], map[], false, map[], {};
    }

    method Discard(id: string)
      requires Valid() && id in admissions
      modifies this`admissions, this`clients, this`seats
      ensures Valid()
      ensures seats == old(seats) - {id} && admissions == old(admissions) - {id}
    {
      admissions := admissions - {id};
      clients := clients - {id};
      seats := seats - {id};
    }

    method PruneExpiredAdmissions(now: int) returns (removed: nat)
      requires Valid()
      modifies this`admissions, this`clients, this`seats
      ensures Valid()
      ensures View() == M.PruneAt(old(View()), now)
      ensures removed == |old(seats)| - |seats|
    {
      removed := 0;
      var todo := admissions.Keys;
      while todo != {}
        invariant Valid()
        invariant todo <= admissions.Keys
        invariant M.PrunedSoFar(old(seats), seats, todo, now)
        invariant removed == |old(seats)| - |seats|
        decreases todo
      {
        var id :| id in todo;
        M.PruneVisit(old(seats), seats, todo, now, id);
        todo := todo - {id};
        var admission := admissions[id];
        if admission.conn == null && !(admission.expiresAt > now) {
          Discard(id);
          removed := removed + 1;
        }
      }
      M.PruneDone(old(seats), seats, now);
    }

    /** Stores a detached admission for id. */
    method StoreAdmission(id: string, record: M.Client, expiresAt: int)
      requires Valid() && id !in admissions
      modifies this`admissions, this`seats, this`Repr
      ensures Valid() && fresh(Repr - old(Repr))
      ensures seats == old(seats)[id := M.Seat(record, null, expiresAt)]
    {
      var admission := new RoomClient(id, record, expiresAt);
      admissions := admissions[id := admission];
      Repr := Repr + {admission};
      seats := seats[id := M.Seat(record, null, expiresAt)];
    }

    /** client is what the caller filled in; completed is the record the room stored and reports back. */
    method ReserveClient(clientID: string, client: M.Client, now: int)
        returns (completed: M.Client, err: Option<Error>)
      requires Valid()
      modifies this`admissions, this`clients, this`seats, this`Repr
      ensures Valid() && fresh(Repr - old(Repr))
      ensures (View(), ReserveOutcome(completed, err)) == M.ReserveCall(old(View()), now, clientID, client)
    {
      if closed {
        return client, Some(ErrRoomNotFound);
      }
      var removed := PruneExpiredAdmissions(now);
      completed, err := ReservePruned(clientID, client, now);
    }

    static ghost function ReserveOutcome(completed: M.Client, err: Option<Error>): M.Outcome {
      if err.Some? then M.Failed(err.value) else M.Reserved(completed)
    }

    method ReservePruned(clientID: string, client: M.Client, now: int)
        returns (completed: M.Client, err: Option<Error>)
      requires Valid() && !closed
      modifies this`admissions, this`seats, this`Repr
      ensures Valid() && fresh(Repr - old(Repr))
      ensures (View(), ReserveOutcome(completed, err)) == M.ReserveIn(old(View()), now, clientID, client)
    {
      completed := client;
      err := AdmissionError(clientID);
      if err == None {
        completed := Complete(client, now);
        StoreAdmission(clientID, completed, now + admissionTTL);
      }
    }

    method AdmissionError(clientID: string) returns (err: Option<Error>)
      requires Valid()
      ensures err == if clientID in seats then Some(ErrClientNotAdmitted)
                     else if |seats| >= M.MAX_CLIENTS_PER_ROOM then Some(ErrRoomFull)
                     else None
    {
      if clientID in admissions {
        return Some(ErrClientNotAdmitted);
      }
      var count := Occupied();
      return if count >= M.MAX_CLIENTS_PER_ROOM then Some(ErrRoomFull) else None;
    }

    method Complete(client: M.Client, now: int) returns (completed: M.Client)
      requires Valid()
      ensures completed == M.Admitted(ownerUserID, client, seats, now)
    {
      completed := client;
      if client.role == M.Unset {
        var role := DetermineRole(client.userID);
        completed := completed.(role := role);
      }
      if completed.role == M.Host {
        completed := completed.(inputAllowed := true);
      }
      if completed.joinedAt == ZERO_TIME {
        completed := completed.(joinedAt := now);
      }
    }

    method Occupied() returns (n: nat)
      requires Valid()
      ensures n == |seats|
      ensures n == 0 <==> seats == map[]
    {
      assert admissions.Keys == seats.Keys;
      assert |admissions.Keys| == |admissions| && |seats.Keys| == |seats|;
      return |admissions|;
    }

    method DetermineRole(userID: string) returns (role: M.Role)
      requires Valid()
      ensures role == M.DetermineRole(ownerUserID, userID, seats)
    {
      if ownerUserID != "" && userID == ownerUserID {
        return M.Host;
      }
      var count := Occupied();
      if count == 0 {
        return M.Host;
      }
      return M.Viewer;
    }

    /** Binds conn to id's admission and publishes the admission in clients. */
    method Bind(id: string, conn: Connection)
      requires Valid() && id in admissions
      modifies this`clients, this`seats, admissions[id]
      ensures Valid()
      ensures id in old(seats) && seats == old(seats)[id := M.Seat(old(seats)[id].client, conn, ZERO_TIME)]
      ensures id in clients && clients[id] == admissions[id]
    {
      var admission := admissions[id];
      assert Represents(admission, id, seats[id]);
      admission.conn := conn;
      admission.expiresAt := ZERO_TIME;
      clients := clients[id := admission];
      seats := seats[id := M.Seat(seats[id].client, conn, ZERO_TIME)];
    }

    /** Who holds the seat now, if anybody. */
    ghost function HolderOf(clientID: string): Connection?
      reads this`seats
    {
      if clientID in seats then seats[clientID].conn else null
    }

    /** Returns the admission itself, and the connection it replaces, which is closed after unlocking. holder
        is the connection that has the seat at the time of the call, if any. */
    method AttachClient(clientID: string, conn: Connection, now: int, ghost holder: Connection?)
        returns (client: RoomClient?, replaced: Connection?, err: Option<Error>)
      requires Valid() && holder == HolderOf(clientID) && (holder != null ==> holder.Valid())
      modifies this`admissions, this`clients, this`seats, Repr, holder
      ensures Valid()
      ensures if err == None then clientID in clients && client == clients[clientID] else client == null
      ensures (View(), AttachOutcome(client, replaced, err)) == M.AttachCall(old(View()), now, clientID, conn)
      ensures replaced == if err == None && holder != conn then holder else null
      ensures err == None ==> clients[clientID].conn == conn && HolderOf(clientID) == conn
      ensures holder != null ==>
                && holder.Valid()
                && holder.View() == if replaced == holder then AfterClose(old(holder.View())) else old(holder.View())
    {
      hide Valid, M.AttachCall, AttachOutcome, AfterClose;
      client, replaced, err := AttachLocked(clientID, conn, now);
      if replaced != null {
        replaced.Close();
      }
    }

    method AttachLocked(clientID: string, conn: Connection, now: int)
        returns (client: RoomClient?, replaced: Connection?, err: Option<Error>)
      requires Valid()
      modifies this`admissions, this`clients, this`seats, Repr
      ensures Valid()
      ensures if err == None then clientID in clients && client == clients[clientID] else client == null
      ensures replaced == if err == None && old(HolderOf(clientID)) != conn then old(HolderOf(clientID)) else null
      ensures err == None ==> clients[clientID].conn == conn && HolderOf(clientID) == conn
      ensures (View(), AttachOutcome(client, replaced, err)) == M.AttachCall(old(View()), now, clientID, conn)
    {
      if closed {
        return null, null, Some(ErrRoomNotFound);
      }
      var removed := PruneExpiredAdmissions(now);
      client, replaced, err := AttachPruned(clientID, conn, now);
    }

    static ghost function AttachOutcome(client: RoomClient?, replaced: Connection?, err: Option<Error>): M.Outcome {
      if err.Some? then M.Failed(err.value)
      else if client != null then M.Attached(client.record, replaced)
      else M.Silent
    }

    method AttachPruned(clientID: string, conn: Connection, now: int)
        returns (client: RoomClient?, replaced: Connection?, err: Option<Error>)
      requires Valid() && !closed
      modifies this`clients, this`seats, Repr
      ensures Valid()
      ensures if err == None then clientID in clients && client == clients[clientID] else client == null
      ensures replaced == if err == None && old(HolderOf(clientID)) != conn then old(HolderOf(clientID)) else null
      ensures err == None ==> clients[clientID].conn == conn && HolderOf(clientID) == conn
      ensures (View(), AttachOutcome(client, replaced, err)) == M.AttachIn(old(View()), clientID, conn)
    {
      if clientID !in admissions {
        return null, null, Some(ErrClientNotAdmitted);
      }
      client := admissions[clientID];
      assert Represents(client, clientID, seats[clientID]);
      var oldConn := client.conn;
      Bind(clientID, conn);
      replaced := if oldConn != conn then oldConn else null;
      err := None;
    }

    /** Withdraws id from clients and starts its reconnect window. */
    method Unbind(id: string, expiresAt: int)
      requires Valid() && id in clients
      modifies this`clients, this`seats, clients[id]
      ensures Valid()
      ensures id in old(seats) && seats == old(seats)[id := M.Seat(old(seats)[id].client, null, expiresAt)]
      ensures id !in clients && id in admissions
      ensures admissions[id].conn == null && admissions[id].expiresAt == expiresAt
    {
      var client := clients[id];
      assert Represents(client, id, seats[id]);
      clients := clients - {id};
      client.conn := null;
      if id in admissions {
        admissions[id].expiresAt := expiresAt;
      }
      seats := seats[id := M.Seat(seats[id].client, null, expiresAt)];
    }

    /** Detaches only the connection that owns the seat, and closes it after unlocking. */
    method RemoveClient(clientID: string, expectedConn: Connection, now: int) returns (ok: bool)
      requires Valid() && expectedConn.Valid()
      modifies this`clients, this`seats, Repr, expectedConn
      ensures Valid() && expectedConn.Valid()
      ensures (View(), M.Answer(ok)) == M.RemoveCall(old(View()), now, clientID, expectedConn)
      ensures expectedConn.View() == if ok then AfterClose(old(expectedConn.View())) else old(expectedConn.View())
      ensures ok <==> old(HolderOf(clientID)) == expectedConn
      ensures ok ==>
                && clientID !in clients && clientID in admissions && HolderOf(clientID) == null
                && admissions[clientID].conn == null && admissions[clientID].expiresAt == now + admissionTTL
                && M.AttachedConns(seats) == old(M.AttachedConns(seats)) - {clientID}
      ensures !ok ==> seats == old(seats) && clients == old(clients) && admissions == old(admissions)
    {
      hide AfterClose, M.AttachedConns, M.RemoveCall, Represents;
      ok := RemoveLocked(clientID, expectedConn, now);
      if ok {
        expectedConn.Close();
      }
    }

    method RemoveLocked(clientID: string, expectedConn: Connection, now: int) returns (ok: bool)
      requires Valid()
      modifies this`clients, this`seats, Repr
      ensures Valid()
      ensures (View(), M.Answer(ok)) == M.RemoveCall(old(View()), now, clientID, expectedConn)
      ensures ok <==> old(HolderOf(clientID)) == expectedConn
      ensures ok ==>
                && clientID !in clients && clientID in admissions && HolderOf(clientID) == null
                && admissions[clientID].conn == null && admissions[clientID].expiresAt == now + admissionTTL
                && M.AttachedConns(seats) == old(M.AttachedConns(seats)) - {clientID}
      ensures !ok ==> seats == old(seats) && clients == old(clients) && admissions == old(admissions)
    {
      hide M.AttachedConns;
      ok := clientID in clients;
      assert ok ==> Represents(clients[clientID], clientID, seats[clientID]);
      if ok && clients[clientID].conn == expectedConn {
        M.DetachedConn(seats, clientID, seats[clientID].client, now + admissionTTL);
        Unbind(clientID, now + admissionTTL);
      } else {
        ok := false;
      }
    }

    method HasValidAdmission(clientID: string, now: int) returns (ok: bool)
      requires Valid()
      modifies this`admissions, this`clients, this`seats
      ensures Valid()
      ensures View() == M.PruneAt(old(View()), now)
      ensures ok <==> clientID in M.PruneAt(old(View()), now).seats && !closed
    {
      var removed := PruneExpiredAdmissions(now);
      return clientID in admissions && !closed;
    }

    method ClientCount(now: int) returns (n: nat)
      requires Valid()
      modifies this`admissions, this`clients, this`seats
      ensures Valid()
      ensures (View(), M.Count(n)) == (M.PruneAt(old(View()), now), M.Count(|M.PruneAt(old(View()), now).seats|))
    {
      var removed := PruneExpiredAdmissions(now);
      n := Occupied();
    }

    method MarkClosed()
      modifies this`closed
      ensures closed
      ensures old(Valid()) ==> Valid() && View() == old(View()).(closed := true)
    {
      closed := true;
    }

    /** The critical section of CloseAllClients. OfferRoomClosed then takes leave of the kicked. */
    method CloseAllClients() returns (kicked: map<string, Connection>)
      modifies this`closed, this`clients, this`admissions, this`seats
      ensures closed && admissions == map[] && clients == map[]
      ensures old(Valid()) ==>
                && Valid()
                && View() == old(View()).(closed := true, seats := map[])
                && kicked == M.AttachedConns(old(seats))
    {
      closed := true;
      kicked := map[];
      var todo := clients.Keys;
      while todo != {}
        invariant todo <= clients.Keys
        invariant kicked == map id | id in clients && id !in todo && clients[id].conn != null :: clients[id].conn
        decreases todo
      {
        var id :| id in todo;
        todo := todo - {id};
        var conn := clients[id].conn;
        if conn != null {
          kicked := kicked[id := conn];
        }
      }
      assert old(Valid()) ==> kicked == M.AttachedConns(old(seats));
      clients := map[];
      admissions := map[];
      seats := map[];
    }

    /** The rest of CloseAllClients, as far as each SendAndClose decides: the k-th one is caller first + k. */
    static method OfferRoomClosed(kicked: map<string, Connection>, data: string, first: nat) returns (allAccepted: bool)
      requires forall c :: c in kicked.Values ==> c.Valid()
      modifies kicked.Values
      ensures forall c :: c in kicked.Values ==> c.Valid() && TakesLeave(old(c.View()), c.View(), data)
      ensures allAccepted ==> forall c :: c in kicked.Values ==> Admit(old(c.View())).Accepted?
    {
      allAccepted := true;
      var todo, caller := kicked.Keys, first;
      ghost var told: set<Connection> := {};
      while todo != {}
        invariant todo <= kicked.Keys && told <= kicked.Values
        invariant forall id :: id in kicked && id !in todo ==> kicked[id] in told
        invariant forall c :: c in kicked.Values ==> c.Valid()
        invariant forall c :: c in kicked.Values && c !in told ==> c.View() == old(c.View())
        invariant forall c :: c in told ==> TakesLeave(old(c.View()), c.View(), data)
        invariant allAccepted ==> forall c :: c in told ==> Admit(old(c.View())).Accepted?
        decreases todo
      {
        var id :| id in todo;
        todo := todo - {id};
        var accepted := kicked[id].BeginSendAndClose(data, caller);
        if !accepted {
          allAccepted := false;
        }
        caller := caller + 1;
        told := told + {kicked[id]};
      }
    }

    ghost function ServerRoute(): Route
      reads this`serverConn, this`serverGen
    {
      Route(serverConn, serverGen)
    }

    method RebindServer(server: OnlineServer?) returns (ok: bool)
      modifies this`serverConn, this`serverGen
      ensures ServerRoute() == Rebind(old(ServerRoute()), closed, server)
      ensures ok <==> !closed && server != null && server.generation > old(serverGen)
    {
      if closed || server == null || server.generation <= serverGen {
        return false;
      }
      serverConn := server;
      serverGen := server.generation;
      return true;
    }

    /** interim is what other goroutines do between the two route snapshots; writes gives the socket's
        answer per attempt. A second attempt is made only to a newer server, even if the room has been
        closed since. */
    method SendToServer(interim: seq<Interim>, writes: (bool, bool))
        returns (ok: bool, attempts: seq<OnlineServer>)
      requires serverConn != null ==> serverGen == serverConn.generation
      modifies this`serverConn, this`serverGen, this`closed
      ensures |attempts| <= 2
      ensures forall i :: 0 < i < |attempts| ==> attempts[i - 1].generation < attempts[i].generation
      ensures old(closed) || old(serverConn) == null ==> !ok && attempts == []
      ensures !old(closed) && old(serverConn) != null ==>
                var newest := RebindAll(old(ServerRoute()), OfferedInTime(interim));
                && |attempts| > 0 && attempts[0] == old(serverConn)
                && (|attempts| == 2 <==> !(!old(serverConn).done && writes.0) && newest != old(ServerRoute()))
                && (|attempts| == 2 ==> attempts[1] == newest.server)
                && ok == if |attempts| == 2 then !attempts[1].done && writes.1
                         else !attempts[0].done && writes.0
    {
      attempts := [];
      if closed {
        return false, [];
      }
      var server, generation := serverConn, serverGen;
      if server == null {
        return false, [];
      }
      attempts := [server];
      ok := server.SendMessage(writes.0);
      if ok {
        return;
      }
      var i := 0;
      while i < |interim|
        invariant 0 <= i <= |interim|
        invariant RebindAll(ServerRoute(), if closed then [] else OfferedInTime(interim[i..]))
                  == RebindAll(old(ServerRoute()), OfferedInTime(interim))
        invariant serverConn != null && serverGen == serverConn.generation >= generation
        invariant serverGen == generation ==> serverConn == server
      {
        match interim[i] {
          case Rebinds(offered) =>
            var rebound := RebindServer(offered);
          case Closes =>
            MarkClosed();
        }
        i := i + 1;
      }
      var replacement, replacementGeneration := serverConn, serverGen;
      if replacement != null && replacementGeneration > generation {
        attempts := attempts + [replacement];
        ok := replacement.SendMessage(writes.1);
      }
    }

    /** The snapshot BroadcastToClients sends to; ids tells whose connection each one is. */
    method Connections() returns (conns: seq<Connection>, ghost ids: seq<string>)
      requires Valid()
      ensures Lists(conns, ids, M.AttachedConns(seats))
      ensures forall c :: c in conns <==> c in M.AttachedConns(seats).Values
    {
      conns, ids := [], [];
      var todo := clients.Keys;
      while todo != {}
        invariant todo <= clients.Keys
        invariant Lists(conns, ids,
                        map id | id in clients && id !in todo && clients[id].conn != null :: clients[id].conn)
        decreases todo
      {
        var id :| id in todo;
        todo := todo - {id};
        var conn := clients[id].conn;
        if conn != null {
          conns, ids := conns + [conn], ids + [id];
        }
      }
    }

    /** The connection SendToClient sends to, if any. */
    method ConnectionOf(clientID: string) returns (conn: Connection?)
      requires Valid()
      ensures conn == if clientID in M.AttachedConns(seats) then M.AttachedConns(seats)[clientID] else null
    {
      return if clientID in clients then clients[clientID].conn else null;
    }
  }

  /** A connection that was open has the final frame as its last one and closes after it; one that was
      full is closed; one that had already decided to close stays as it was. */
  ghost predicate TakesLeave(before: Core, after: Core, data: string) {
    match Admit(before)
    case Rejected => after == before
    case Overflow => after.closed && after.socketClosed && after.queue == before.queue
    case Accepted =>
      && after.graceful && !after.closed
      && exists caller :: after.queue == before.queue + [Final(data, caller)]
  }

  /** conns are the attached connections in some order, each client's exactly once. */
  ghost predicate Lists(conns: seq<Connection>, ids: seq<string>, attached: map<string, Connection>) {
    && |ids| == |conns|
    && (forall i :: 0 <= i < |ids| ==> ids[i] in attached && conns[i] == attached[ids[i]])
    && (forall i, j :: 0 <= i < j < |ids| ==> ids[i] != ids[j])
    && (forall id :: id in attached ==> id in ids)
  }
}
