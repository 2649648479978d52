/** Routing of frames that server connections sent, under the hub's read lock. */
module WSHandlers {
  import opened Common
  import opened Connections
  import opened Servers
  import opened Rooms
  import opened HubModel
  import opened DeviceHubs
  import RoomModel
  import Inv = HubInvariants
  import Runs = HubRuns

  /** What routing looks at: binary data, text that is not a JSON object, or an object, with the value
      of its "target" field if that is a string. */
  datatype Kind = Binary | NotJson | Json(target: Option<string>)

  datatype Frame = Frame(kind: Kind, data: string)

  function TargetOf(frame: Frame): Option<string> {
    if frame.kind.Json? && frame.kind.target.Some? && frame.kind.target.value != "" then frame.kind.target else None
  }

  /** The clients of a room that a frame is for, and their connections. */
  function Addressees(frame: Frame, attached: map<string, Connection>): map<string, Connection> {
    match TargetOf(frame)
    case None => attached
    case Some(id) => map k | k in attached && k == id :: attached[k]
  }

  /** By the kind of the frame: text with a target goes to that client's connection only, if it is attached;
      anything else to each attached client, once. */
  ghost predicate SentTo(frame: Frame, attached: map<string, Connection>, conns: seq<Connection>, ids: seq<string>) {
    match frame.kind
    case Binary => Lists(conns, ids, attached)
    case NotJson => Lists(conns, ids, attached)
    case Json(None) => Lists(conns, ids, attached)
    case Json(Some(id)) =>
      if id == "" then Lists(conns, ids, attached)
      else conns == if id in attached then [attached[id]] else []
  }

  /** c is the connection of a client that the frame is for. */
  ghost predicate IsFor(frame: Frame, attached: map<string, Connection>, c: Connection) {
    match frame.kind
    case Json(Some(id)) => if id == "" then c in attached.Values else id in attached && attached[id] == c
    case _ => c in attached.Values
  }

  lemma OneListed(conns: seq<Connection>, ids: seq<string>, id: string, conn: Connection)
    requires Lists(conns, ids, map[id := conn])
    ensures conns == [conn]
  {
    assert id in ids;
    assert ids[0] == id && ids[|ids| - 1] == id;
  }

  lemma SomebodyListed(conns: seq<Connection>, ids: seq<string>, attached: map<string, Connection>)
    requires Lists(conns, ids, attached) && conns != []
    ensures attached != map[]
  {
    assert ids[0] in attached;
  }

  lemma AddresseesAreSentTo(frame: Frame, attached: map<string, Connection>, conns: seq<Connection>, ids: seq<string>)
    requires Lists(conns, ids, Addressees(frame, attached))
    ensures SentTo(frame, attached, conns, ids)
    ensures forall c :: c in conns <==> IsFor(frame, attached, c)
  {
    if frame.kind.Json? && frame.kind.target.Some? && frame.kind.target.value != "" {
      var id := frame.kind.target.value;
      if id in attached {
        assert Addressees(frame, attached) == map[id := attached[id]];
        OneListed(conns, ids, id, attached[id]);
      } else {
        assert Addressees(frame, attached) == map[];
        if conns != [] {
          SomebodyListed(conns, ids, Addressees(frame, attached));
        }
      }
    } else {
      ListedValues(conns, ids, attached);
    }
  }

  lemma ListedValues(conns: seq<Connection>, ids: seq<string>, attached: map<string, Connection>)
    requires Lists(conns, ids, attached)
    ensures forall c :: c in conns <==> c in attached.Values
  {
    forall c | c in attached.Values ensures c in conns {
      var id :| id in attached && attached[id] == c;
      var i :| 0 <= i < |ids| && ids[i] == id;
      assert conns[i] == c;
    }
  }

  /** A connection after the same frame was offered to it n times with Send. */
  function Offered(c: Core, data: string, n: nat): Core {
    if n == 0 then c else Offer(Offered(c, data, n - 1), Plain(data))
  }

  /** A connection that is not closing and has room takes the frame once, last in its queue; one that
      is closing takes nothing. */
  lemma OfferedOnce(c: Core, data: string)
    ensures !c.closed && !c.graceful && |c.queue| < SEND_BUFFER ==>
              Offered(c, data, 1) == c.(queue := c.queue + [Plain(data)])
    ensures forall n :: c.closed || c.graceful ==> Offered(c, data, n) == c
  {
    assert Offered(c, data, 1) == Offer(c, Plain(data));
    if c.closed || c.graceful {
      forall n ensures Offered(c, data, n) == c {
        NothingOffered(c, data, n);
      }
    }
  }

  lemma {:induction false} NothingOffered(c: Core, data: string, n: nat)
    requires c.closed || c.graceful
    ensures Offered(c, data, n) == c
  {
    if n > 0 {
      NothingOffered(c, data, n - 1);
    }
  }

  lemma NeverOffered(data: string)
    ensures forall c :: Offered(c, data, 0) == c
  {
  }

  /** Sends to each connection in turn. */
  method OfferAll(conns: seq<Connection>, data: string)
    requires forall c :: c in conns ==> c.Valid()
    modifies conns
    ensures forall c :: c in conns ==> c.Valid() && c.View() == Offered(old(c.View()), data, multiset(conns)[c])
  {
    hide Offer, Plain, Connection.Valid;
    for i := 0 to |conns|
      invariant forall c :: c in conns ==>
                  c.Valid() && c.View() == Offered(old(c.View()), data, multiset(conns[..i])[c])
    {
      assert conns[..i + 1] == conns[..i] + [conns[i]];
      var ok := conns[i].Send(data);
    }
    assert conns[..|conns|] == conns;
  }

  /** routeServerMessage, up to the sends. */
  method RouteServerMessage(room: Room, frame: Frame) returns (conns: seq<Connection>, ghost ids: seq<string>)
    requires room.Valid()
    ensures Lists(conns, ids, Addressees(frame, RoomModel.AttachedConns(room.seats)))
    ensures forall c :: c in conns <==> c in Addressees(frame, RoomModel.AttachedConns(room.seats)).Values
    ensures SentTo(frame, RoomModel.AttachedConns(room.seats), conns, ids)
  {
    if frame.kind.Json? && frame.kind.target.Some? && frame.kind.target.value != "" {
      var conn := room.ConnectionOf(frame.kind.target.value);
      conns, ids := [], [];
      if conn != null {
        conns, ids := [conn], [frame.kind.target.value];
      }
    } else {
      conns, ids := room.Connections();
    }
  }

  /** The legacy fallback: the client of the device's session, if it is connected. */
  ghost function SessionClient(t: Table, deviceID: string): seq<Connection> {
    match DeviceSession(t, deviceID)
    case None => []
    case Some(id) => if t.sessions[id].clientConn != null then [t.sessions[id].clientConn] else []
  }

  /** The fallback finds the client of the device's one session, and nobody if that has none. */
  lemma SessionClientIs(t: Table, deviceID: string)
    requires Inv.OneSessionPerDevice(t)
    ensures forall id ::
              id in t.sessions && t.sessions[id].deviceID == deviceID && t.sessions[id].clientConn != null ==>
              SessionClient(t, deviceID) == [t.sessions[id].clientConn]
    ensures (forall id :: id in t.sessions && t.sessions[id].deviceID == deviceID ==> t.sessions[id].clientConn == null)
            ==> SessionClient(t, deviceID) == []
  {
    var found := DeviceSession(t, deviceID);
    forall id | id in t.sessions && t.sessions[id].deviceID == deviceID ensures found == Some(id) {
      assert ForDevice(t, id, deviceID);
    }
  }

  /** A frame is routed iff its server is the registered one of its device; by rooms iff the device has one. */
  lemma RoutedIff(s: State, server: OnlineServer)
    requires Inv.Inv(s)
    ensures Routable(s, server) <==> server.deviceID in s.reg.servers && s.reg.servers[server.deviceID] == server
    ensures InRoom(s, server.deviceID)
       <==> exists id :: id in s.reg.rooms && s.reg.rooms[id].deviceID == server.deviceID
  {
    Inv.InvParts(s);
    forall id | id in s.reg.rooms && s.reg.rooms[id].deviceID == server.deviceID ensures InRoom(s, server.deviceID) {
      assert Inv.RoomOk(s.reg, id);
    }
  }

  /** live holds every connection that the hub's rooms and sessions can reach. */
  ghost predicate Reaches(hub: DeviceHub, live: set<Connection>)
    reads hub`rooms, hub`tab, hub.rooms.Values`seats
  {
    HasSeated(live, hub.Seating()) && HasClients(live, hub.tab)
  }

  ghost predicate HasSeated(live: set<Connection>, seating: map<string, map<string, Connection>>) {
    forall id, k :: id in seating && k in seating[id] ==> seating[id][k] in live
  }

  ghost predicate HasClients(live: set<Connection>, t: Table) {
    forall id :: id in t.sessions && t.sessions[id].clientConn != null ==> t.sessions[id].clientConn in live
  }

  /** routeCurrentServerMessage, up to the sends: whether the frame is routed, and to whom. */
  method Destinations(hub: DeviceHub, server: OnlineServer, frame: Frame)
      returns (ok: bool, conns: seq<Connection>, ghost ids: seq<string>)
    requires hub.Valid() && server in hub.issued
    ensures ok <==> Routable(hub.State(), server)
    ensures !ok ==> conns == []
    ensures ok && InRoom(hub.State(), server.deviceID) ==>
              && server.deviceID in hub.serverRooms
              && var id := hub.serverRooms[server.deviceID];
              && id in hub.rooms
              && Lists(conns, ids, Addressees(frame, RoomModel.AttachedConns(hub.rooms[id].seats)))
    ensures ok && !InRoom(hub.State(), server.deviceID) ==> conns == SessionClient(hub.tab, server.deviceID)
  {
    hide Lists, SessionClient, Routable, RoomModel.AttachedConns, DeviceSession, Addressees, DeviceHub.RoomsValid;
    conns, ids := [], [];
    ok := IsCurrent(hub, server);
    if ok {
      hub.RegFields();
      if server.deviceID in hub.serverRooms && hub.serverRooms[server.deviceID] in hub.rooms {
        hub.RegisteredRooms();
        conns, ids := RouteServerMessage(hub.rooms[hub.serverRooms[server.deviceID]], frame);
      } else {
        conns := LegacyClient(hub, server.deviceID);
      }
    }
  }

  method IsCurrent(hub: DeviceHub, server: OnlineServer) returns (current: bool)
    requires hub.RegValid() && server in hub.issued
    ensures current <==> Routable(hub.State(), server)
  {
    if server.done {
      return false;
    }
    return server.deviceID in hub.onlineServers && hub.onlineServers[server.deviceID] == server;
  }

  method LegacyClient(hub: DeviceHub, deviceID: string) returns (conns: seq<Connection>)
    requires hub.Valid()
    ensures conns == SessionClient(hub.tab, deviceID)
  {
    hide DeviceHub.RegValid;
    hub.TableFacts();
    hub.KeysAgree();
    var todo := hub.sessions.Keys;
    while todo != {}
      invariant todo <= hub.sessions.Keys
      invariant forall id :: id in hub.sessions && id !in todo ==>
                  hub.tab.sessions[id].deviceID != deviceID || hub.tab.sessions[id].clientConn == null
      decreases todo
    {
      var id :| id in todo;
      todo := todo - {id};
      var sess := hub.sessions[id];
      hub.ClientAgrees(sess);
      hub.TheDeviceSession(hub.tab, deviceID, id);
      if sess.deviceID == deviceID && sess.clientConn != null {
        return [sess.clientConn];
      }
    }
    return [];
  }

  /** A frame is routed iff its server is registered and not closed. Then it is offered exactly once
      for each attached client it is for, or to the client of the device's session if the device has
      no room; otherwise it reaches nobody. The hub is left as it is. */
  method RouteCurrentServerMessage(hub: DeviceHub, server: OnlineServer, frame: Frame, ghost live: set<Connection>)
      returns (ok: bool, ghost conns: seq<Connection>, ghost ids: seq<string>)
    requires hub.Valid() && server in hub.issued
    requires Reaches(hub, live) && forall c :: c in live ==> c.Valid()
    modifies live
    ensures hub.Valid() && hub.Seating() == old(hub.Seating())
    ensures ok <==> Routable(hub.State(), server)
    ensures !ok ==> conns == []
    ensures ok && InRoom(hub.State(), server.deviceID) ==>
              && server.deviceID in hub.serverRooms
              && var id := hub.serverRooms[server.deviceID];
              && id in hub.rooms
              && Lists(conns, ids, Addressees(frame, RoomModel.AttachedConns(hub.rooms[id].seats)))
    ensures ok && !InRoom(hub.State(), server.deviceID) ==> conns == SessionClient(hub.tab, server.deviceID)
    ensures forall c :: c in live ==> c.Valid() && c.View() == Offered(old(c.View()), frame.data, multiset(conns)[c])
    ensures ok && InRoom(hub.State(), server.deviceID) ==>
              && server.deviceID in hub.serverRooms
              && var id := hub.serverRooms[server.deviceID];
              && id in hub.Seating()
              && SentTo(frame, hub.Seating()[id], conns, ids)
              && forall c :: c in live && !IsFor(frame, hub.Seating()[id], c) ==> c.View() == old(c.View())
  {
    hide SentTo, IsFor;
    hide DeviceHub.Valid, Lists, SessionClient, Routable, InRoom, Offered, RoomModel.AttachedConns, DeviceSession;
    hide Addressees, HasSeated, HasClients, Connection.Valid, Connection.View;
    var offers;
    ok, offers, ids := Destinations(hub, server, frame);
    conns := offers;
    if ok && InRoom(hub.State(), server.deviceID) {
      hub.SeatingAt();
      ListedAreLive(conns, ids, frame, hub.Seating(), hub.serverRooms[server.deviceID], live);
      AddresseesAreSentTo(frame, hub.Seating()[hub.serverRooms[server.deviceID]], conns, ids);
    } else {
      SessionClientIsLive(hub.tab, server.deviceID, live);
    }
    NeverOffered(frame.data);
    OfferAll(offers, frame.data);
  }

  lemma ListedAreLive(conns: seq<Connection>, ids: seq<string>, frame: Frame,
                      seating: map<string, map<string, Connection>>, id: string, live: set<Connection>)
    requires HasSeated(live, seating) && id in seating && Lists(conns, ids, Addressees(frame, seating[id]))
    ensures forall c :: c in conns ==> c in live
  {
  }

  lemma SessionClientIsLive(t: Table, deviceID: string, live: set<Connection>)
    requires HasClients(live, t)
    ensures forall c :: c in SessionClient(t, deviceID) ==> c in live
  {
  }

  /** One client of one room gets conn, which is live. */
  lemma StillSeated(live: set<Connection>, seating: map<string, map<string, Connection>>, id: string,
                    clientID: string, conn: Connection)
    requires HasSeated(live, seating) && id in seating && conn in live
    ensures HasSeated(live, seating[id := seating[id][clientID := conn]])
  {
  }

  lemma HolderIsLive(hub: DeviceHub, room: Room, clientID: string, live: set<Connection>)
    requires room.id in hub.rooms && hub.rooms[room.id] == room && HasSeated(live, hub.Seating())
    ensures room.HolderOf(clientID) != null ==> room.HolderOf(clientID) in live
  {
    if clientID in room.seats && room.seats[clientID].conn != null {
      assert clientID in hub.Seating()[room.id];
    }
  }

  /** The seating after clientID has been attached to a room, if it could be. */
  ghost function Seated(seating: map<string, map<string, Connection>>, id: string, clientID: string,
                        conn: Connection, attached: bool): map<string, map<string, Connection>>
    requires id in seating
  {
    if attached then seating[id := seating[id][clientID := conn]] else seating
  }

  lemma SeatedIs(seating: map<string, map<string, Connection>>, id: string, clientID: string, conn: Connection,
                 attached: bool, after: map<string, Connection>)
    requires id in seating && after == if attached then seating[id][clientID := conn] else seating[id]
    ensures seating[id := after] == Seated(seating, id, clientID, conn, attached)
  {
  }

  lemma AttachedIffClient(client: RoomClient?, replaced: Connection?, err: Option<Error>)
    requires err == None <==> client != null
    ensures Room.AttachOutcome(client, replaced, err).Attached? <==> client != null
  {
  }

  /** AttachClient on a registered room changes the seat of that client in that room only. */
  method Seat(hub: DeviceHub, room: Room, clientID: string, conn: Connection, now: int, ghost holder: Connection?)
      returns (client: RoomClient?)
    requires hub.Valid() && room.id in hub.rooms && hub.rooms[room.id] == room
    requires holder == room.HolderOf(clientID) && (holder != null ==> holder.Valid())
    modifies room`admissions, room`clients, room`seats, room.Repr, holder
    ensures hub.Valid() && hub.State() == old(hub.State())
    ensures holder != null ==> holder.Valid()
    ensures client != null <==> RoomModel.AttachCall(old(room.View()), now, clientID, conn).1.Attached?
    ensures hub.Seating() == Seated(old(hub.Seating()), room.id, clientID, conn, client != null)
  {
    hide DeviceHub.Valid, RoomModel.AttachedConns, RoomModel.AttachCall, DeviceHub.Seating, Seated, AfterClose;
    hide Connection.Valid, Connection.View, Room.HolderOf, Room.AttachOutcome;
    ghost var before, seating := room.View(), hub.Seating();
    hub.RegisteredRooms();
    hub.SeatingAt();
    var replaced, err;
    client, replaced, err := hub.Attach(room, clientID, conn, now, holder);
    AttachedIffClient(client, replaced, err);
    RoomModel.AttachedConn(before, now, clientID, conn);
    SeatedIs(seating, room.id, clientID, conn, client != null, RoomModel.AttachedConns(room.seats));
  }

  /** Attaching to a registered room seats conn, if the room admits it; nobody else's seat changes. */
  method AttachTo(hub: DeviceHub, room: Room, clientID: string, conn: Connection, now: int, ghost live: set<Connection>)
      returns (client: RoomClient?)
    requires hub.Valid() && room.id in hub.rooms && hub.rooms[room.id] == room
    requires conn in live && HasSeated(live, hub.Seating()) && forall c :: c in live ==> c.Valid()
    modifies room`admissions, room`clients, room`seats, room.Repr, room.HolderOf(clientID)
    ensures hub.Valid() && hub.State() == old(hub.State())
    ensures HasSeated(live, hub.Seating()) && forall c :: c in live ==> c.Valid()
    ensures client != null <==> RoomModel.AttachCall(old(room.View()), now, clientID, conn).1.Attached?
    ensures room.id in old(hub.Seating())
    ensures hub.Seating() == Seated(old(hub.Seating()), room.id, clientID, conn, client != null)
  {
    hide DeviceHub.Valid, RoomModel.AttachedConns, RoomModel.AttachCall, HasSeated, DeviceHub.Seating;
    hub.SeatingAt();
    HolderIsLive(hub, room, clientID, live);
    ghost var seating := hub.Seating();
    client := Seat(hub, room, clientID, conn, now, room.HolderOf(clientID));
    StillSeated(live, seating, room.id, clientID, conn);
  }

  lemma BindKeepsClients(live: set<Connection>, t: Table, server: OnlineServer)
    requires HasClients(live, t)
    ensures HasClients(live, BindDevice(t, server))
  {
    var found := DeviceSession(t, server.deviceID);
    if found.Some? {
      Inv.BindServerSessions(t, found.value, server);
    }
  }

  /** AddServer leaves the seating and the sessions' clients as they are, and makes its server the one
      whose frames are routed. */
  method Reconnect(hub: DeviceHub, deviceID: string, userID: string, now: int, ghost live: set<Connection>)
      returns (server: OnlineServer?)
    requires hub.Valid() && hub.clock <= now && HasClients(live, hub.tab)
    modifies hub, hub.sessionObjs, hub.issued, hub.RoomOf(deviceID)
    ensures hub.Valid() && hub.clock == now && HasClients(live, hub.tab)
    ensures hub.sessionObjs == old(hub.sessionObjs) && fresh(hub.issued - old(hub.issued))
    ensures hub.rooms == old(hub.rooms) && hub.Seating() == old(hub.Seating())
    ensures server != null <==> MayAddServer(old(hub.State()), deviceID, userID)
    ensures server != null ==>
              && server in hub.issued && server.deviceID == deviceID && Routable(hub.State(), server)
              && Steps(old(hub.State()), At(now, OpAddServer(deviceID, userID, server)), hub.State())
  {
    hide DeviceHub.Valid, HasClients, RoomModel.AttachedConns, BindDevice, Steps, Routable, MayAddServer;
    hide Inv.Inv, DeviceHub.Announces, DeviceHub.KeepsRooms, DeviceHub.Seating, DeviceHub.RoomOf;
    ghost var before := hub.State();
    hub.ItsInv();
    var err, resumed;
    server, err, resumed := hub.AddServer(deviceID, userID, now);
    hub.SeatingKept();
    if server != null {
      Runs.AddedIsRoutable(before, now, deviceID, userID, server, hub.State());
      BindKeepsClients(live, before.tab, server);
    }
  }

  /** Rooms and hub together: once its device's server has been replaced, the clients that were attached to
      a room still are, and a frame of the new server is offered once to each of them that it is for, and
      to no other connection. */
  method RouteAfterReplacement(hub: DeviceHub, roomID: string, userID: string, frame: Frame, now: int,
                               ghost live: set<Connection>)
      returns (server: OnlineServer?, ghost conns: seq<Connection>, ghost ids: seq<string>)
    requires hub.Valid() && hub.clock <= now && roomID in hub.rooms
    requires Reaches(hub, live) && forall c :: c in live ==> c.Valid()
    modifies hub, hub.sessionObjs, hub.issued, hub.RoomOf(hub.rooms[roomID].deviceID), live
    ensures hub.Valid() && hub.Seating() == old(hub.Seating())
    ensures server != null <==> MayAddServer(old(hub.State()), old(hub.rooms[roomID].deviceID), userID)
    ensures if server == null then conns == []
            else
              && roomID in old(hub.rooms) && Lists(conns, ids, Addressees(frame, old(hub.Seating()[roomID])))
              && SentTo(frame, old(hub.Seating()[roomID]), conns, ids)
    ensures forall c :: c in live ==> c.Valid() && c.View() == Offered(old(c.View()), frame.data, multiset(conns)[c])
  {
    hide SentTo, IsFor;
    hide DeviceHub.Valid, DeviceHub.Seating, HasSeated, HasClients, RoomModel.AttachedConns, Routable, Lists;
    hide Addressees, Offered, MayAddServer, Steps, Connection.Valid, Connection.View;
    conns, ids := [], [];
    NeverOffered(frame.data);
    hub.SeatingAt();
    server := Reconnect(hub, hub.rooms[roomID].deviceID, userID, now, live);
    hub.SeatingAt();
    hub.RoomIsItsDevices(roomID);
    if server != null {
      var ok;
      ok, conns, ids := RouteCurrentServerMessage(hub, server, frame, live);
    }
  }
}
