/**
 The calls of hub, rooms and routing put together: from an empty hub to a client that joins a room and
 gets the frames of a server that has replaced the one it joined.
 */
module Lifecycle {
  import opened Common
  import opened Connections
  import opened Servers
  import opened Rooms
  import opened HubModel
  import opened DeviceHubs
  import opened WSHandlers
  import RoomModel
  import Runs = HubRuns

  /** In a hub without sessions, a user can register a server for a device that has none, and open a room. */
  lemma MayOpen(s: State, now: int, deviceID: string, userID: string, server: OnlineServer, t: State,
                candidates: seq<string>)
    requires Runs.Starts(s) && Steps(s, At(now, OpAddServer(deviceID, userID, server)), t) && candidates != []
    ensures t.tab.sessions == map[] && CreateRoomError(t, deviceID, userID, candidates).None?
  {
  }

  lemma StartsOpen(s: State, deviceID: string, userID: string)
    requires Runs.Starts(s)
    ensures MayAddServer(s, deviceID, userID) && s.reg.rooms == map[] && s.tab.sessions == map[]
  {
  }

  lemma OwnerMayReturn(s: State, now: int, deviceID: string, userID: string, candidates: seq<string>, t: State)
    requires Steps(s, At(now, OpCreateRoom(deviceID, userID, candidates)), t)
    requires s.tab.sessions == map[] && CreateRoomError(s, deviceID, userID, candidates).None?
    ensures t.tab.sessions == map[] && t.now == now && MayAddServer(t, deviceID, userID)
  {
  }

  lemma NobodyYet(live: set<Connection>, id: string, t: Table)
    requires t.sessions == map[]
    ensures HasSeated(live, map[id := map[]]) && HasClients(live, t)
  {
  }

  /** A hub with one online device, whose owner can open a room. */
  method GoOnline(deviceID: string, userID: string, now: int, ghost candidates: seq<string>)
      returns (hub: DeviceHub)
    requires candidates != []
    ensures hub.Valid() && hub.clock == now && hub.tab.sessions == map[] && hub.rooms == map[]
    ensures fresh(hub) && fresh(hub.sessionObjs) && fresh(hub.issued)
    ensures CreateRoomError(hub.State(), deviceID, userID, candidates).None?
  {
    hide DeviceHub.Valid, Steps, MayAddServer, CreateRoomError, Runs.Starts, HasClients, DeviceHub.Seating;
    hub := new DeviceHub(0, 0, now);
    ghost var start := hub.State();
    StartsOpen(start, deviceID, userID);
    hub.NoRooms();
    NobodyYet({}, "", start.tab);
    var server := Reconnect(hub, deviceID, userID, now, {});
    MayOpen(start, now, deviceID, userID, server, hub.State(), candidates);
  }

  /** A hub with one online device and its room, in which nobody is seated. */
  method OpenRoom(deviceID: string, userID: string, candidates: seq<string>, now: int)
      returns (hub: DeviceHub, room: Room)
    requires |candidates| == ROOM_ID_ATTEMPTS && "" !in candidates
    ensures hub.Valid() && hub.clock == now && hub.tab.sessions == map[]
    ensures fresh(hub) && fresh(hub.sessionObjs) && fresh(hub.issued) && fresh(room)
    ensures room in hub.roomObjs && room.id in hub.rooms && hub.rooms[room.id] == room
    ensures DeviceHub.IsNew(room, deviceID, userID) && hub.Seating() == map[room.id := map[]]
    ensures MayAddServer(hub.State(), deviceID, userID)
  {
    hide DeviceHub.Valid, Steps, MayAddServer, CreateRoomError, DeviceHub.KeepsRooms;
    hub := GoOnline(deviceID, userID, now, candidates);
    ghost var online := hub.State();
    var created, err := hub.CreateRoom(deviceID, userID, candidates, now);
    OwnerMayReturn(online, now, deviceID, userID, candidates, hub.State());
    room := created;
  }

  /** A reservation on a registered room, and the attachment it is for. */
  method Join(hub: DeviceHub, room: Room, clientID: string, client: RoomModel.Client, conn: Connection,
              reservedAt: int, now: int, ghost live: set<Connection>)
      returns (joined: bool)
    requires hub.Valid() && room in hub.roomObjs && room.id in hub.rooms && hub.rooms[room.id] == room
    requires conn in live && HasSeated(live, hub.Seating()) && forall c :: c in live ==> c.Valid()
    modifies room`admissions, room`clients, room`seats, room`Repr, room.Repr
    ensures hub.Valid() && hub.State() == old(hub.State())
    ensures HasSeated(live, hub.Seating())
    ensures joined <==> now < reservedAt + room.admissionTTL
                        && RoomModel.ReserveCall(old(room.View()), reservedAt, clientID, client).1.Reserved?
    ensures room.id in old(hub.Seating())
    ensures hub.Seating() == Seated(old(hub.Seating()), room.id, clientID, conn, joined)
  {
    hide DeviceHub.Valid, HasSeated, DeviceHub.Seating, RoomModel.ReserveCall, RoomModel.AttachCall;
    hide RoomModel.AttachedConns, RoomModel.PruneAt;
    ghost var before := room.View();
    hub.SeatingAt();
    ghost var seating := hub.Seating();
    RoomModel.ReservedConn(before, reservedAt, clientID, client);
    RoomModel.ReservationIsGood(before, reservedAt, clientID, client, now, conn);
    joined := false;
    var completed, err := hub.Reserve(room, clientID, client, reservedAt);
    SeatedIs(seating, room.id, clientID, conn, false, RoomModel.AttachedConns(room.seats));
    StillSeated(live, seating, room.id, clientID, conn);
    if err == None {
      var attached := AttachTo(hub, room, clientID, conn, now, live);
      joined := attached != null;
    }
  }

  /** What the frame does to the only seated connection. */
  lemma OneSeat(conns: seq<Connection>, ids: seq<string>, frame: Frame, id: string, conn: Connection, c: Core)
    requires SentTo(frame, map[id := conn], conns, ids)
    ensures Offered(c, frame.data, multiset(conns)[conn])
            == if ForOthers(frame, id) then c else Offer(c, Plain(frame.data))
  {
    hide Offer, Plain;
    if ForOthers(frame, id) {
      assert conns == [];
    } else {
      if Lists(conns, ids, map[id := conn]) {
        OneListed(conns, ids, id, conn);
      }
      assert multiset(conns)[conn] == 1;
      assert Offered(c, frame.data, 1) == Offer(Offered(c, frame.data, 0), Plain(frame.data));
    }
  }

  /** The frame is text for another client than this one. */
  predicate ForOthers(frame: Frame, id: string) {
    frame.kind.Json? && frame.kind.target.Some? && frame.kind.target.value != "" && frame.kind.target.value != id
  }

  lemma ReservesFirst(s: RoomModel.State, now: int, id: string, client: RoomModel.Client)
    requires !s.closed && s.seats == map[]
    ensures RoomModel.ReserveCall(s, now, id, client).1.Reserved?
  {
  }

  /** From an empty hub: a client that joins a device's room in time, and stays while the device's server
      is replaced, is offered each of the new server's frames that is for it, once, and no other. */
  method JoinAndStay(deviceID: string, userID: string, candidates: seq<string>, clientID: string,
                     client: RoomModel.Client, conn: Connection, frame: Frame,
                     openedAt: int, reservedAt: int, joinedAt: int, replacedAt: int)
    requires |candidates| == ROOM_ID_ATTEMPTS && "" !in candidates && conn.Valid()
    requires openedAt <= replacedAt && joinedAt < reservedAt + DEFAULT_ROOM_ADMISSION_TTL
    modifies conn
    ensures conn.Valid()
    ensures conn.View() == if ForOthers(frame, clientID) then old(conn.View())
                           else Offer(old(conn.View()), Plain(frame.data))
  {
    hide DeviceHub.Valid, DeviceHub.Seating, MayAddServer, Lists, HasClients, HasSeated, RoomModel.AttachedConns;
    hide RoomModel.ReserveCall, Offered, Offer, SentTo, ForOthers, Addressees, Connection.Valid, Connection.View;
    var hub, room := OpenRoom(deviceID, userID, candidates, openedAt);
    NobodyYet({conn}, room.id, hub.tab);
    ReservesFirst(room.View(), reservedAt, clientID, client);
    ghost var before := conn.View();
    var joined := Join(hub, room, clientID, client, conn, reservedAt, joinedAt, {conn});
    hub.SeatingAt();
    assert hub.RoomOf(room.deviceID) <= {room};
    var server, conns, ids := RouteAfterReplacement(hub, room.id, userID, frame, replacedAt, {conn});
    OneSeat(conns, ids, frame, clientID, conn, before);
  }
}
