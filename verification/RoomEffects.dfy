/**
 What each call on a room does, read off the seats before and after it. The statements use none of
 RoomModel's functions: they describe those functions from outside.
 */
module RoomEffects {
  import opened Common
  import opened Connections
  import opened RoomModel

  /** A seat that is taken, or reserved beyond now. */
  ghost function Unexpired(seats: map<string, Seat>, now: int): map<string, Seat> {
    map id | id in seats && (seats[id].conn != null || now < seats[id].expiresAt) :: seats[id]
  }

  /** Who is connected. */
  ghost function Connected(seats: map<string, Seat>): map<string, Connection> {
    map id | id in seats && seats[id].conn != null :: seats[id].conn
  }

  lemma PrunedIsUnexpired(s: State, now: int)
    ensures PruneAt(s, now) == State(s.owner, s.ttl, s.closed, Unexpired(s.seats, now))
  {
  }

  lemma ConnectedIsAttached(seats: map<string, Seat>)
    ensures AttachedConns(seats) == Connected(seats)
  {
  }

  /** A reservation gets a seat until its TTL ends, unless the room is closed, the client is admitted already, or
      there are three admissions. A role that is asked for is given; otherwise the owner, and the first client
      of an empty room, become host, and everybody else viewer. Hosts have input. */
  lemma Reserving(s: State, now: int, id: string, client: Client)
    ensures var (t, outcome) := ReserveCall(s, now, id, client);
            var live := Unexpired(s.seats, now);
            var granted := !s.closed && id !in live && |live| < 3;
      && t == s.(seats := t.seats)
      && (outcome == Failed(ErrRoomNotFound) <==> s.closed)
      && (outcome == Failed(ErrClientNotAdmitted) <==> !s.closed && id in live)
      && (outcome == Failed(ErrRoomFull) <==> !s.closed && id !in live && |live| >= 3)
      && (outcome.Reserved? <==> granted)
      && t.seats == (if s.closed then s.seats
                     else if granted then live[id := Seat(outcome.client, null, now + s.ttl)]
                     else live)
      && (granted ==>
            && outcome.client.userID == client.userID
            && outcome.client.role == (if client.role != Unset then client.role
                                       else if (s.owner != "" && client.userID == s.owner) || live == map[] then Host
                                       else Viewer)
            && (outcome.client.inputAllowed <==> outcome.client.role == Host || client.inputAllowed)
            && outcome.client.joinedAt == if client.joinedAt == 0 then now else client.joinedAt)
  {
    PrunedIsUnexpired(s, now);
  }

  /** Attaching gives a live admission's seat to conn and says whom it replaces, if anybody else. */
  lemma Attaching(s: State, now: int, id: string, conn: Connection)
    ensures var (t, outcome) := AttachCall(s, now, id, conn);
            var live := Unexpired(s.seats, now);
      && t == s.(seats := t.seats)
      && (outcome == Failed(ErrRoomNotFound) <==> s.closed)
      && (outcome == Failed(ErrClientNotAdmitted) <==> !s.closed && id !in live)
      && (outcome.Attached? <==> !s.closed && id in live)
      && (s.closed ==> t.seats == s.seats)
      && (!s.closed && id !in live ==> t.seats == live)
      && (!s.closed && id in live ==>
            && t.seats == live[id := Seat(live[id].client, conn, 0)]
            && outcome.client == live[id].client
            && outcome.replaced == if live[id].conn == conn then null else live[id].conn)
  {
    PrunedIsUnexpired(s, now);
  }

  /** Removing detaches exactly the connection that has the seat, and keeps the admission until the TTL ends. */
  lemma Removing(s: State, now: int, id: string, conn: Connection)
    ensures var (t, outcome) := RemoveCall(s, now, id, conn);
            var owns := id in s.seats && s.seats[id].conn == conn;
      && t == s.(seats := t.seats) && outcome == Answer(owns)
      && t.seats == (if owns then s.seats[id := Seat(s.seats[id].client, null, now + s.ttl)] else s.seats)
      && Connected(t.seats) == if owns then Connected(s.seats) - {id} else Connected(s.seats)
  {
  }

  /** Counting and asking see the unexpired admissions; closing stops admission; emptying kicks exactly those
      who are connected. */
  lemma Observing(s: State, now: int, id: string)
    ensures var (t, outcome) := Step(s, HasValidAdmission(now, id));
            t == s.(seats := Unexpired(s.seats, now)) && outcome == Answer(!s.closed && id in Unexpired(s.seats, now))
    ensures var (t, outcome) := Step(s, ClientCount(now));
            t == s.(seats := Unexpired(s.seats, now)) && outcome == Count(|Unexpired(s.seats, now)|)
    ensures Step(s, Prune(now)).0 == s.(seats := Unexpired(s.seats, now))
    ensures Step(s, MarkClosed(now)).0 == s.(closed := true)
    ensures Step(s, CloseAll(now)) == (s.(closed := true, seats := map[]), Kicked(Connected(s.seats)))
  {
    PrunedIsUnexpired(s, now);
    ConnectedIsAttached(s.seats);
  }

  // --- The reconnect window ---

  /** The calls made by or about other clients, and the sweeps. */
  predicate About(op: Op, id: string) {
    (op.Reserve? || op.Attach? || op.Remove?) && op.id == id
  }

  /** id is not attached, and its admission, if it is still there, is the one it was left with. */
  predicate Waits(s: State, id: string, client: Client, deadline: int) {
    !s.closed && (id in s.seats ==> s.seats[id] == Seat(client, null, deadline))
  }

  lemma StepWaits(s: State, op: Op, id: string, client: Client, deadline: int)
    requires Waits(s, id, client, deadline) && !About(op, id) && !Closes(op)
    ensures Waits(Step(s, op).0, id, client, deadline) && Step(s, op).0.ttl == s.ttl
    ensures id in s.seats && TimeOf(op) < deadline ==> id in Step(s, op).0.seats
  {
    PrunedIsUnexpired(s, TimeOf(op));
  }

  lemma {:induction false} RunWaits(s: State, ops: seq<Op>, id: string, client: Client, deadline: int)
    requires Waits(s, id, client, deadline)
    requires forall i :: 0 <= i < |ops| ==> !About(ops[i], id) && !Closes(ops[i])
    ensures Waits(Run(s, ops).0, id, client, deadline)
    ensures id in s.seats && (forall i :: 0 <= i < |ops| ==> TimeOf(ops[i]) < deadline) ==> id in Run(s, ops).0.seats
    decreases |ops|
  {
    if ops != [] {
      StepWaits(s, ops[0], id, client, deadline);
      hide Step, Waits, About;
      RunWaits(Step(s, ops[0]).0, ops[1..], id, client, deadline);
    }
  }

  /** The reconnect window is exact. After its connection is removed at t, a client that nobody acts for in between
      can attach again, as the client it was, iff it does so before t plus the TTL. */
  lemma ReconnectWindow(s: State, t: int, id: string, conn: Connection, ops: seq<Op>, now: int, again: Connection)
    requires !s.closed && id in s.seats && s.seats[id].conn == conn && t <= now
    requires forall i :: 0 <= i < |ops| ==> !About(ops[i], id) && !Closes(ops[i]) && TimeOf(ops[i]) <= now
    ensures var outcome := AttachCall(Run(RemoveCall(s, t, id, conn).0, ops).0, now, id, again).1;
      && (outcome.Attached? <==> now < t + s.ttl)
      && (outcome.Attached? ==> outcome == Attached(s.seats[id].client, null))
  {
    var removed := RemoveCall(s, t, id, conn).0;
    Removing(s, t, id, conn);
    RunWaits(removed, ops, id, s.seats[id].client, t + s.ttl);
    Attaching(Run(removed, ops).0, now, id, again);
    hide Run, RemoveCall, AttachCall;
  }
}
