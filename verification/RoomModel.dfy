/**
 What a room does, on values. An admission is a seat: either attached to a connection, or reserved
 until it expires. Expired seats are removed lazily by whichever call comes next, or by the hub's
 background sweep; the main result is that nobody can tell when.
 */
module RoomModel {
  import opened Common
  import opened Connections

  const MAX_CLIENTS_PER_ROOM: nat := 3

  datatype Role = Unset | Host | Viewer

  /** Identity and role of a client as established by a join. */
  datatype Client = Client(userID: string, role: Role, inputAllowed: bool, joinedAt: int)

  datatype Seat = Seat(client: Client, conn: Connection?, expiresAt: int)

  datatype State = State(owner: string, ttl: int, closed: bool, seats: map<string, Seat>)

  /** Times below are the time.Now() read inside the call. */
  datatype Op =
    | Reserve(now: int, id: string, client: Client)
    | Attach(now: int, id: string, conn: Connection)
    | Remove(now: int, id: string, conn: Connection)
    | HasValidAdmission(now: int, id: string)
    | ClientCount(now: int)
    | MarkClosed(now: int)
    | CloseAll(now: int)
    | Prune(cutoff: int)

  datatype Outcome =
    | Reserved(client: Client)
    | Attached(client: Client, replaced: Connection?)
    | Failed(error: Error)
    | Answer(yes: bool)
    | Count(n: nat)
    | Kicked(conns: map<string, Connection>)
    | Silent

  predicate Live(seat: Seat, now: int) {
    seat.conn != null || seat.expiresAt > now
  }

  function LiveSeats(seats: map<string, Seat>, now: int): map<string, Seat> {
    map id | id in seats && Live(seats[id], now) :: seats[id]
  }

  /** determineRoleLocked. */
  function DetermineRole(owner: string, userID: string, seats: map<string, Seat>): Role {
    if owner != "" && userID == owner then Host
    else if seats == map[] then Host
    else Viewer
  }

  /** The record a reservation stores, and reports back to its caller. */
  function Admitted(owner: string, client: Client, seats: map<string, Seat>, now: int): Client {
    var role := if client.role.Unset? then DetermineRole(owner, client.userID, seats) else client.role;
    Client(client.userID, role, role.Host? || client.inputAllowed,
           if client.joinedAt == ZERO_TIME then now else client.joinedAt)
  }

  function AttachedConns(seats: map<string, Seat>): map<string, Connection> {
    map id | id in seats && seats[id].conn != null :: seats[id].conn
  }

  function ReserveIn(s: State, now: int, id: string, client: Client): (State, Outcome) {
    if id in s.seats then (s, Failed(ErrClientNotAdmitted))
    else if |s.seats| >= MAX_CLIENTS_PER_ROOM then (s, Failed(ErrRoomFull))
    else
      var admitted := Admitted(s.owner, client, s.seats, now);
      (s.(seats := s.seats[id := Seat(admitted, null, now + s.ttl)]), Reserved(admitted))
  }

  function AttachIn(s: State, id: string, conn: Connection): (State, Outcome) {
    if id !in s.seats then (s, Failed(ErrClientNotAdmitted))
    else
      var seat := s.seats[id];
      (s.(seats := s.seats[id := Seat(seat.client, conn, ZERO_TIME)]),
       Attached(seat.client, if seat.conn != conn then seat.conn else null))
  }

  function RemoveCall(s: State, now: int, id: string, conn: Connection): (State, Outcome) {
    if id in s.seats && s.seats[id].conn == conn
    then (s.(seats := s.seats[id := Seat(s.seats[id].client, null, now + s.ttl)]), Answer(true))
    else (s, Answer(false))
  }

  /** One call on a room whose seats have just been pruned at `now` where the source prunes. */
  function Apply(s: State, op: Op): (State, Outcome) {
    match op
    case Reserve(now, id, client) =>
      if s.closed then (s, Failed(ErrRoomNotFound)) else ReserveIn(s, now, id, client)
    case Attach(now, id, conn) =>
      if s.closed then (s, Failed(ErrRoomNotFound)) else AttachIn(s, id, conn)
    case Remove(now, id, conn) => RemoveCall(s, now, id, conn)
    case HasValidAdmission(now, id) => (s, Answer(id in s.seats && !s.closed))
    case ClientCount(now) => (s, Count(|s.seats|))
    case MarkClosed(now) => (s.(closed := true), Silent)
    case CloseAll(now) => (s.(closed := true, seats := map[]), Kicked(AttachedConns(s.seats)))
    case Prune(cutoff) => (s, Silent)
  }

  /** The calls that prune first; a closed room rejects Reserve and Attach before pruning. */
  predicate Prunes(s: State, op: Op) {
    match op
    case Reserve(_, _, _) => !s.closed
    case Attach(_, _, _) => !s.closed
    case HasValidAdmission(_, _) => true
    case ClientCount(_) => true
    case Prune(_) => true
    case _ => false
  }

  function TimeOf(op: Op): int {
    if op.Prune? then op.cutoff else op.now
  }

  function PruneAt(s: State, now: int): State {
    s.(seats := LiveSeats(s.seats, now))
  }

  /** What the code does: prune lazily, then act. */
  function Step(s: State, op: Op): (State, Outcome) {
    Apply(if Prunes(s, op) then PruneAt(s, TimeOf(op)) else s, op)
  }

  /** The calls as the room's methods state them. */
  function ReserveCall(s: State, now: int, id: string, client: Client): (State, Outcome) {
    if s.closed then (s, Failed(ErrRoomNotFound)) else ReserveIn(PruneAt(s, now), now, id, client)
  }

  function AttachCall(s: State, now: int, id: string, conn: Connection): (State, Outcome) {
    if s.closed then (s, Failed(ErrRoomNotFound)) else AttachIn(PruneAt(s, now), id, conn)
  }

  lemma StepIsTheCall(s: State, op: Op)
    ensures op.Reserve? ==> Step(s, op) == ReserveCall(s, op.now, op.id, op.client)
    ensures op.Attach? ==> Step(s, op) == AttachCall(s, op.now, op.id, op.conn)
    ensures op.Remove? ==> Step(s, op) == RemoveCall(s, op.now, op.id, op.conn)
    ensures op.HasValidAdmission? ==>
              Step(s, op) == (PruneAt(s, op.now), Answer(op.id in PruneAt(s, op.now).seats && !s.closed))
    ensures op.ClientCount? ==> Step(s, op) == (PruneAt(s, op.now), Count(|PruneAt(s, op.now).seats|))
    ensures op.MarkClosed? ==> Step(s, op) == (s.(closed := true), Silent)
    ensures op.CloseAll? ==> Step(s, op) == (s.(closed := true, seats := map[]), Kicked(AttachedConns(s.seats)))
    ensures op.Prune? ==> Step(s, op) == (PruneAt(s, op.cutoff), Silent)
  {
  }

  /** Attaching gives id's seat to conn, and neither it nor the pruning before it changes who else is attached. */
  lemma AttachedConn(s: State, now: int, id: string, conn: Connection)
    ensures var (t, outcome) := AttachCall(s, now, id, conn);
            AttachedConns(t.seats)
            == if outcome.Attached? then AttachedConns(s.seats)[id := conn] else AttachedConns(s.seats)
  {
  }

  /** A seat that is left detaches its client and nobody else. */
  lemma DetachedConn(seats: map<string, Seat>, id: string, client: Client, expiresAt: int)
    ensures AttachedConns(seats[id := Seat(client, null, expiresAt)]) == AttachedConns(seats) - {id}
  {
  }

  /** A reservation attaches and detaches nobody. */
  lemma ReservedConn(s: State, now: int, id: string, client: Client)
    ensures AttachedConns(ReserveCall(s, now, id, client).0.seats) == AttachedConns(s.seats)
  {
    KickedAreLive(s.seats, now);
  }

  /** A client that is not seated yet gets a reservation while there is room, and can attach until it expires. */
  lemma ReservationIsGood(s: State, reservedAt: int, id: string, client: Client, now: int, conn: Connection)
    ensures var live := PruneAt(s, reservedAt).seats; var (t, outcome) := ReserveCall(s, reservedAt, id, client);
      && (outcome.Reserved? <==> !s.closed && id !in live && |live| < MAX_CLIENTS_PER_ROOM)
      && (outcome.Reserved? ==>
            && id in t.seats && t.seats[id].conn == null
            && (AttachCall(t, now, id, conn).1.Attached? <==> now < reservedAt + s.ttl))
  {
    hide Admitted;
  }

  /** The specification: seats are never pruned, dead ones are just not looked at. */
  function SpecStep(s: State, op: Op): (State, Outcome)
    requires !op.Prune?
  {
    var (t, outcome) := Apply(PruneAt(s, op.now), op);
    (if op.CloseAll? then t else t.(seats := s.seats + t.seats), outcome)
  }

  /** Final state and the outcomes the callers see; the background sweep has no caller. */
  function Run(s: State, ops: seq<Op>): (State, seq<Outcome>)
    decreases |ops|
  {
    if ops == [] then (s, [])
    else
      var (t, outcome) := Step(s, ops[0]);
      var (u, rest) := Run(t, ops[1..]);
      (u, if ops[0].Prune? then rest else [outcome] + rest)
  }

  function SpecRun(s: State, calls: seq<Op>): seq<Outcome>
    requires forall i :: 0 <= i < |calls| ==> !calls[i].Prune?
    decreases |calls|
  {
    if calls == [] then []
    else
      var (t, outcome) := SpecStep(s, calls[0]);
      [outcome] + SpecRun(t, calls[1..])
  }

  /** The same run without the background sweeps. */
  function Calls(ops: seq<Op>): (calls: seq<Op>)
    ensures forall i :: 0 <= i < |calls| ==> !calls[i].Prune?
    decreases |ops|
  {
    if ops == [] then []
    else if ops[0].Prune? then Calls(ops[1..])
    else [ops[0]] + Calls(ops[1..])
  }

  function Max(a: int, b: int): int {
    if a >= b then a else b
  }

  /** Calls happen in clock order. A sweep reads its clock before it takes the room lock, so its
      cutoff may lag behind earlier calls; it is never ahead of a later one. */
  predicate Timely(clock: int, ops: seq<Op>)
    decreases |ops|
  {
    ops == [] ||
    if ops[0].Prune? then Timely(Max(clock, ops[0].cutoff), ops[1..])
    else clock <= ops[0].now && Timely(ops[0].now, ops[1..])
  }

  /** A prune loop that still has to visit `todo` has reached `seats` from `start`. */
  predicate PrunedSoFar(start: map<string, Seat>, seats: map<string, Seat>, todo: set<string>, now: int) {
    && (forall id :: id in seats ==> id in start && seats[id] == start[id])
    && (forall id :: id in start ==> (id in seats <==> id in todo || Live(start[id], now)))
  }

  lemma PruneVisit(start: map<string, Seat>, seats: map<string, Seat>, todo: set<string>, now: int, id: string)
    requires PrunedSoFar(start, seats, todo, now) && id in todo && id in seats
    ensures Live(seats[id], now) ==> PrunedSoFar(start, seats, todo - {id}, now)
    ensures !Live(seats[id], now) ==> PrunedSoFar(start, seats - {id}, todo - {id}, now)
    ensures |seats - {id}| == |seats| - 1
  {
    assert (seats - {id}).Keys == seats.Keys - {id};
    assert |(seats - {id}).Keys| == |seats - {id}| && |seats.Keys| == |seats|;
  }

  lemma PruneDone(start: map<string, Seat>, seats: map<string, Seat>, now: int)
    requires PrunedSoFar(start, seats, {}, now)
    ensures seats == LiveSeats(start, now)
  {
  }

  // --- A sweep of many rooms ---

  type Seats = map<string, Seat>

  /** Who is admitted where, over all rooms. */
  ghost function Admissions(all: map<string, Seats>): set<(string, string)> {
    set id, k | id in all && k in all[id] :: (id, k)
  }

  /** The rooms in todo have not been pruned yet. */
  ghost function Swept(all: map<string, Seats>, todo: set<string>, now: int): map<string, Seats> {
    map id | id in all :: if id in todo then all[id] else LiveSeats(all[id], now)
  }

  ghost function Tagged(id: string, ks: set<string>): set<(string, string)> {
    set k | k in ks :: (id, k)
  }

  lemma {:induction false} TaggedSize(id: string, ks: set<string>)
    ensures |Tagged(id, ks)| == |ks|
    decreases |ks|
  {
    if ks != {} {
      var k :| k in ks;
      TaggedSize(id, ks - {k});
      assert Tagged(id, ks) == Tagged(id, ks - {k}) + {(id, k)};
    } else {
      assert Tagged(id, ks) == {};
    }
  }

  lemma AdmissionsSplit(all: map<string, Seats>, id: string, seats: Seats)
    requires id in all && seats.Keys <= all[id].Keys
    ensures Admissions(all) == Admissions(all[id := seats]) + Tagged(id, all[id].Keys - seats.Keys)
    ensures Admissions(all[id := seats]) !! Tagged(id, all[id].Keys - seats.Keys)
  {
    var fewer := all[id := seats];
    forall p: (string, string)
      ensures p in Admissions(all) <==> p in Admissions(fewer) || p in Tagged(id, all[id].Keys - seats.Keys)
    {
      assert p == (p.0, p.1);
    }
  }

  lemma FewerAdmissions(all: map<string, Seats>, id: string, seats: Seats)
    requires id in all && seats.Keys <= all[id].Keys
    ensures |Admissions(all)| - |Admissions(all[id := seats])| == |all[id]| - |seats|
  {
    hide Admissions, Tagged;
    var gone := all[id].Keys - seats.Keys;
    AdmissionsSplit(all, id, seats);
    TaggedSize(id, gone);
    assert all[id].Keys == gone + seats.Keys;
    assert |all[id].Keys| == |all[id]| && |seats.Keys| == |seats|;
  }

  lemma SweepOne(all: map<string, Seats>, todo: set<string>, now: int, id: string)
    requires id in todo && todo <= all.Keys
    ensures |Admissions(Swept(all, todo, now))| - |Admissions(Swept(all, todo - {id}, now))|
            == |all[id]| - |LiveSeats(all[id], now)|
  {
    hide Admissions;
    FewerAdmissions(Swept(all, todo, now), id, LiveSeats(all[id], now));
    assert Swept(all, todo, now)[id := LiveSeats(all[id], now)] == Swept(all, todo - {id}, now);
  }

  lemma SweptAll(all: map<string, Seats>, now: int)
    ensures Swept(all, all.Keys, now) == all
    ensures Swept(all, {}, now) == map id | id in all :: LiveSeats(all[id], now)
  {
  }

  // --- Lazy pruning is invisible ---

  /** impl lacks only seats that are dead at `now`. */
  predicate Refines(impl: State, spec: State, now: int) {
    && impl.owner == spec.owner && impl.ttl == spec.ttl && impl.closed == spec.closed
    && LiveSeats(impl.seats, now) == LiveSeats(spec.seats, now)
  }

  lemma RefinesLater(impl: State, spec: State, now: int, later: int)
    requires Refines(impl, spec, now) && now <= later
    ensures Refines(impl, spec, later)
  {
    forall id ensures id in LiveSeats(impl.seats, later) <==> id in LiveSeats(spec.seats, later) {
      assert id in LiveSeats(impl.seats, now) <==> id in LiveSeats(spec.seats, now);
    }
    forall id | id in LiveSeats(impl.seats, later)
      ensures LiveSeats(impl.seats, later)[id] == LiveSeats(spec.seats, later)[id]
    {
      assert LiveSeats(impl.seats, now)[id] == LiveSeats(spec.seats, now)[id];
    }
  }

  lemma PruneRefines(impl: State, spec: State, clock: int, cutoff: int)
    requires Refines(impl, spec, clock)
    ensures Refines(PruneAt(impl, cutoff), spec, Max(clock, cutoff))
  {
    var later := Max(clock, cutoff);
    RefinesLater(impl, spec, clock, later);
    assert LiveSeats(LiveSeats(impl.seats, cutoff), later) == LiveSeats(impl.seats, later);
  }

  lemma LiveTwice(seats: map<string, Seat>, now: int)
    ensures LiveSeats(LiveSeats(seats, now), now) == LiveSeats(seats, now)
  {
  }

  lemma UpdateRefines(impl: map<string, Seat>, spec: map<string, Seat>, now: int, id: string, seat: Seat)
    requires LiveSeats(impl, now) == LiveSeats(spec, now)
    ensures LiveSeats(impl[id := seat], now) == LiveSeats(spec + LiveSeats(spec, now)[id := seat], now)
  {
    var u, v := impl[id := seat], spec + LiveSeats(spec, now)[id := seat];
    forall k ensures k in LiveSeats(u, now) <==> k in LiveSeats(v, now) {
      assert k in LiveSeats(impl, now) <==> k in LiveSeats(spec, now);
    }
    forall k | k in LiveSeats(u, now) ensures LiveSeats(u, now)[k] == LiveSeats(v, now)[k] {
      if k != id {
        assert LiveSeats(impl, now)[k] == LiveSeats(spec, now)[k];
      }
    }
  }

  lemma UnchangedRefines(spec: map<string, Seat>, now: int)
    ensures LiveSeats(spec + LiveSeats(spec, now), now) == LiveSeats(spec, now)
  {
    assert spec + LiveSeats(spec, now) == spec;
  }

  lemma RemoveSeesTheSame(impl: map<string, Seat>, spec: map<string, Seat>, now: int, id: string, conn: Connection)
    requires LiveSeats(impl, now) == LiveSeats(spec, now)
    ensures (id in impl && impl[id].conn == conn)
       <==> (id in LiveSeats(spec, now) && LiveSeats(spec, now)[id].conn == conn)
    ensures id in impl && impl[id].conn == conn ==> impl[id] == LiveSeats(spec, now)[id]
  {
    assert id in LiveSeats(impl, now) <==> id in LiveSeats(spec, now);
  }

  /** The calls that prune first act on the very state the specification acts on. */
  lemma PruningCallRefines(impl: State, spec: State, op: Op)
    requires op.Reserve? || op.Attach? || op.HasValidAdmission? || op.ClientCount?
    requires Refines(impl, spec, op.now) && Prunes(impl, op)
    ensures Step(impl, op).1 == SpecStep(spec, op).1
    ensures Refines(Step(impl, op).0, SpecStep(spec, op).0, op.now)
  {
    var same := PruneAt(spec, op.now);
    assert PruneAt(impl, op.now) == same;
    LiveTwice(spec.seats, op.now);
    UnchangedRefines(spec.seats, op.now);
    var t := Apply(same, op).0;
    if t != same {
      UpdateRefines(same.seats, spec.seats, op.now, op.id, t.seats[op.id]);
      assert t.seats == same.seats[op.id := t.seats[op.id]];
    }
  }

  lemma RemoveRefines(impl: State, spec: State, op: Op)
    requires op.Remove? && Refines(impl, spec, op.now)
    ensures Step(impl, op).1 == SpecStep(spec, op).1
    ensures Refines(Step(impl, op).0, SpecStep(spec, op).0, op.now)
  {
    hide LiveSeats;
    var live := LiveSeats(spec.seats, op.now);
    RemoveSeesTheSame(impl.seats, spec.seats, op.now, op.id, op.conn);
    UnchangedRefines(spec.seats, op.now);
    if op.id in live && live[op.id].conn == op.conn {
      UpdateRefines(impl.seats, spec.seats, op.now, op.id, Seat(live[op.id].client, null, op.now + spec.ttl));
    }
  }

  lemma CloseRefines(impl: State, spec: State, op: Op)
    requires (op.MarkClosed? || op.CloseAll?) && Refines(impl, spec, op.now)
    ensures Step(impl, op).1 == SpecStep(spec, op).1
    ensures Refines(Step(impl, op).0, SpecStep(spec, op).0, op.now)
  {
    KickedAreLive(impl.seats, op.now);
    KickedAreLive(spec.seats, op.now);
    UnchangedRefines(spec.seats, op.now);
  }

  lemma RejectedCallRefines(impl: State, spec: State, op: Op)
    requires (op.Reserve? || op.Attach?) && impl.closed && Refines(impl, spec, op.now)
    ensures Step(impl, op).1 == SpecStep(spec, op).1
    ensures Refines(Step(impl, op).0, SpecStep(spec, op).0, op.now)
  {
    UnchangedRefines(spec.seats, op.now);
  }

  lemma ApplyRefines(impl: State, spec: State, op: Op)
    requires !op.Prune? && Refines(impl, spec, op.now)
    ensures Step(impl, op).1 == SpecStep(spec, op).1
    ensures Refines(Step(impl, op).0, SpecStep(spec, op).0, op.now)
  {
    if op.Remove? {
      RemoveRefines(impl, spec, op);
    } else if op.MarkClosed? || op.CloseAll? {
      CloseRefines(impl, spec, op);
    } else if Prunes(impl, op) {
      PruningCallRefines(impl, spec, op);
    } else {
      RejectedCallRefines(impl, spec, op);
    }
  }

  lemma KickedAreLive(seats: map<string, Seat>, now: int)
    ensures AttachedConns(seats) == AttachedConns(LiveSeats(seats, now))
  {
  }

  /** For every run and every placement of sweeps, callers see what the never-pruning specification gives. */
  lemma {:induction false} PruningRefinesSpec(impl: State, spec: State, clock: int, ops: seq<Op>)
    requires Refines(impl, spec, clock) && Timely(clock, ops)
    ensures Run(impl, ops).1 == SpecRun(spec, Calls(ops))
    decreases |ops|
  {
    if ops != [] {
      var op := ops[0];
      if op.Prune? {
        PruneRefines(impl, spec, clock, op.cutoff);
        PruningRefinesSpec(Step(impl, op).0, spec, Max(clock, op.cutoff), ops[1..]);
      } else {
        RefinesLater(impl, spec, clock, op.now);
        ApplyRefines(impl, spec, op);
        PruningRefinesSpec(Step(impl, op).0, SpecStep(spec, op).0, op.now, ops[1..]);
      }
    }
  }

  lemma {:induction false} CallsOfCalls(clock: int, ops: seq<Op>)
    requires Timely(clock, ops)
    ensures Calls(Calls(ops)) == Calls(ops)
    ensures forall earlier :: earlier <= clock ==> Timely(earlier, Calls(ops))
    decreases |ops|
  {
    if ops != [] {
      var rest := Calls(ops[1..]);
      if ops[0].Prune? {
        CallsOfCalls(Max(clock, ops[0].cutoff), ops[1..]);
      } else {
        CallsOfCalls(ops[0].now, ops[1..]);
        assert ([ops[0]] + rest)[1..] == rest;
      }
    }
  }

  /** Background sweeps change no outcome of any call, wherever they are placed. */
  lemma SweepsAreInvisible(s: State, clock: int, ops: seq<Op>)
    requires Timely(clock, ops)
    ensures Run(s, ops).1 == Run(s, Calls(ops)).1
  {
    PruningRefinesSpec(s, s, clock, ops);
    CallsOfCalls(clock, ops);
    PruningRefinesSpec(s, s, clock, Calls(ops));
  }

  // --- What every run keeps ---

  predicate IsOwner(s: State, client: Client) {
    s.owner != "" && client.userID == s.owner
  }

  predicate SeatsOk(seats: map<string, Seat>) {
    && |seats| <= MAX_CLIENTS_PER_ROOM
    && forall id :: id in seats ==> (seats[id].client.role.Host? ==> seats[id].client.inputAllowed)
                                    && !seats[id].client.role.Unset?
  }

  predicate Inv(s: State) {
    SeatsOk(s.seats)
  }

  predicate GuestHost(s: State, id: string)
    requires id in s.seats
  {
    s.seats[id].client.role.Host? && !IsOwner(s, s.seats[id].client)
  }

  /** At most one host besides the room's owner. */
  predicate OneGuestHost(s: State) {
    forall a, b | a in s.seats && b in s.seats && GuestHost(s, a) && GuestHost(s, b) :: a == b
  }

  lemma SubmapSize<T>(m: map<string, T>, n: map<string, T>)
    requires m.Keys <= n.Keys
    ensures |m| <= |n|
  {
    assert n.Keys == m.Keys + (n.Keys - m.Keys);
    assert |m.Keys| == |m| && |n.Keys| == |n|;
  }

  lemma UpdateSize(seats: map<string, Seat>, id: string, seat: Seat)
    ensures |seats[id := seat]| == |seats| + (if id in seats then 0 else 1)
  {
    assert seats[id := seat].Keys == seats.Keys + {id};
    assert |seats[id := seat].Keys| == |seats[id := seat]| && |seats.Keys| == |seats|;
  }

  lemma ApplyKeepsInv(s: State, op: Op)
    requires Inv(s)
    ensures Inv(Apply(s, op).0)
  {
    if (op.Reserve? || op.Attach? || op.Remove?) && op.id in Apply(s, op).0.seats {
      UpdateSize(s.seats, op.id, Apply(s, op).0.seats[op.id]);
    }
  }

  lemma StepKeepsInv(s: State, op: Op)
    requires Inv(s)
    ensures Inv(Step(s, op).0)
  {
    var pruned := PruneAt(s, TimeOf(op));
    SubmapSize(pruned.seats, s.seats);
    ApplyKeepsInv(if Prunes(s, op) then pruned else s, op);
  }

  /** The calls that seat, move or unseat somebody, as the room's methods state them. */
  lemma CallKeepsInv(s: State, op: Op)
    requires Inv(s)
    ensures op.Reserve? ==> Inv(ReserveCall(s, op.now, op.id, op.client).0)
    ensures op.Attach? ==> Inv(AttachCall(s, op.now, op.id, op.conn).0)
    ensures op.Remove? ==> Inv(RemoveCall(s, op.now, op.id, op.conn).0)
    ensures op.Prune? ==> Inv(PruneAt(s, op.cutoff))
  {
    hide Inv, Step, ReserveCall, AttachCall, RemoveCall, PruneAt;
    StepKeepsInv(s, op);
    StepIsTheCall(s, op);
  }

  lemma PruneKeepsOneGuestHost(s: State, now: int)
    requires OneGuestHost(s)
    ensures OneGuestHost(PruneAt(s, now))
  {
    assert forall id | id in PruneAt(s, now).seats && GuestHost(PruneAt(s, now), id) :: GuestHost(s, id);
  }

  lemma ReserveKeepsOneGuestHost(s: State, now: int, id: string, client: Client)
    requires OneGuestHost(s) && client.role.Unset?
    ensures OneGuestHost(ReserveIn(s, now, id, client).0)
  {
    var t := ReserveIn(s, now, id, client).0;
    assert forall k | k in t.seats && k in s.seats && GuestHost(t, k) :: GuestHost(s, k);
  }

  /** A seat whose client stays the same stays what it was. */
  lemma SameClientsKeepOneGuestHost(s: State, t: State)
    requires OneGuestHost(s) && t.owner == s.owner
    requires forall k :: k in t.seats ==> k in s.seats && t.seats[k].client == s.seats[k].client
    ensures OneGuestHost(t)
  {
    assert forall k | k in t.seats && GuestHost(t, k) :: GuestHost(s, k);
  }

  lemma ApplyKeepsOneGuestHost(s: State, op: Op)
    requires OneGuestHost(s) && (op.Reserve? ==> op.client.role.Unset?)
    ensures OneGuestHost(Apply(s, op).0)
  {
    hide OneGuestHost, ReserveIn;
    if op.Reserve? && !s.closed {
      ReserveKeepsOneGuestHost(s, op.now, op.id, op.client);
    } else {
      SameClientsKeepOneGuestHost(s, Apply(s, op).0);
    }
  }

  /** Holds of every run whose reservations leave the role to the room, as Join does. */
  lemma StepKeepsOneGuestHost(s: State, op: Op)
    requires OneGuestHost(s)
    requires op.Reserve? ==> op.client.role.Unset?
    ensures OneGuestHost(Step(s, op).0)
  {
    hide OneGuestHost, Apply;
    PruneKeepsOneGuestHost(s, TimeOf(op));
    ApplyKeepsOneGuestHost(if Prunes(s, op) then PruneAt(s, TimeOf(op)) else s, op);
  }

  /** Every room, from its creation on, holds at most three seats, gives each host input, and has at
      most one host besides the owner; a guest room has no owner, so it has at most one host. */
  lemma {:induction false} RoomRunSafe(s: State, ops: seq<Op>)
    requires Inv(s) && OneGuestHost(s)
    requires forall i :: 0 <= i < |ops| && ops[i].Reserve? ==> ops[i].client.role.Unset?
    ensures Inv(Run(s, ops).0) && OneGuestHost(Run(s, ops).0)
    decreases |ops|
  {
    if ops != [] {
      StepKeepsInv(s, ops[0]);
      StepKeepsOneGuestHost(s, ops[0]);
      RoomRunSafe(Step(s, ops[0]).0, ops[1..]);
    }
  }

  /** A closed room never admits or attaches anybody again, and once emptied stays empty. */
  lemma {:induction false} ClosedForGood(s: State, ops: seq<Op>)
    requires s.closed
    ensures Run(s, ops).0.closed
    ensures s.seats == map[] ==> Run(s, ops).0.seats == map[]
    ensures forall i :: 0 <= i < |Run(s, ops).1| ==>
              !Run(s, ops).1[i].Reserved? && !Run(s, ops).1[i].Attached?
    decreases |ops|
  {
    if ops != [] {
      ClosedForGood(Step(s, ops[0]).0, ops[1..]);
    }
  }

  // --- Reconnecting ---

  predicate Closes(op: Op) {
    op.MarkClosed? || op.CloseAll?
  }

  /** id may attach at any time before `until`, as the client it was admitted as. */
  predicate Holds(s: State, id: string, client: Client, until: int) {
    && !s.closed && id in s.seats
    && s.seats[id].client == client
    && (s.seats[id].conn == null ==> s.seats[id].expiresAt >= until)
  }

  lemma {:induction false} RunHolds(s: State, id: string, client: Client, from: int, ops: seq<Op>)
    requires Holds(s, id, client, from + s.ttl)
    requires forall i :: 0 <= i < |ops| ==>
               !Closes(ops[i]) && TimeOf(ops[i]) < from + s.ttl && (ops[i].Prune? || from <= ops[i].now)
    ensures Holds(Run(s, ops).0, id, client, from + s.ttl)
    decreases |ops|
  {
    if ops != [] {
      assert !Closes(ops[0]);
      RunHolds(Step(s, ops[0]).0, id, client, from, ops[1..]);
    }
  }

  /** After its connection drops at `t`, a client can re-attach at any time before t + ttl, whatever
      anyone does meanwhile short of closing the room, and comes back exactly as it was admitted. */
  lemma ReconnectGuarantee(s: State, t: int, id: string, conn: Connection, ops: seq<Op>, now: int, fresh': Connection)
    requires !s.closed && id in s.seats && s.seats[id].conn == conn
    requires forall i :: 0 <= i < |ops| ==>
               !Closes(ops[i]) && TimeOf(ops[i]) <= now && (ops[i].Prune? || t <= ops[i].now)
    requires t <= now < t + s.ttl
    ensures var dropped := RemoveCall(s, t, id, conn).0;
            var outcome := AttachCall(Run(dropped, ops).0, now, id, fresh').1;
            outcome.Attached? && outcome.client == s.seats[id].client
  {
    var dropped := RemoveCall(s, t, id, conn).0;
    assert forall i :: 0 <= i < |ops| ==> TimeOf(ops[i]) < t + s.ttl;
    RunHolds(dropped, id, s.seats[id].client, t, ops);
  }

  /** A superseded connection cannot detach its replacement: as long as nobody attaches as id, and
      every Remove for id comes from another connection, the seat does not change. */
  lemma {:induction false} ReplacementStaysAttached(s: State, id: string, conn: Connection, ops: seq<Op>)
    requires id in s.seats && s.seats[id].conn == conn
    requires forall i :: 0 <= i < |ops| ==>
               && !ops[i].CloseAll?
               && (ops[i].Attach? ==> ops[i].id != id)
               && (ops[i].Remove? ==> ops[i].id != id || ops[i].conn != conn)
    ensures id in Run(s, ops).0.seats && Run(s, ops).0.seats[id] == s.seats[id]
    decreases |ops|
  {
    if ops != [] {
      assert !ops[0].CloseAll?;
      ReplacementStaysAttached(Step(s, ops[0]).0, id, conn, ops[1..]);
    }
  }
}
