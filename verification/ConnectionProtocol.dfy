/**
 Any number of Send, SendAndClose and Close callers interleaved with one writer pump. A step is one
 critical section of a caller, one action of the pump, or one rendezvous. The socket close that
 follows the close decision is a step of its own, during which the mutex stays held but the pump
 may still write.
 */
module ConnectionProtocol {
  import opened Common
  import opened Connections

  datatype Wire = Wrote(m: Message) | SocketClosed

  /** Program counter of WritePump. Closing is finishClose between its two actions. */
  datatype Pump =
    | Selecting
    | Writing(m: Message)
    | Replying(m: Message, ok: bool)
    | Finishing
    | Closing
    | Exited

  datatype Lock = Free | HeldByCaller | HeldByPump

  datatype Caller = Waiting | Returned(ok: bool)

  /** accepted is every frame ever enqueued, wire everything the socket saw, lost the frame whose
      write failed, callers the SendAndClose calls so far. */
  datatype Sys = Sys(core: Core, lock: Lock, pump: Pump, accepted: seq<Message>, lost: seq<Message>,
                     wire: seq<Wire>, callers: map<nat, Caller>)

  datatype Step =
    | Send(data: string)
    | SendAndClose(caller: nat, data: string)
    | Close
    | CloseSocket
    | PumpTake
    | PumpSeesDone
    | PumpWrite(ok: bool)
    | Rendezvous
    | PumpFinish
    | CallerSeesDone(caller: nat)

  const START := Sys(Core([], false, false, false), Free, Selecting, [], [], [], map[])

  predicate Enabled(s: Sys, step: Step) {
    match step
    case Send(_) => s.lock.Free?
    case SendAndClose(caller, _) => s.lock.Free? && caller !in s.callers
    case Close => s.lock.Free?
    case CloseSocket => !s.lock.Free?
    case PumpTake => s.pump.Selecting? && s.core.queue != []
    case PumpSeesDone => s.pump.Selecting? && s.core.closed
    case PumpWrite(ok) => s.pump.Writing? && (ok ==> !s.core.socketClosed)
    case Rendezvous =>
      && s.pump.Replying? && s.pump.m.reply.Some?
      && s.pump.m.reply.value in s.callers && s.callers[s.pump.m.reply.value].Waiting?
    case PumpFinish => s.pump.Finishing? && s.lock.Free?
    case CallerSeesDone(caller) => caller in s.callers && s.callers[caller].Waiting? && s.core.closed
  }

  function Next(s: Sys, step: Step): Sys
    requires Enabled(s, step)
  {
    match step
    case Send(data) =>
      (match Admit(s.core)
       case Rejected => s
       case Accepted => s.(core := Enqueue(s.core, Plain(data)), accepted := s.accepted + [Plain(data)])
       case Overflow => s.(core := CloseDecision(s.core), lock := HeldByCaller))
    case SendAndClose(caller, data) =>
      (match Admit(s.core)
       case Rejected => s.(callers := s.callers[caller := Returned(false)])
       case Accepted => s.(core := Enqueue(s.core, Final(data, caller)),
                           accepted := s.accepted + [Final(data, caller)],
                           callers := s.callers[caller := Waiting])
       case Overflow => s.(core := CloseDecision(s.core), lock := HeldByCaller,
                           callers := s.callers[caller := Returned(false)]))
    case Close =>
      if s.core.closed || s.core.graceful then s
      else s.(core := CloseDecision(s.core), lock := HeldByCaller)
    case CloseSocket =>
      s.(core := ShutSocket(s.core), wire := s.wire + [SocketClosed], lock := Free,
         pump := if s.lock.HeldByPump? then Exited else s.pump)
    case PumpTake =>
      s.(pump := Writing(s.core.queue[0]), core := AfterTake(s.core))
    case PumpSeesDone => s.(pump := Finishing)
    case PumpWrite(ok) =>
      var m := s.pump.m;
      if ok then
        s.(wire := s.wire + [Wrote(m)],
           pump := if m.reply.Some? then Replying(m, true) else if m.closeAfter then Finishing else Selecting)
      else
        s.(lost := s.lost + [m], pump := if m.reply.Some? then Replying(m, false) else Finishing)
    case Rendezvous =>
      s.(callers := s.callers[s.pump.m.reply.value := Returned(s.pump.ok)],
         pump := if s.pump.ok && !s.pump.m.closeAfter then Selecting else Finishing)
    case PumpFinish =>
      if s.core.closed then s.(pump := Exited)
      else s.(core := CloseDecision(s.core), lock := HeldByPump, pump := Closing)
    case CallerSeesDone(caller) => s.(callers := s.callers[caller := Returned(false)])
  }

  /** The end of the critical section in s: one that took the close decision closes the socket first. */
  function Settled(s: Sys): Sys {
    if s.lock.Free? then s else Next(s, CloseSocket)
  }

  /** Each call of a Connection object does to it what its step, settled, does to the protocol's core. */
  lemma CallsAreSteps(s: Sys, caller: nat, data: string)
    requires SocketCoherent(s) && s.lock.Free?
    ensures Settled(Next(s, Send(data))).core == Offer(s.core, Plain(data))
    ensures caller !in s.callers ==>
              var t := Settled(Next(s, SendAndClose(caller, data)));
              && t.core == Offer(s.core, Final(data, caller))
              && t.callers[caller] == if Admit(s.core).Accepted? then Waiting else Returned(false)
    ensures Settled(Next(s, Close)).core == AfterClose(s.core)
    ensures Enabled(s, PumpTake) ==>
              && Settled(Next(s, PumpTake)).core == AfterTake(s.core)
              && Next(s, PumpTake).pump == Writing(s.core.queue[0])
    ensures Enabled(s, PumpFinish) ==>
              var t := Settled(Next(s, PumpFinish));
              t.core == ShutSocket(CloseDecision(s.core)) && t.pump.Exited?
  {
  }

  /** The frames written, in order. */
  function Frames(wire: seq<Wire>): seq<Message> {
    if wire == [] then []
    else Frames(wire[..|wire| - 1]) +
         (match wire[|wire| - 1] case Wrote(m) => [m] case SocketClosed => [])
  }

  function InFlight(p: Pump): seq<Message> {
    if p.Writing? then [p.m] else []
  }

  // --- What every step keeps ---

  /** No accepted frame is duplicated, reordered or silently dropped. */
  predicate Conserved(s: Sys) {
    && s.accepted == Frames(s.wire) + s.lost + InFlight(s.pump) + s.core.queue
    && |s.lost| <= 1
    && (s.lost != [] ==>
          s.pump.Finishing? || s.pump.Closing? || s.pump.Exited? || (s.pump.Replying? && !s.pump.ok))
  }

  predicate SocketCoherent(s: Sys) {
    && |s.core.queue| <= SEND_BUFFER
    && (s.core.closed <==> s.core.socketClosed || !s.lock.Free?)
    && (s.core.socketClosed ==> s.lock.Free?)
    && (s.lock.HeldByPump? <==> s.pump.Closing?)
    && (s.pump.Exited? ==> s.core.closed && s.lock.Free?)
    && (forall i :: 0 <= i < |s.wire| ==> (s.wire[i].SocketClosed? <==> s.core.socketClosed && i == |s.wire| - 1))
    && (s.core.socketClosed ==> s.wire != [])
  }

  /** At most one final frame is ever admitted, it is the last frame, and only its caller waits. */
  predicate OneFinal(s: Sys) {
    && (forall i :: 0 <= i < |s.accepted| ==>
          (s.accepted[i].reply.Some? <==> s.core.graceful && i == |s.accepted| - 1))
    && (forall i :: 0 <= i < |s.accepted| ==> s.accepted[i].closeAfter == s.accepted[i].reply.Some?)
    && (s.core.graceful ==> s.accepted != [] && Last(s.accepted).reply.value in s.callers)
    && (forall c :: c in s.callers && s.callers[c] != Returned(false) ==>
          s.core.graceful && Last(s.accepted).reply == Some(c))
  }

  function Last(q: seq<Message>): Message
    requires q != []
  {
    q[|q| - 1]
  }

  /** While a graceful close is pending only the pump may close done, and when the pump offers a
      result its caller is there to take it. */
  predicate ReplyMeetsCaller(s: Sys) {
    && (s.core.graceful && s.core.closed ==> s.pump.Closing? || s.pump.Exited?)
    && (s.core.graceful && (s.pump.Selecting? || s.pump.Writing? || s.pump.Replying?) && s.accepted != [] ==>
          var c := Last(s.accepted).reply;
          c.Some? && c.value in s.callers && s.callers[c.value].Waiting?)
    && (s.core.graceful && s.pump.Selecting? ==> s.core.queue != [])
    && (s.pump.Replying? ==>
          && !s.core.closed && s.core.graceful && s.core.queue == [] && s.accepted != []
          && s.pump.m == Last(s.accepted)
          && (s.pump.ok <==> s.lost == []))
    && (forall c :: c in s.callers && s.callers[c] == Returned(true) ==>
          && Frames(s.wire) == s.accepted
          && (s.pump.Finishing? || s.pump.Closing? || s.pump.Exited?))
  }

  /** While no write has failed, the pump stops only because done is closed or the final frame is out. */
  predicate OnlyErrorsFail(s: Sys) {
    s.lost == [] ==>
      && (!s.core.graceful && s.pump.Finishing? ==> s.core.closed)
      && (s.core.graceful && s.accepted != [] && Last(s.accepted).reply.Some? &&
          (s.pump.Finishing? || s.pump.Closing? || s.pump.Exited?) ==>
            var c := Last(s.accepted).reply.value;
            c in s.callers && s.callers[c] == Returned(true))
  }

  predicate Inv(s: Sys) {
    && Conserved(s) && SocketCoherent(s) && OneFinal(s) && ReplyMeetsCaller(s) && OnlyErrorsFail(s)
  }

  lemma FramesAppend(wire: seq<Wire>, w: Wire)
    ensures Frames(wire + [w]) == Frames(wire) + (match w case Wrote(m) => [m] case SocketClosed => [])
  {
    assert (wire + [w])[..|wire|] == wire;
  }

  /** The frame being written sits right after the frames already written. */
  lemma InFlightPosition(s: Sys)
    requires Conserved(s) && OneFinal(s) && s.pump.Writing?
    ensures s.lost == []
    ensures s.accepted == Frames(s.wire) + [s.pump.m] + s.core.queue
    ensures s.pump.m.closeAfter == s.pump.m.reply.Some?
    ensures s.pump.m.reply.Some? <==> s.core.graceful && s.core.queue == []
    ensures s.pump.m.reply.Some? ==> s.accepted != [] && s.pump.m == Last(s.accepted)
  {
    assert s.accepted[|Frames(s.wire)|] == s.pump.m;
  }

  lemma EnqueueKeepsConserved(s: Sys, m: Message)
    requires Conserved(s)
    ensures Conserved(s.(core := Enqueue(s.core, m), accepted := s.accepted + [m]))
  {
    var before := Frames(s.wire) + s.lost + InFlight(s.pump);
    assert (before + s.core.queue) + [m] == before + (s.core.queue + [m]);
  }

  lemma TakeKeepsConserved(s: Sys)
    requires Conserved(s) && Enabled(s, PumpTake)
    ensures Conserved(Next(s, PumpTake))
  {
    var queue := s.core.queue;
    assert queue == [queue[0]] + queue[1..];
    assert Frames(s.wire) + s.lost + [] + queue == Frames(s.wire) + s.lost + [queue[0]] + queue[1..];
  }

  lemma EmptyParts(front: seq<Message>, rear: seq<Message>)
    ensures front + [] + rear == front + rear
  {
  }

  lemma WriteKeepsConserved(s: Sys, ok: bool)
    requires Conserved(s) && OneFinal(s) && Enabled(s, PumpWrite(ok))
    ensures Conserved(Next(s, PumpWrite(ok)))
  {
    InFlightPosition(s);
    FramesAppend(s.wire, Wrote(s.pump.m));
    hide Frames, OneFinal;
    var t := Next(s, PumpWrite(ok));
    EmptyParts(Frames(t.wire), t.lost);
    EmptyParts(Frames(t.wire) + t.lost, t.core.queue);
    assert InFlight(t.pump) == [];
    assert Frames(t.wire) + t.lost == Frames(s.wire) + [s.pump.m];
  }

  /** Conserved does not look at the lock or the callers. */
  lemma SameFrames(s: Sys, t: Sys)
    requires Conserved(s)
    requires t.accepted == s.accepted && t.wire == s.wire && t.lost == s.lost && t.core.queue == s.core.queue
    requires InFlight(t.pump) == InFlight(s.pump)
    requires t.pump == s.pump || t.pump.Finishing? || t.pump.Closing? || t.pump.Exited? || s.lost == []
    ensures Conserved(t)
  {
  }

  lemma OfferKeepsConserved(s: Sys, step: Step)
    requires Conserved(s) && Enabled(s, step) && (step.Send? || step.SendAndClose?)
    ensures Conserved(Next(s, step))
  {
    hide Conserved;
    var m := if step.Send? then Plain(step.data) else Final(step.data, step.caller);
    EnqueueKeepsConserved(s, m);
    if Admit(s.core).Accepted? {
      SameFrames(s.(core := Enqueue(s.core, m), accepted := s.accepted + [m]), Next(s, step));
    } else {
      SameFrames(s, Next(s, step));
    }
  }

  lemma CloseKeepsConserved(s: Sys)
    requires Conserved(s) && SocketCoherent(s) && Enabled(s, CloseSocket)
    ensures Conserved(Next(s, CloseSocket))
  {
    FramesAppend(s.wire, SocketClosed);
    assert Frames(Next(s, CloseSocket).wire) == Frames(s.wire);
  }

  lemma NextKeepsConserved(s: Sys, step: Step)
    requires Inv(s) && Enabled(s, step)
    ensures Conserved(Next(s, step))
  {
    hide Conserved, SocketCoherent, OneFinal, OnlyErrorsFail, Frames;
    match step
    case Send(data) => OfferKeepsConserved(s, step);
    case SendAndClose(caller, data) => OfferKeepsConserved(s, step);
    case PumpTake => TakeKeepsConserved(s);
    case PumpWrite(ok) => WriteKeepsConserved(s, ok);
    case CloseSocket => CloseKeepsConserved(s);
    case _ => SameFrames(s, Next(s, step));
  }

  lemma NextKeepsSocketCoherent(s: Sys, step: Step)
    requires Inv(s) && Enabled(s, step)
    ensures SocketCoherent(Next(s, step))
  {
  }

  lemma OfferKeepsOneFinal(s: Sys, step: Step)
    requires OneFinal(s) && Enabled(s, step) && (step.Send? || step.SendAndClose?)
    ensures OneFinal(Next(s, step))
  {
  }

  /** Nobody but the one admitted caller can still be waiting, or have been told true. */
  lemma CallersKeepOneFinal(s: Sys, t: Sys)
    requires OneFinal(s) && t.accepted == s.accepted && t.core.graceful == s.core.graceful
    requires forall c :: c in s.callers ==> c in t.callers
    requires forall c :: c in t.callers ==> c in s.callers && (t.callers[c] == s.callers[c] || s.callers[c].Waiting?)
    ensures OneFinal(t)
  {
  }

  lemma NextKeepsOneFinal(s: Sys, step: Step)
    requires Inv(s) && Enabled(s, step)
    ensures OneFinal(Next(s, step))
  {
    hide OneFinal, Conserved, SocketCoherent, ReplyMeetsCaller, OnlyErrorsFail;
    if step.Send? || step.SendAndClose? {
      OfferKeepsOneFinal(s, step);
    } else {
      CallersKeepOneFinal(s, Next(s, step));
    }
  }

  lemma WriteKeepsReply(s: Sys, ok: bool)
    requires Inv(s) && Enabled(s, PumpWrite(ok))
    ensures ReplyMeetsCaller(Next(s, PumpWrite(ok)))
  {
    hide OnlyErrorsFail, Frames;
    InFlightPosition(s);
    FramesAppend(s.wire, Wrote(s.pump.m));
  }

  lemma OfferKeepsReply(s: Sys, step: Step)
    requires Inv(s) && Enabled(s, step) && (step.Send? || step.SendAndClose?)
    ensures ReplyMeetsCaller(Next(s, step))
  {
    hide Conserved, OnlyErrorsFail, Frames;
  }

  lemma NextKeepsReplyMeetsCaller(s: Sys, step: Step)
    requires Inv(s) && Enabled(s, step)
    ensures ReplyMeetsCaller(Next(s, step))
  {
    if step.PumpWrite? {
      WriteKeepsReply(s, step.ok);
    } else if step.Send? || step.SendAndClose? {
      OfferKeepsReply(s, step);
    } else {
      FramesAppend(s.wire, SocketClosed);
      hide OnlyErrorsFail, Frames;
    }
  }

  lemma NextKeepsOnlyErrorsFail(s: Sys, step: Step)
    requires Inv(s) && Enabled(s, step)
    ensures OnlyErrorsFail(Next(s, step))
  {
    if s.pump.Writing? {
      InFlightPosition(s);
    }
  }

  lemma NextKeepsInv(s: Sys, step: Step)
    requires Inv(s) && Enabled(s, step)
    ensures Inv(Next(s, step))
  {
    NextKeepsConserved(s, step);
    NextKeepsSocketCoherent(s, step);
    NextKeepsOneFinal(s, step);
    NextKeepsReplyMeetsCaller(s, step);
    NextKeepsOnlyErrorsFail(s, step);
  }

  // --- Whole runs ---

  predicate Legal(s: Sys, run: seq<Step>)
    decreases |run|
  {
    run == [] || (Enabled(s, run[0]) && Legal(Next(s, run[0]), run[1..]))
  }

  function After(s: Sys, run: seq<Step>): Sys
    requires Legal(s, run)
    decreases |run|
  {
    if run == [] then s else After(Next(s, run[0]), run[1..])
  }

  lemma {:induction false} RunKeepsInv(s: Sys, run: seq<Step>)
    requires Inv(s) && Legal(s, run)
    ensures Inv(After(s, run))
    decreases |run|
  {
    if run != [] {
      NextKeepsInv(s, run[0]);
      RunKeepsInv(Next(s, run[0]), run[1..]);
    }
  }

  function OnWire(frames: seq<Message>): seq<Wire> {
    seq(|frames|, i requires 0 <= i < |frames| => Wrote(frames[i]))
  }

  lemma {:induction false} WireIsFrames(wire: seq<Wire>)
    requires forall i :: 0 <= i < |wire| ==> wire[i].Wrote?
    ensures wire == OnWire(Frames(wire))
  {
    if wire != [] {
      var front := wire[..|wire| - 1];
      WireIsFrames(front);
      assert wire == front + [wire[|wire| - 1]];
      FramesAppend(front, wire[|wire| - 1]);
    }
  }

  /** What the socket saw in a state that satisfies the invariant. */
  lemma WireShape(s: Sys)
    requires Inv(s)
    ensures s.wire == OnWire(Frames(s.wire)) + (if s.core.socketClosed then [SocketClosed] else [])
  {
    if s.core.socketClosed {
      var front := s.wire[..|s.wire| - 1];
      WireIsFrames(front);
      assert s.wire == front + [SocketClosed];
      FramesAppend(front, SocketClosed);
    } else {
      WireIsFrames(s.wire);
    }
  }

  /** Safety of every interleaving. Frames reach the socket in acceptance order, before it closes,
      and it closes once; at most one final frame is admitted; and a SendAndClose that returned true
      means that everything ever accepted was written, its own frame last. */
  lemma GracefulClose(run: seq<Step>)
    requires Legal(START, run)
    ensures var s := After(START, run);
      && Frames(s.wire) <= s.accepted
      && s.wire == OnWire(Frames(s.wire)) + (if s.core.socketClosed then [SocketClosed] else [])
      && (forall i, j | 0 <= i < |s.accepted| && 0 <= j < |s.accepted| ::
            s.accepted[i].reply.Some? && s.accepted[j].reply.Some? ==> i == j)
      && (forall c :: c in s.callers && s.callers[c] == Returned(true) ==>
            && Frames(s.wire) == s.accepted != []
            && Last(s.accepted).reply == Some(c) && Last(s.accepted).closeAfter)
  {
    RunKeepsInv(START, run);
    WireShape(After(START, run));
  }

  /** Once closed or gracefulClosing is set nothing is accepted any more, and neither flag is unset. */
  lemma {:induction false} NothingAcceptedAfterDecision(s: Sys, run: seq<Step>)
    requires Legal(s, run) && (s.core.closed || s.core.graceful)
    ensures var t := After(s, run);
      && t.accepted == s.accepted
      && (s.core.closed ==> t.core.closed) && t.core.graceful == s.core.graceful
    decreases |run|
  {
    if run != [] {
      NothingAcceptedAfterDecision(Next(s, run[0]), run[1..]);
    }
  }

  /** The steps that execute close(done), which would panic on a second execution. */
  predicate ClosesDone(s: Sys, step: Step) {
    match step
    case Send(_) => Admit(s.core).Overflow?
    case SendAndClose(_, _) => Admit(s.core).Overflow?
    case Close => !s.core.closed && !s.core.graceful
    case PumpFinish => !s.core.closed
    case _ => false
  }

  function DoneClosings(s: Sys, run: seq<Step>): nat
    requires Legal(s, run)
    decreases |run|
  {
    if run == [] then 0
    else (if ClosesDone(s, run[0]) then 1 else 0) + DoneClosings(Next(s, run[0]), run[1..])
  }

  lemma {:induction false} DoneClosedAtMostOnce(s: Sys, run: seq<Step>)
    requires Legal(s, run)
    ensures DoneClosings(s, run) == if After(s, run).core.closed && !s.core.closed then 1 else 0
    decreases |run|
  {
    if run != [] {
      DoneClosedAtMostOnce(Next(s, run[0]), run[1..]);
      if s.core.closed {
        NothingAcceptedAfterDecision(s, run);
      } else if Next(s, run[0]).core.closed {
        NothingAcceptedAfterDecision(Next(s, run[0]), run[1..]);
      }
    }
  }

  lemma {:induction false} NoErrorNoLoss(s: Sys, run: seq<Step>)
    requires Legal(s, run) && s.lost == []
    requires forall i :: 0 <= i < |run| ==> run[i] != PumpWrite(false)
    ensures After(s, run).lost == []
    decreases |run|
  {
    if run != [] {
      assert run[0] != PumpWrite(false);
      NoErrorNoLoss(Next(s, run[0]), run[1..]);
    }
  }

  /** Without a socket write error, an admitted SendAndClose never returns false. */
  lemma CleanGracefulCloseSucceeds(run: seq<Step>, caller: nat)
    requires Legal(START, run)
    requires forall i :: 0 <= i < |run| ==> run[i] != PumpWrite(false)
    requires exists i :: 0 <= i < |After(START, run).accepted| && After(START, run).accepted[i].reply == Some(caller)
    ensures caller in After(START, run).callers
    ensures After(START, run).callers[caller] != Returned(false)
  {
    RunKeepsInv(START, run);
    NoErrorNoLoss(START, run);
  }

  // --- Progress of SendAndClose ---

  /** The steps of the pump, and of callers that already decided; the other steps are new calls. */
  predicate System(step: Step) {
    !step.Send? && !step.SendAndClose? && !step.Close?
  }

  function SystemSteps(run: seq<Step>): nat {
    if run == [] then 0 else (if System(run[0]) then 1 else 0) + SystemSteps(run[1..])
  }

  /** An upper bound on the system steps before the waiting caller returns: three for each frame
      ahead of its own, plus what is left of the pump's current frame and of its shutdown. */
  function StepsToReturn(s: Sys, caller: nat): nat {
    if caller !in s.callers || s.callers[caller].Returned? then 0
    else match s.pump
         case Exited => 1
         case Closing => 2
         case Finishing => 3
         case Selecting => 4 + 3 * |s.core.queue|
         case Replying(_, _) => 5 + 3 * |s.core.queue|
         case Writing(_) => 6 + 3 * |s.core.queue|
  }

  lemma StepMakesProgress(s: Sys, step: Step, caller: nat)
    requires Inv(s) && Enabled(s, step) && caller in s.callers && s.callers[caller].Waiting?
    ensures caller in Next(s, step).callers
    ensures StepsToReturn(Next(s, step), caller) <= StepsToReturn(s, caller) - (if System(step) then 1 else 0)
  {
  }

  /** A waiting caller is never deadlocked: in particular the pump's unbuffered result send always
      finds its receiver. */
  lemma SomeSystemStepEnabled(s: Sys, caller: nat) returns (step: Step)
    requires Inv(s) && caller in s.callers && s.callers[caller].Waiting?
    ensures System(step) && Enabled(s, step)
    ensures s.pump.Replying? ==> step.Rendezvous?
  {
    match s.pump
    case Selecting => step := PumpTake;
    case Writing(_) => step := PumpWrite(false);
    case Replying(_, _) => step := Rendezvous;
    case Finishing => step := PumpFinish;
    case Closing => step := CloseSocket;
    case Exited => step := CallerSeesDone(caller);
  }

  /** However new calls are interleaved, an admitted caller has returned after StepsToReturn system steps. */
  lemma {:induction false} SendAndCloseReturns(s: Sys, run: seq<Step>, caller: nat)
    requires Inv(s) && Legal(s, run) && caller in s.callers
    requires SystemSteps(run) >= StepsToReturn(s, caller)
    ensures caller in After(s, run).callers && After(s, run).callers[caller].Returned?
    decreases |run|
  {
    if run != [] {
      hide Inv, Next, Enabled, StepsToReturn;
      NextKeepsInv(s, run[0]);
      if s.callers[caller].Waiting? {
        StepMakesProgress(s, run[0], caller);
      }
      SendAndCloseReturns(Next(s, run[0]), run[1..], caller);
    }
  }

  /** The bound in terms of the queue: at most 3 * 256 + 6 system steps, whatever the state. */
  lemma ReturnBound(run: seq<Step>, caller: nat)
    requires Legal(START, run)
    ensures StepsToReturn(After(START, run), caller) <= 3 * SEND_BUFFER + 6
  {
    RunKeepsInv(START, run);
  }
}
