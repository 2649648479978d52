/**
 The relay's outbound connection: a bounded send queue guarded by a mutex, closed either at once
 or gracefully after one final frame. The class below holds what each call does while it owns the
 mutex; ConnectionProtocol interleaves those critical sections with the writer pump.
 */
module Connections {
  import opened Common

  const SEND_BUFFER: nat := 256

  /** A queued frame. closeAfter and reply (the writeResult channel, named by the caller that waits
      on it) are set together, by SendAndClose only. */
  datatype Message = Message(data: string, closeAfter: bool, reply: Option<nat>)

  function Plain(data: string): Message {
    Message(data, false, None)
  }

  function Final(data: string, caller: nat): Message {
    Message(data, true, Some(caller))
  }

  /** What the mutex protects, and the socket. */
  datatype Core = Core(queue: seq<Message>, closed: bool, graceful: bool, socketClosed: bool)

  datatype Admission = Rejected | Accepted | Overflow

  /** The admission decision shared by Send and SendAndClose. */
  function Admit(c: Core): Admission {
    if c.closed || c.graceful then Rejected
    else if |c.queue| < SEND_BUFFER then Accepted
    else Overflow
  }

  function Enqueue(c: Core, m: Message): Core {
    c.(queue := c.queue + [m], graceful := m.reply.Some?)
  }

  /** closeLocked: publish the close decision and close done. */
  function CloseDecision(c: Core): Core {
    c.(closed := true)
  }

  function ShutSocket(c: Core): Core {
    c.(socketClosed := true)
  }

  /** What one call does to the connection: Send and SendAndClose offer a frame, and a full queue closes. */
  function Offer(c: Core, m: Message): Core {
    match Admit(c)
    case Rejected => c
    case Accepted => Enqueue(c, m)
    case Overflow => ShutSocket(CloseDecision(c))
  }

  function AfterClose(c: Core): Core {
    if c.closed || c.graceful then c else ShutSocket(CloseDecision(c))
  }

  function AfterTake(c: Core): Core
    requires c.queue != []
  {
    c.(queue := c.queue[1..])
  }

  /** Once a final frame was offered, every later offer is rejected. */
  lemma FinalOfferIsLast(c: Core, data: string, caller: nat, m: Message)
    ensures Offer(Offer(c, Final(data, caller)), m) == Offer(c, Final(data, caller))
  {
  }

  class Connection {
    var send: seq<Message>
    var done: bool
    var gracefulClosing: bool
    var closed: bool
    var socketClosed: bool

    ghost predicate Valid()
      reads this
    {
      && |send| <= SEND_BUFFER
      && done == closed == socketClosed
    }

    ghost function View(): Core
      reads this
    {
      Core(send, closed, gracefulClosing, socketClosed)
    }

    constructor ()
      ensures Valid() && View() == Core([], false, false, false)
    {
      send, done, gracefulClosing, closed, socketClosed := [], false, false, false, false;
    }

    /** How offering m has come out: nothing happens to a connection that has decided to close; otherwise m is
        queued last if there is room, and the connection is closed, frames and all, if there is none. */
    twostate predicate TakesOffer(m: Message, ok: bool)
      reads this
    {
      if old(closed) || old(gracefulClosing) then !ok && unchanged(this)
      else if old(|send|) < SEND_BUFFER then
        && ok && send == old(send) + [m] && (gracefulClosing <==> m.closeAfter)
        && !closed && !done && socketClosed == old(socketClosed)
      else !ok && send == old(send) && !gracefulClosing && closed && done && socketClosed
    }

    /** Returns whether the frame was accepted. A full queue closes the connection. */
    method Send(data: string) returns (ok: bool)
      requires Valid()
      modifies this
      ensures Valid()
      ensures ok <==> Admit(old(View())).Accepted?
      ensures View() == Offer(old(View()), Plain(data))
      ensures TakesOffer(Message(data, false, None), ok)
    {
      if closed || gracefulClosing {
        return false;
      }
      if |send| < SEND_BUFFER {
        send := send + [Plain(data)];
        return true;
      }
      var first := CloseLocked();
      CloseWebSocket(first);
      return false;
    }

    /** SendAndClose up to the point where it waits: the atomic close-or-enqueue decision. */
    method BeginSendAndClose(data: string, caller: nat) returns (admitted: bool)
      requires Valid()
      modifies this
      ensures Valid()
      ensures admitted <==> Admit(old(View())).Accepted?
      ensures View() == Offer(old(View()), Final(data, caller))
      ensures TakesOffer(Message(data, true, Some(caller)), admitted)
    {
      if closed || gracefulClosing {
        return false;
      }
      if |send| < SEND_BUFFER {
        send := send + [Final(data, caller)];
        gracefulClosing := true;
        return true;
      }
      var first := CloseLocked();
      CloseWebSocket(first);
      return false;
    }

    /** The pump receives the next frame. */
    method Take() returns (m: Message)
      requires Valid() && send != []
      modifies this`send
      ensures Valid() && View() == AfterTake(old(View()))
      ensures old(send) == [m] + send
    {
      m := send[0];
      send := send[1..];
    }

    /** A no-op once the connection is closed or a graceful close is in flight. */
    method Close()
      requires Valid()
      modifies this
      ensures Valid()
      ensures View() == AfterClose(old(View()))
      ensures if old(closed) || old(gracefulClosing) then unchanged(this)
              else closed && done && socketClosed && !gracefulClosing && send == old(send)
    {
      if closed {
        return;
      }
      if gracefulClosing {
        return;
      }
      var first := CloseLocked();
      CloseWebSocket(first);
    }

    /** The pump's close: unlike Close it completes a graceful close. */
    method FinishClose()
      requires Valid()
      modifies this
      ensures Valid()
      ensures View() == ShutSocket(CloseDecision(old(View())))
      ensures closed && done && socketClosed && gracefulClosing == old(gracefulClosing) && send == old(send)
    {
      if closed {
        return;
      }
      var first := CloseLocked();
      CloseWebSocket(first);
    }

    /** Returns true for the one caller that has to close the socket. */
    method CloseLocked() returns (first: bool)
      requires done == closed
      modifies this
      ensures first == !old(closed) && done == closed
      ensures View() == CloseDecision(old(View()))
    {
      if closed {
        return false;
      }
      closed := true;
      done := true;
      return true;
    }

    method CloseWebSocket(first: bool)
      modifies this
      ensures done == old(done)
      ensures View() == if first then ShutSocket(old(View())) else old(View())
    {
      if first {
        socketClosed := true;
      }
    }
  }
}
