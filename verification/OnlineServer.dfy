/** A server's presence connection. Identity is the object; Generation orders the connections of a hub. */
module Servers {

  class OnlineServer {
    const deviceID: string
    const userID: string
    const generation: nat
    var done: bool
    var socketClosed: bool

    constructor (deviceID: string, userID: string, generation: nat)
      ensures this.deviceID == deviceID && this.userID == userID && this.generation == generation
      ensures !done && !socketClosed
    {
      this.deviceID, this.userID, this.generation := deviceID, userID, generation;
      done, socketClosed := false, false;
    }

    /** writeOk is the outcome the socket would give. A closed server never writes. */
    method SendMessage(writeOk: bool) returns (ok: bool)
      ensures ok <==> !done && writeOk
    {
      if done {
        return false;
      }
      return writeOk;
    }

    /** Runs once; later calls change nothing. */
    method Close()
      modifies this
      ensures done
      ensures old(done) ==> socketClosed == old(socketClosed)
      ensures !old(done) ==> socketClosed
    {
      if !done {
        done := true;
        socketClosed := true;
      }
    }
  }
}
