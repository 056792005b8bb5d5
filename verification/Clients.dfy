/** One connected user, as the hub sees it: constants, and the bounded channel to its
    write pump. */
module Clients {
  import opened Protocol

  /** A non-blocking send: taken, refused because the channel is full, or a panic because
      the channel is closed, which `select` with a `default` branch does not prevent. */
  datatype SendResult = Sent | Full | Panics

  class Client {
    const id: string
    const name: string
    const depth: nat
    var send: seq<Frame>
    var closed: bool

    constructor (id: string, name: string, depth: nat)
      ensures this.id == id && this.name == name && this.depth == depth
      ensures send == [] && !closed
    {
      this.id, this.name, this.depth := id, name, depth;
      send, closed := [], false;
    }

    method Enqueue(f: Frame) returns (r: SendResult)
      modifies this`send
      ensures r == if closed then Panics else if |old(send)| < depth then Sent else Full
      ensures send == if r == Sent then old(send) + [f] else old(send)
    {
      if closed {
        r := Panics;
      } else if |send| < depth {
        send := send + [f];
        r := Sent;
      } else {
        r := Full;
      }
    }

    /** Closing twice is a panic. */
    method Close() returns (ok: bool)
      modifies this`closed
      ensures ok == !old(closed) && closed
    {
      ok := !closed;
      closed := true;
    }

    /** The write pump's receive: `None` once the channel is closed and drained. */
    method Receive() returns (f: Option<Frame>)
      requires send != [] || closed
      modifies this`send
      ensures old(send) == [] ==> f.None? && send == []
      ensures old(send) != [] ==> f == Some(old(send)[0]) && send == old(send)[1..]
    {
      if send == [] {
        f := None;
      } else {
        f := Some(send[0]);
        send := send[1..];
      }
    }
  }
}
