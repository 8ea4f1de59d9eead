/**
 * The part of the standard `socket` object that the FTP client uses, as an
 * abstract object: a connection state and a timeout, with no networking.
 * What the network answers to a `connect` or a `recv` is a parameter of
 * the call (a `ConnectOutcome` or a `RecvOutcome`).
 */
module Sockets {
  import opened Wrappers

  newtype byte = x: int | 0 <= x < 256

  /** The `(host, port)` pair passed to `socket.connect`. */
  datatype Address = Address(host: string, port: int)

  /** `socket.timeout`, or any other socket error. */
  datatype SocketError = Timeout | OtherError(reason: string)

  /** The network's answer to a `connect`: the connection is made, or the call raises. */
  datatype ConnectOutcome = Established | ConnectRaises(error: SocketError)

  /** The network's answer to a `recv`: the bytes the peer has sent so far, or the call raises. */
  datatype RecvOutcome = Pending(data: seq<byte>) | RecvRaises(error: SocketError)

  /** What the network does in answer to the one `connect` and the one `recv` of a client connect. */
  datatype Network = Network(onConnect: ConnectOutcome, onRecv: RecvOutcome)

  /**
   * `ConnectFailed` is a socket whose connect raised. Its state is then
   * unspecified: after a timeout the connection attempt may still be in
   * progress, so a further connect on it may raise `EALREADY` or `EISCONN`.
   */
  datatype SocketState = Unconnected | ConnectFailed | Connected(peer: Address) | Closed

  /** The bytes one `recv(bufsize)` hands back when `pending` bytes are waiting. */
  function Received(pending: seq<byte>, bufsize: nat): (r: seq<byte>)
    ensures r <= pending
    ensures |r| <= bufsize
    ensures |r| < bufsize ==> r == pending
  {
    if |pending| <= bufsize then pending else pending[..bufsize]
  }

  class Socket {
    var state: SocketState
    /** `None` is a blocking socket; `Some(t)` a timeout of `t` seconds. */
    var timeout: Option<int>

    constructor ()
      ensures state == Unconnected && timeout == None
    {
      state := Unconnected;
      timeout := None;
    }

    method SetTimeout(seconds: int)
      modifies this
      ensures timeout == Some(seconds) && state == old(state)
    {
      timeout := Some(seconds);
    }

    /**
     * Connecting a socket that is connected or closed is an error of the
     * caller. On a socket whose earlier connect failed the result is
     * unspecified, and `outcome` stands for whatever happens.
     */
    method Connect(addr: Address, outcome: ConnectOutcome) returns (err: Option<SocketError>)
      requires state == Unconnected || state == ConnectFailed
      modifies this
      ensures timeout == old(timeout)
      ensures outcome.Established? ==> err == None && state == Connected(addr)
      ensures outcome.ConnectRaises? ==> err == Some(outcome.error) && state == ConnectFailed
    {
      match outcome
      case Established =>
        state := Connected(addr);
        err := None;
      case ConnectRaises(e) =>
        state := ConnectFailed;
        err := Some(e);
    }

    method Recv(bufsize: nat, pending: RecvOutcome) returns (r: Result<seq<byte>, SocketError>)
      requires state.Connected?
      ensures pending.Pending? ==> r == Ok(Received(pending.data, bufsize))
      ensures pending.RecvRaises? ==> r == Err(pending.error)
    {
      match pending
      case Pending(data) => r := Ok(Received(data, bufsize));
      case RecvRaises(e) => r := Err(e);
    }

    method Close()
      modifies this
      ensures state == Closed && timeout == old(timeout)
    {
      state := Closed;
    }
  }
}
