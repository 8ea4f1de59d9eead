/**
 * The log of the calls a client makes on its sockets, and the discipline
 * those calls must follow. Every call applies to the client's current
 * socket; `NewSocket` makes a freshly created socket the current one.
 */
module SocketLog {
  import opened Wrappers
  import opened Sockets

  datatype Call =
    | NewSocket
    | SetTimeoutCall(seconds: int)
    | ConnectCall(addr: Address, outcome: ConnectOutcome)
    | RecvCall(bufsize: nat)
    | CloseCall

  /** The client's current socket, as far as the log tells it. */
  datatype Handle = NoSocket | Live(state: SocketState, timeout: Option<int>)

  /** A socket that may still be used: it exists and has not been closed. */
  predicate Usable(h: Handle)
  {
    h.Live? && h.state != Closed
  }

  /**
   * The current socket after one more call, or `None` when the call misuses it:
   * any call on a closed or missing socket, a connect on a socket that is not
   * unconnected (connected, closed, or one whose earlier connect failed), a
   * recv on a socket that is not connected.
   */
  function Apply(h: Handle, c: Call): Option<Handle>
  {
    match c
    case NewSocket => Some(Live(Unconnected, None))
    case SetTimeoutCall(t) =>
      if Usable(h) then Some(Live(h.state, Some(t))) else None
    case ConnectCall(addr, outcome) =>
      if h.Live? && h.state == Unconnected
      then Some(Live(if outcome.Established? then Connected(addr) else ConnectFailed, h.timeout))
      else None
    case RecvCall(_) =>
      if h.Live? && h.state.Connected? then Some(h) else None
    case CloseCall =>
      if Usable(h) then Some(Live(Closed, h.timeout)) else None
  }

  /** The current socket after a sequence of calls, or `None` if one of them misuses it. */
  function Track(h: Handle, calls: seq<Call>): Option<Handle>
    decreases |calls|
  {
    if calls == [] then Some(h)
    else match Apply(h, calls[0])
      case None => None
      case Some(h') => Track(h', calls[1..])
  }

  lemma {:induction false} TrackAppend(h: Handle, a: seq<Call>, b: seq<Call>)
    ensures Track(h, a + b) == match Track(h, a) case None => None case Some(h') => Track(h', b)
    decreases |a|
  {
    if a == [] {
      assert a + b == b;
    } else {
      assert (a + b)[0] == a[0] && (a + b)[1..] == a[1..] + b;
      match Apply(h, a[0])
      case None =>
        assert Track(h, a + b) == None;
      case Some(h') =>
        TrackAppend(h', a[1..], b);
        assert Track(h, a + b) == Track(h', a[1..] + b);
    }
  }

  /** The addresses of the connect calls in the log, in order. */
  function ConnectTargets(calls: seq<Call>): seq<Address>
    decreases |calls|
  {
    if calls == [] then []
    else (if calls[0].ConnectCall? then [calls[0].addr] else []) + ConnectTargets(calls[1..])
  }

  lemma {:induction false} ConnectTargetsAppend(a: seq<Call>, b: seq<Call>)
    ensures ConnectTargets(a + b) == ConnectTargets(a) + ConnectTargets(b)
    decreases |a|
  {
    if a == [] {
      assert a + b == b;
    } else {
      assert (a + b)[0] == a[0] && (a + b)[1..] == a[1..] + b;
      ConnectTargetsAppend(a[1..], b);
      assert ConnectTargets(a + b)
          == (if a[0].ConnectCall? then [a[0].addr] else []) + (ConnectTargets(a[1..]) + ConnectTargets(b));
    }
  }

  /** Every socket but the first is created only right after the previous one was closed. */
  predicate ClosedBeforeReplaced(calls: seq<Call>)
  {
    forall i :: 0 < i < |calls| && calls[i] == NewSocket ==> calls[i - 1] == CloseCall
  }

  lemma ClosedBeforeReplacedAppend(a: seq<Call>, b: seq<Call>)
    requires ClosedBeforeReplaced(a) && ClosedBeforeReplaced(b)
    requires b != [] ==> b[0] != NewSocket
    ensures ClosedBeforeReplaced(a + b)
  {
  }
}
