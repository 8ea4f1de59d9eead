/**
 * The FTP client session of `client.py`: an optional host and one control
 * socket, replaced and closed on every reconnect.
 *
 * The pure part (`Session`, `ResetStep`, `ConnectStep`, `Run`) says what a
 * call does to the session and which socket calls it makes; the class
 * `FtpClient` does it step by step on a `Socket` object and is proved
 * against the pure part.
 */
module Client {
  import opened Wrappers
  import opened Sockets
  import opened SocketLog

  const PORT: int := 21
  const SOCKET_TIMEOUT_SECONDS: int := 5
  const SOCKET_RCV_BYTES: nat := 4096

  /** The exceptions `connect` raises: its own timeout exception, or a socket error passed on unchanged. */
  datatype ConnectError = TimeoutException(host: string) | SocketFailure(error: SocketError)

  /** Python's `host or 'localhost'` on a string or `None`. */
  function DefaultHost(host: Option<string>): (h: string)
    ensures h != ""
    ensures host.Some? && host.value != "" ==> h == host.value
    ensures host == None || host == Some("") ==> h == "localhost"
  {
    match host
    case Some(name) => if name != "" then name else "localhost"
    case None => "localhost"
  }

  function Digit(d: nat): char
    requires d < 10
  {
    ('0' as int + d) as char
  }

  /** Python's `'{}'.format(n)` for a natural number. */
  function Decimal(n: nat): string
  {
    if n < 10 then [Digit(n)] else Decimal(n / 10) + [Digit(n % 10)]
  }

  /** The `msg` of a `TimeoutException` raised for `host`. */
  function TimeoutMessage(host: string): (m: string)
    ensures m == "Connection to " + host + ":21 timed out"
  {
    "Connection to " + host + ":" + Decimal(PORT) + " timed out"
  }

  /** The message names the host it was raised for: two hosts never share a message. */
  lemma TimeoutMessageNamesHost(h1: string, h2: string)
    requires TimeoutMessage(h1) == TimeoutMessage(h2)
    ensures h1 == h2
  {
    var m := TimeoutMessage(h1);
    assert h1 == m[14..|m| - 13];
    assert h2 == m[14..|m| - 13];
  }

  // ---------------------------------------------------------------------------
  // The session, as values

  /** The client's `host` and its current socket. */
  datatype Session = Session(host: Option<string>, socket: Handle)

  /**
   * The session invariant: the current socket is open with the 5-second
   * timeout, and `host` is set exactly when that socket is connected, to
   * `(host, PORT)`.
   */
  predicate Consistent(s: Session)
  {
    && Usable(s.socket)
    && s.socket.timeout == Some(SOCKET_TIMEOUT_SECONDS)
    && (s.host.Some? <==> s.socket.state.Connected?)
    && (s.host.Some? ==> s.socket.state.peer == Address(s.host.value, PORT))
  }

  /** A session together with the socket calls that led to it. */
  datatype Step = Step(session: Session, calls: seq<Call>)

  /** `_reset_socket(drop_existing)`. */
  function ResetStep(s: Session, dropExisting: bool): (r: Step)
    ensures Consistent(r.session) && r.session.host == None
    ensures r.session.socket.state == Unconnected
    ensures CloseCall in r.calls <==> dropExisting
    ensures dropExisting ==> r.calls[0] == CloseCall
    ensures |r.calls| == (if dropExisting then 3 else 2)
    ensures r.calls[|r.calls| - 2..] == [NewSocket, SetTimeoutCall(SOCKET_TIMEOUT_SECONDS)]
    ensures ClosedBeforeReplaced(r.calls)
    ensures ConnectTargets(r.calls) == [] && RecvCall(SOCKET_RCV_BYTES) !in r.calls
    ensures Track(s.socket, r.calls) == if dropExisting && !Usable(s.socket) then None else Some(r.session.socket)
  {
    var renewed := Session(None, Live(Unconnected, Some(SOCKET_TIMEOUT_SECONDS)));
    if dropExisting then
      var closed := Apply(s.socket, CloseCall);
      RenewSocket(if closed.Some? then closed.value else NoSocket);
      TrackAppend(s.socket, [CloseCall], [NewSocket, SetTimeoutCall(SOCKET_TIMEOUT_SECONDS)]);
      ConnectTargetsAppend([CloseCall], [NewSocket, SetTimeoutCall(SOCKET_TIMEOUT_SECONDS)]);
      Step(renewed, [CloseCall, NewSocket, SetTimeoutCall(SOCKET_TIMEOUT_SECONDS)])
    else
      RenewSocket(s.socket);
      Step(renewed, [NewSocket, SetTimeoutCall(SOCKET_TIMEOUT_SECONDS)])
  }

  /**
   * From any handle, closing (optionally) and then making a new socket with
   * the 5-second timeout leaves that new socket unconnected, connects
   * nothing, and replaces no socket before closing it.
   */
  lemma RenewSocket(h: Handle)
    ensures var renew := [NewSocket, SetTimeoutCall(SOCKET_TIMEOUT_SECONDS)];
      && Track(h, renew) == Some(Live(Unconnected, Some(SOCKET_TIMEOUT_SECONDS)))
      && ConnectTargets(renew) == []
      && [CloseCall] + renew == [CloseCall, NewSocket, SetTimeoutCall(SOCKET_TIMEOUT_SECONDS)]
      && ClosedBeforeReplaced(renew) && ClosedBeforeReplaced([CloseCall] + renew)
  {
    var renew := [NewSocket, SetTimeoutCall(SOCKET_TIMEOUT_SECONDS)];
    assert renew[1..] == [SetTimeoutCall(SOCKET_TIMEOUT_SECONDS)];
    assert Track(Live(Unconnected, None), renew[1..]) == Some(Live(Unconnected, Some(SOCKET_TIMEOUT_SECONDS)));
    assert ConnectTargets(renew[1..]) == [];
  }

  /** What one `connect(host)` returns or raises, the session after it, and its socket calls. */
  datatype Outcome = Outcome(session: Session, calls: seq<Call>, result: Result<seq<byte>, ConnectError>)

  /**
   * The guarded part of `connect`: connect the current socket of an
   * unconnected session to `(h, PORT)` and, if that succeeds, record the
   * host and read the greeting.
   */
  function Attempt(s: Session, h: string, net: Network): (o: Outcome)
    requires s.socket.Live? && s.host == None
    ensures Consistent(s) ==> Consistent(o.session)
    // the log is legal unless the current socket is one whose earlier connect failed
    ensures Consistent(s) ==> Track(s.socket, o.calls) == if s.socket.state == ConnectFailed then None else Some(o.session.socket)
    ensures o.session.host == if net.onConnect.Established? then Some(h) else None
    ensures o.session.socket == Live(if net.onConnect.Established? then Connected(Address(h, PORT)) else ConnectFailed, s.socket.timeout)
    ensures ConnectTargets(o.calls) == [Address(h, PORT)]
    ensures o.calls != [] && o.calls[0].ConnectCall? && CloseCall !in o.calls && NewSocket !in o.calls
    ensures multiset(o.calls)[RecvCall(SOCKET_RCV_BYTES)] == if net.onConnect.Established? then 1 else 0
    ensures net.onConnect == ConnectRaises(Timeout) ==> o.result == Err(TimeoutException(h))
    ensures net.onConnect.ConnectRaises? && net.onConnect.error.OtherError? ==> o.result == Err(SocketFailure(net.onConnect.error))
    ensures net.onConnect.Established? && net.onRecv.Pending? ==> o.result == Ok(Received(net.onRecv.data, SOCKET_RCV_BYTES))
    ensures net.onConnect.Established? && net.onRecv.RecvRaises? ==> o.result == Err(SocketFailure(net.onRecv.error))
  {
    var addr := Address(h, PORT);
    var connect := [ConnectCall(addr, net.onConnect)];
    assert ConnectTargets(connect[1..]) == [];
    var failed := Session(None, Live(ConnectFailed, s.socket.timeout));
    assert Track(failed.socket, connect[1..]) == Some(failed.socket);
    match net.onConnect
    case ConnectRaises(Timeout) => Outcome(failed, connect, Err(TimeoutException(h)))
    case ConnectRaises(e) => Outcome(failed, connect, Err(SocketFailure(e)))
    case Established =>
      var connected := Session(Some(h), Live(Connected(addr), s.socket.timeout));
      var calls := connect + [RecvCall(SOCKET_RCV_BYTES)];
      ConnectTargetsAppend(connect, [RecvCall(SOCKET_RCV_BYTES)]);
      assert calls[0] == ConnectCall(addr, net.onConnect) && calls[1..] == [RecvCall(SOCKET_RCV_BYTES)];
      assert Track(Live(Connected(addr), s.socket.timeout), calls[1..]) == Some(connected.socket);
      match net.onRecv
      case Pending(data) => Outcome(connected, calls, Ok(Received(data, SOCKET_RCV_BYTES)))
      case RecvRaises(e) => Outcome(connected, calls, Err(SocketFailure(e)))
  }

  /** `connect(host)` on a session whose socket exists, with `net` answering its socket calls. */
  function ConnectStep(s: Session, host: Option<string>, net: Network): (o: Outcome)
    requires s.socket.Live?
    decreases if s.host.Some? then 1 else 0
    // the session invariant is kept, and the log of calls agrees with the session
    ensures Consistent(s) ==> Consistent(o.session)
    // the log is legal unless the current socket is one whose earlier connect failed
    ensures Consistent(s) ==> Track(s.socket, o.calls) == if s.socket.state == ConnectFailed then None else Some(o.session.socket)
    // host is set exactly when the socket connect succeeded, to the defaulted host
    ensures o.session.host == if net.onConnect.Established? then Some(DefaultHost(host)) else None
    // a failed socket connect leaves the failed socket current
    ensures o.session.socket.Live? && o.session.socket.state == if net.onConnect.Established? then Connected(Address(DefaultHost(host), PORT)) else ConnectFailed
    // exactly one socket connect, to (defaulted host, 21)
    ensures ConnectTargets(o.calls) == [Address(DefaultHost(host), PORT)]
  {
    var h := DefaultHost(host);
    if s.host.Some? then
      var reset := ResetStep(s, true);
      assert DefaultHost(Some(h)) == h;
      var next := ConnectStep(reset.session, Some(h), net);
      TrackAppend(s.socket, reset.calls, next.calls);
      ConnectTargetsAppend(reset.calls, next.calls);
      Outcome(next.session, reset.calls + next.calls, next.result)
    else
      Attempt(s, h, net)
  }

  /**
   * What `connect(host)` returns or raises, and its single `recv(4096)`,
   * which happens exactly when the socket connect succeeded.
   */
  lemma {:induction false} ConnectStepResult(s: Session, host: Option<string>, net: Network)
    requires s.socket.Live?
    decreases if s.host.Some? then 1 else 0
    ensures multiset(ConnectStep(s, host, net).calls)[RecvCall(SOCKET_RCV_BYTES)] == if net.onConnect.Established? then 1 else 0
    ensures net.onConnect == ConnectRaises(Timeout) ==> ConnectStep(s, host, net).result == Err(TimeoutException(DefaultHost(host)))
    ensures net.onConnect.ConnectRaises? && net.onConnect.error.OtherError? ==>
      ConnectStep(s, host, net).result == Err(SocketFailure(net.onConnect.error))
    ensures net.onConnect.Established? && net.onRecv.Pending? ==>
      ConnectStep(s, host, net).result == Ok(Received(net.onRecv.data, SOCKET_RCV_BYTES))
    ensures net.onConnect.Established? && net.onRecv.RecvRaises? ==>
      ConnectStep(s, host, net).result == Err(SocketFailure(net.onRecv.error))
  {
    var h := DefaultHost(host);
    if s.host.Some? {
      var reset := ResetStep(s, true);
      assert DefaultHost(Some(h)) == h;
      ConnectStepResult(reset.session, Some(h), net);
      var next := ConnectStep(reset.session, Some(h), net);
      assert ConnectStep(s, host, net).calls == reset.calls + next.calls;
      assert multiset(reset.calls + next.calls) == multiset(reset.calls) + multiset(next.calls);
    }
  }

  /**
   * The socket calls of `connect(host)`: a connected session first closes
   * its socket, makes a new one and sets its timeout; an unconnected session
   * keeps its socket. No socket is replaced before it is closed.
   */
  lemma {:induction false} ConnectStepCalls(s: Session, host: Option<string>, net: Network)
    requires s.socket.Live?
    decreases if s.host.Some? then 1 else 0
    ensures var calls := ConnectStep(s, host, net).calls;
      && (s.host.Some? ==> |calls| >= 3 && calls[..3] == [CloseCall, NewSocket, SetTimeoutCall(SOCKET_TIMEOUT_SECONDS)])
      && (s.host.None? ==> CloseCall !in calls && NewSocket !in calls)
      && calls != [] && calls[0] != NewSocket && ClosedBeforeReplaced(calls)
  {
    var h := DefaultHost(host);
    if s.host.Some? {
      var reset := ResetStep(s, true);
      assert DefaultHost(Some(h)) == h;
      ConnectStepCalls(reset.session, Some(h), net);
      var next := ConnectStep(reset.session, Some(h), net);
      var calls := reset.calls + next.calls;
      assert ConnectStep(s, host, net).calls == calls;
      ClosedBeforeReplacedAppend(reset.calls, next.calls);
      assert calls[..3] == reset.calls;
    }
  }

  /** One `connect` call: its argument, and what the network answers. */
  datatype Request = Request(host: Option<string>, net: Network)

  /** A client constructed and then asked to `connect` once per request, in order. */
  function Run(reqs: seq<Request>): Step
    decreases |reqs|
  {
    if reqs == [] then ResetStep(Session(None, NoSocket), false)
    else
      var prev := Run(reqs[..|reqs| - 1]);
      var last := reqs[|reqs| - 1];
      if prev.session.socket.Live? then
        var o := ConnectStep(prev.session, last.host, last.net);
        Step(o.session, prev.calls + o.calls)
      else prev  // never taken: every session a run reaches has a socket (RunKeepsInvariant)
  }

  /**
   * Over any sequence of connects: the session invariant holds, every
   * socket is closed before it is replaced, and the current socket is one
   * whose connect failed exactly when the last connect failed.
   */
  lemma {:induction false} RunKeepsInvariant(reqs: seq<Request>)
    ensures Consistent(Run(reqs).session)
    ensures ClosedBeforeReplaced(Run(reqs).calls)
    ensures Run(reqs).session.socket.state == ConnectFailed <==> reqs != [] && reqs[|reqs| - 1].net.onConnect.ConnectRaises?
    decreases |reqs|
  {
    if reqs != [] {
      var prev := Run(reqs[..|reqs| - 1]);
      var last := reqs[|reqs| - 1];
      RunKeepsInvariant(reqs[..|reqs| - 1]);
      var o := ConnectStep(prev.session, last.host, last.net);
      assert Run(reqs) == Step(o.session, prev.calls + o.calls);
      ConnectStepCalls(prev.session, last.host, last.net);
      ClosedBeforeReplacedAppend(prev.calls, o.calls);
    }
  }

  lemma RunHasSocket(reqs: seq<Request>)
    ensures Run(reqs).session.socket.Live?
  {
    RunKeepsInvariant(reqs);
  }

  /** Some connect other than the last one failed, so the connect after it reuses the failed socket. */
  predicate RetriesFailedSocket(reqs: seq<Request>)
  {
    exists i :: 0 <= i < |reqs| - 1 && reqs[i].net.onConnect.ConnectRaises?
  }

  lemma RetriesFailedSocketSnoc(reqs: seq<Request>)
    requires reqs != []
    ensures var init := reqs[..|reqs| - 1];
      RetriesFailedSocket(reqs) <==>
        RetriesFailedSocket(init) || (init != [] && init[|init| - 1].net.onConnect.ConnectRaises?)
  {
    var init := reqs[..|reqs| - 1];
    if RetriesFailedSocket(reqs) {
      var i :| 0 <= i < |reqs| - 1 && reqs[i].net.onConnect.ConnectRaises?;
      assert init[i] == reqs[i];
    }
    if RetriesFailedSocket(init) {
      var i :| 0 <= i < |init| - 1 && init[i].net.onConnect.ConnectRaises?;
      assert reqs[i] == init[i];
    }
    if init != [] && init[|init| - 1].net.onConnect.ConnectRaises? {
      assert reqs[|init| - 1] == init[|init| - 1];
    }
  }

  /**
   * The log of a run misuses a socket exactly when some connect other than
   * the last one failed: the next connect then reuses the failed socket.
   * Otherwise the log is legal and agrees with the session.
   */
  lemma {:induction false} RunLogAgrees(reqs: seq<Request>)
    ensures Track(NoSocket, Run(reqs).calls) == if RetriesFailedSocket(reqs) then None else Some(Run(reqs).session.socket)
    decreases |reqs|
  {
    if reqs != [] {
      var init := reqs[..|reqs| - 1];
      var prev := Run(init);
      var last := reqs[|reqs| - 1];
      RunKeepsInvariant(init);
      RunLogAgrees(init);
      RetriesFailedSocketSnoc(reqs);
      var o := ConnectStep(prev.session, last.host, last.net);
      assert Run(reqs) == Step(o.session, prev.calls + o.calls);
      TrackAppend(NoSocket, prev.calls, o.calls);
    }
  }

  /** Over any sequence of connects, the i-th socket connect goes to the i-th defaulted host on port 21. */
  lemma {:induction false} RunConnectsInOrder(reqs: seq<Request>)
    ensures |ConnectTargets(Run(reqs).calls)| == |reqs|
    ensures forall i :: 0 <= i < |reqs| ==> ConnectTargets(Run(reqs).calls)[i] == Address(DefaultHost(reqs[i].host), PORT)
    decreases |reqs|
  {
    if reqs != [] {
      var init := reqs[..|reqs| - 1];
      var prev := Run(init);
      var last := reqs[|reqs| - 1];
      RunHasSocket(init);
      RunConnectsInOrder(init);
      var o := ConnectStep(prev.session, last.host, last.net);
      assert Run(reqs) == Step(o.session, prev.calls + o.calls);
      ConnectTargetsAppend(prev.calls, o.calls);
      var targets := ConnectTargets(Run(reqs).calls);
      assert targets == ConnectTargets(prev.calls) + [Address(DefaultHost(last.host), PORT)];
      forall i | 0 <= i < |reqs|
        ensures targets[i] == Address(DefaultHost(reqs[i].host), PORT)
      {
        if i < |init| {
          assert reqs[i] == init[i];
          assert targets[i] == ConnectTargets(prev.calls)[i];
        } else {
          assert i == |ConnectTargets(prev.calls)| && reqs[i] == last;
        }
      }
    }
  }

  /** After any sequence of connects, `host` is the defaulted host of the last one if its socket connect succeeded, and unset otherwise. */
  lemma {:induction false} RunTracksLastHost(reqs: seq<Request>)
    requires reqs != []
    ensures Run(reqs).session.host ==
      if reqs[|reqs| - 1].net.onConnect.Established? then Some(DefaultHost(reqs[|reqs| - 1].host)) else None
  {
    RunKeepsInvariant(reqs[..|reqs| - 1]);
  }

  // ---------------------------------------------------------------------------
  // Retrying after a failed connect

  /**
   * As written, a connect that times out leaves its socket current, and the
   * next connect calls `connect` on that same socket again: the log of
   * these two requests misuses a socket, and the timed-out socket is
   * never closed.
   */
  lemma RetryAfterTimeoutMisusesSocket(h: string, onRecv: RecvOutcome, next: Network)
    ensures var reqs := [Request(Some(h), Network(ConnectRaises(Timeout), onRecv)), Request(Some(h), next)];
      && Track(NoSocket, Run(reqs).calls) == None
      && CloseCall !in Run(reqs).calls
  {
    var reqs := [Request(Some(h), Network(ConnectRaises(Timeout), onRecv)), Request(Some(h), next)];
    assert reqs[0].net.onConnect.ConnectRaises?;
    RunLogAgrees(reqs);
    var first := Run(reqs[..1]);
    assert reqs[..1][..0] == [];
    RunKeepsInvariant(reqs[..1]);
    assert first.session.host == None;
    var o := ConnectStep(first.session, Some(h), next);
    ConnectStepCalls(first.session, Some(h), next);
    assert Run(reqs) == Step(o.session, first.calls + o.calls);
  }

  /**
   * `connect` corrected so that a failed socket connect drops the failed
   * socket and makes a new one before the exception propagates; what it
   * returns or raises is unchanged.
   */
  function ResettingConnectStep(s: Session, host: Option<string>, net: Network): (o: Outcome)
    requires s.socket.Live?
    ensures Consistent(s) ==> Consistent(o.session)
    ensures Consistent(s) && s.socket.state != ConnectFailed ==> Track(s.socket, o.calls) == Some(o.session.socket)
    ensures o.session.socket.Live? && o.session.socket.state != ConnectFailed
    ensures o.session.host == if net.onConnect.Established? then Some(DefaultHost(host)) else None
    ensures o.result == ConnectStep(s, host, net).result
    ensures ConnectTargets(o.calls) == [Address(DefaultHost(host), PORT)]
    ensures o.calls != [] && o.calls[0] != NewSocket && ClosedBeforeReplaced(o.calls)
  {
    var o := ConnectStep(s, host, net);
    ConnectStepCalls(s, host, net);
    if net.onConnect.ConnectRaises? then
      var reset := ResetStep(o.session, true);
      TrackAppend(s.socket, o.calls, reset.calls);
      ConnectTargetsAppend(o.calls, reset.calls);
      ClosedBeforeReplacedAppend(o.calls, reset.calls);
      Outcome(reset.session, o.calls + reset.calls, o.result)
    else
      o
  }

  /** A client with the corrected `connect`, constructed and then asked to connect once per request. */
  function ResettingRun(reqs: seq<Request>): Step
    decreases |reqs|
  {
    if reqs == [] then ResetStep(Session(None, NoSocket), false)
    else
      var prev := ResettingRun(reqs[..|reqs| - 1]);
      var last := reqs[|reqs| - 1];
      if prev.session.socket.Live? then
        var o := ResettingConnectStep(prev.session, last.host, last.net);
        Step(o.session, prev.calls + o.calls)
      else prev  // never taken: every session a run reaches has a socket (ResettingRunNeverMisuses)
  }

  /**
   * With the corrected `connect`, over any sequence of connects whatever
   * their outcomes: the session invariant holds, no socket call misuses a
   * socket, the log agrees with the session, and every socket is closed
   * before it is replaced.
   */
  lemma {:induction false} ResettingRunNeverMisuses(reqs: seq<Request>)
    ensures Consistent(ResettingRun(reqs).session)
    ensures ResettingRun(reqs).session.socket.state != ConnectFailed
    ensures Track(NoSocket, ResettingRun(reqs).calls) == Some(ResettingRun(reqs).session.socket)
    ensures ClosedBeforeReplaced(ResettingRun(reqs).calls)
    decreases |reqs|
  {
    if reqs != [] {
      var prev := ResettingRun(reqs[..|reqs| - 1]);
      var last := reqs[|reqs| - 1];
      ResettingRunNeverMisuses(reqs[..|reqs| - 1]);
      var o := ResettingConnectStep(prev.session, last.host, last.net);
      assert ResettingRun(reqs) == Step(o.session, prev.calls + o.calls);
      TrackAppend(NoSocket, prev.calls, o.calls);
      ClosedBeforeReplacedAppend(prev.calls, o.calls);
    }
  }

  // ---------------------------------------------------------------------------
  // The client object

  class FtpClient {
    var host: Option<string>
    /** `null` only while the constructor has not yet made the first socket. */
    var socket: Socket?
    /** Every call made on the client's sockets, in order. */
    ghost var calls: seq<Call>

    ghost function View(): Session
      reads this, socket
    {
      Session(host, if socket == null then NoSocket else Live(socket.state, socket.timeout))
    }

    /** The log is legal and agrees with the current socket. */
    ghost predicate Tracked()
      reads this, socket
    {
      Track(NoSocket, calls) == Some(View().socket)
    }

    ghost predicate Valid()
      reads this, socket
    {
      socket != null && Consistent(View())
    }

    constructor ()
      ensures Valid() && Tracked() && fresh(socket)
      ensures host == None && socket.state == Unconnected && socket.timeout == Some(SOCKET_TIMEOUT_SECONDS)
      ensures View() == Run([]).session && calls == Run([]).calls
    {
      host := None;
      socket := null;
      calls := [];
      new;
      ResetSocket(false);
    }

    /** `_reset_socket(drop_existing)`: close the old socket if asked, make a new one, forget the host. */
    method ResetSocket(dropExisting: bool)
      requires dropExisting ==> Valid()
      modifies this, socket
      ensures Valid() && fresh(socket)
      ensures old(Tracked()) ==> Tracked()
      ensures View() == ResetStep(old(View()), dropExisting).session
      ensures calls == old(calls) + ResetStep(old(View()), dropExisting).calls
      ensures dropExisting ==> old(socket).state == Closed
      ensures !dropExisting && old(socket) != null ==> old(socket).state == old(socket.state)
    {
      ghost var before := View();
      if dropExisting {
        socket.Close();
        calls := calls + [CloseCall];
      }
      socket := new Socket();
      calls := calls + [NewSocket];
      socket.SetTimeout(SOCKET_TIMEOUT_SECONDS);
      calls := calls + [SetTimeoutCall(SOCKET_TIMEOUT_SECONDS)];
      host := None;
      ghost var step := ResetStep(before, dropExisting);
      assert calls == old(calls) + step.calls;
      TrackAppend(NoSocket, old(calls), step.calls);
      assert before.socket.Live? ==> before.socket == Live(old(socket.state), old(socket.timeout));
    }

    /** `connect(host)`: returns the server's greeting, or the exception raised. */
    method Connect(host: Option<string>, net: Network) returns (r: Result<seq<byte>, ConnectError>)
      requires Valid()
      modifies this, socket
      decreases if this.host.Some? then 1 else 0
      ensures Valid()
      ensures old(Tracked()) ==> (Tracked() <==> old(socket.state) != ConnectFailed)
      ensures View() == ConnectStep(old(View()), host, net).session
      ensures calls == old(calls) + ConnectStep(old(View()), host, net).calls
      ensures r == ConnectStep(old(View()), host, net).result
      ensures old(this.host).Some? ==> fresh(socket) && old(socket).state == Closed
      ensures old(this.host).None? ==> socket == old(socket)
    {
      ghost var before := View();
      var h := DefaultHost(host);
      if this.host.Some? {
        ghost var reset := ResetStep(before, true);
        ResetSocket(true);
        assert View() == reset.session && View().socket.state == Unconnected;
        r := Connect(Some(h), net);
        ghost var next := ConnectStep(reset.session, Some(h), net);
        assert DefaultHost(Some(h)) == h;
        assert ConnectStep(before, host, net) == Outcome(next.session, reset.calls + next.calls, next.result);
        return;
      }
      assert ConnectStep(before, host, net) == Attempt(before, h, net);
      r := AttemptConnect(h, net);
    }

    /** The guarded part of `connect`, on an unconnected client: connect the socket, record the host, read the greeting. */
    method AttemptConnect(h: string, net: Network) returns (r: Result<seq<byte>, ConnectError>)
      requires Valid() && host == None
      modifies socket, this`host, this`calls
      ensures Valid() && socket == old(socket)
      ensures old(Tracked()) ==> (Tracked() <==> old(socket.state) != ConnectFailed)
      ensures View() == Attempt(old(View()), h, net).session
      ensures calls == old(calls) + Attempt(old(View()), h, net).calls
      ensures r == Attempt(old(View()), h, net).result
    {
      ghost var before := View();
      var addr := Address(h, PORT);
      var err := socket.Connect(addr, net.onConnect);
      calls := calls + [ConnectCall(addr, net.onConnect)];
      if err.Some? {
        if err.value == Timeout {
          r := Err(TimeoutException(h));
        } else {
          r := Err(SocketFailure(err.value));
        }
      } else {
        host := Some(h);
        var data := socket.Recv(SOCKET_RCV_BYTES, net.onRecv);
        calls := calls + [RecvCall(SOCKET_RCV_BYTES)];
        match data
        case Ok(greeting) => r := Ok(greeting);
        case Err(e) => r := Err(SocketFailure(e));
      }
      ghost var o := Attempt(before, h, net);
      assert calls == old(calls) + o.calls;
      TrackAppend(NoSocket, old(calls), o.calls);
    }
  }
}
