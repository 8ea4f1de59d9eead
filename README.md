# FTP client session, modelled in Dafny

A model of the `FtpClient` class of `client.py`: a client that tracks an
optional `host` and owns one control socket. A new client has no host and a
fresh socket with a 5-second timeout. `connect(host)` replaces a falsy host
with `localhost`, and, if the client is already connected, closes its socket,
makes a new one and forgets the host before trying again on the new socket.
It then connects the socket to `(host, 21)`, records the host, and returns the
first `recv` of at most 4096 bytes. A socket timeout during the connect becomes
a `TimeoutException` whose message is `Connection to <host>:21 timed out`; any
other socket error propagates unchanged.

Files:

- `wrappers.dfy` (module `Wrappers`): `Option` and `Result`.
- `sockets.dfy` (module `Sockets`): the socket as an abstract object. A
  `Socket` has a connection state (`Unconnected`, `ConnectFailed`,
  `Connected(peer)`, `Closed`) and a timeout. `ConnectFailed` is a socket
  whose connect raised; after a timeout its connection attempt may still be
  in progress, so its state is unspecified. The network's answers to `connect` and `recv` are
  parameters of those calls (`ConnectOutcome`, `RecvOutcome`, together a
  `Network`), so no I/O happens.
- `socket_log.dfy` (module `SocketLog`): the log of calls a client makes on
  its sockets, and the rules those calls must follow. `Track` replays a log
  and returns the current socket's state, or `None` if a call misuses the
  socket: a call on a closed socket, a connect on a socket that is not
  unconnected (a socket whose connect failed included), or a recv on a socket that is not connected. The predicate
  `ClosedBeforeReplaced` says that each new socket is created only right
  after the previous one was closed.
- `client.dfy` (module `Client`): the constants `PORT`,
  `SOCKET_TIMEOUT_SECONDS` and `SOCKET_RCV_BYTES`, and the exception message.
  It also holds a value-level model of the session:
  - `Session` holds the host and the current socket.
  - `ResetStep` models `_reset_socket`.
  - `ConnectStep` models `connect`, and `Attempt` models its guarded
    connect-and-receive block.
  - `Run` models a client that is constructed and then connected once per
    request.

  Finally, `client.dfy` holds the class `FtpClient`. Its fields `host` and
  `socket` change step by step, as in the source. A ghost field `calls`
  logs every socket call. The class's methods are proved to agree with
  `ResetStep` and `ConnectStep`. `ResettingConnectStep` and `ResettingRun`
  are the corrected `connect` of the finding below.

The session invariant (`Consistent`) has four parts:
- the current socket is open;
- its timeout is 5 seconds;
- `host` is set exactly when that socket is connected;
- when `host` is set, the socket is connected to `(host, 21)`.

`FtpClient.Valid()` is this invariant on the client's fields.
`FtpClient.Tracked()` says that replaying the call log gives exactly the
current socket's state; `connect` keeps it unless it is called on a socket
whose previous connect failed.

`connect` re-enters itself once after a reset. The model's recursion
terminates because the reset clears `host`, so the second call takes the
non-reset branch. `ConnectStep`'s contract also states that every `connect`
makes exactly one socket connect.

A timed-out connect does not reset the session: `host` stays unset, and the
failed socket stays current, so the next `connect` calls `connect` on it
again (client.py:57-66). `FtpClient` and `ConnectStep` model this as
written; the finding below states its consequence and a corrected
`connect`. Only the socket connect is inside the `try` block
(client.py:61-66). So a timeout or error raised by the `recv` that reads the
greeting propagates as a plain socket error (`SocketFailure`), not as
`TimeoutException`, and `host` has already been recorded at that point.

## Model

| member | source | states |
|---|---|---|
| `Sockets.Received` | client.py:68 | `recv(4096)` hands back a prefix of the bytes the peer has sent, at most 4096 long, and all of them when fewer are waiting |
| `Sockets.Socket.constructor` | client.py:40 | a new socket is unconnected and blocking (no timeout yet) |
| `Sockets.Socket.SetTimeout` | client.py:41 | sets the timeout, leaves the connection state alone |
| `Sockets.Socket.Connect` | client.py:63 | only a socket that is unconnected or whose connect failed is connected; on success it is connected to the given address, otherwise the network's error is returned and the socket is marked as failed |
| `Sockets.Socket.Recv` | client.py:68 | on a connected socket, returns the received prefix of the pending bytes or the network's error |
| `Sockets.Socket.Close` | client.py:39 | the socket becomes closed, its timeout is kept |
| `Client.DefaultHost` | client.py:55 | `host or 'localhost'`: a falsy host (`None` or empty) becomes `localhost`, any other host is kept, and the result is never empty |
| `Client.TimeoutMessage` | client.py:23-26 | the exception message is `Connection to <host>:21 timed out`, with the port formatted from `PORT` |
| `Client.TimeoutMessageNamesHost` | client.py:25-26 | two different hosts never produce the same timeout message: the message identifies its host |
| `Client.ResetStep` | client.py:35-42 | `_reset_socket` leaves an invariant-respecting session with no host and a new unconnected socket with timeout 5; it closes a socket if and only if `drop_existing` is set, does so first, then always creates a new socket and sets its 5-second timeout; it connects nothing, and its calls are legal exactly when a dropped socket was still open |
| `Client.Attempt` | client.py:61-69 | on an unconnected session: exactly one socket connect to `(h, 21)`; the host is recorded if and only if that connect succeeds; a timeout becomes `TimeoutException(h)`, other errors propagate unchanged; recv is called exactly once after a successful connect and never otherwise, and its prefix (or error) is the result; a failed connect leaves the failed socket current; the invariant is kept, and the log is legal and agrees with the socket unless the socket's earlier connect had failed |
| `Client.ConnectStep` | client.py:44-69 | `connect(host)`: exactly one socket connect, to the defaulted host on port 21. Afterwards `host` is the defaulted host if that connect succeeded and unset otherwise. A failed socket connect leaves that failed socket current. It keeps the invariant, and its calls are legal and agree with the session unless the current socket's earlier connect had failed |
| `Client.ConnectStepCalls` | client.py:57-59 | a connected session first closes its socket, then creates a new one and gives it the 5-second timeout; an unconnected session closes and creates no socket; no socket is replaced before it is closed |
| `Client.ConnectStepResult` | client.py:44-69 | `connect(host)` calls recv exactly once if the socket connect succeeded and never otherwise; a timeout raises `TimeoutException` for the defaulted host, another connect error propagates, and after a successful connect the received prefix is returned or the recv error propagates |
| `Client.RunKeepsInvariant` | client.py:57-64 | over any sequence of connects after construction: the invariant holds, every socket is closed before being replaced, and the current socket is one whose connect failed exactly when the last connect failed |
| `Client.RunLogAgrees` | client.py:57-66 | over any sequence of connects after construction, the socket calls misuse a socket exactly when some connect other than the last one failed (the next connect reuses the failed socket); otherwise they are legal and agree with the current socket |
| `Client.RunConnectsInOrder` | client.py:55-63 | over any sequence of connects after construction, the socket connects are one per `connect` call and the i-th goes to the i-th defaulted host on port 21 |
| `Client.RunTracksLastHost` | client.py:63-64 | after any sequence of connects, `host` is the defaulted host of the most recent connect if its socket connect succeeded, and unset otherwise |
| `Client.FtpClient.constructor` | client.py:32-33 | a new client has no host and a new unconnected socket with timeout 5; its state and log are those of `Run([])` |
| `Client.FtpClient.ResetSocket` | client.py:35-42 | closes the old socket exactly when `drop_existing` is set; installs a new socket with timeout 5 and clears `host`; the new state and the appended calls are those of `ResetStep` |
| `Client.FtpClient.Connect` | client.py:44-69 | returns what `ConnectStep` returns; the new state and the appended calls are those of `ConnectStep`. When reconnecting, the old socket ends closed and a new socket is current. Otherwise the socket is kept. A legal log stays legal unless the socket's earlier connect had failed |
| `Client.FtpClient.AttemptConnect` | client.py:61-69 | on an unconnected client, returns what `Attempt` returns; the new state and the appended calls are those of `Attempt`, and the socket object is kept |
| `Client.RetryAfterTimeoutMisusesSocket` | client.py:57-66 | as written: a connect that times out followed by a connect to the same host calls `connect` a second time on the timed-out socket, and never closes it |
| `Client.ResettingConnectStep` | client.py:61-66 | corrected `connect`: same result and the same single socket connect as `connect`, but a failed connect is followed by closing the failed socket and making a new one, so the current socket is never a failed one and the calls stay legal |
| `Client.ResettingRunNeverMisuses` | client.py:57-66 | with the corrected `connect`, over any sequence of connects whatever their outcomes: the invariant holds, no socket call misuses a socket, the log agrees with the current socket, and every socket is closed before being replaced |

## Findings

| source | as written | input that shows it | evidently intended | confidence | as-written member | corrected member |
|---|---|---|---|---|---|---|
| client.py:61-66 | a socket connect that raises leaves that socket current and `host` unset, so the next `connect` calls `connect` again on the same socket | `connect('a')` whose socket connect times out, then `connect('a')`: the second call connects the timed-out socket, which may raise `EALREADY` or `EISCONN`, and that socket is never closed | a failed connect drops the failed socket and makes a new one, so every `connect` starts on a fresh, unconnected socket | not executed | `Client.RetryAfterTimeoutMisusesSocket` | `Client.ResettingConnectStep` |

## Left out

- Real socket I/O (`socket()`, `settimeout`, `connect`, `recv`, `close`) is replaced by the abstract `Socket` class. The network's answers are passed in as parameters, one answer for the single connect and one for the single recv of each `connect` call.
- The `print` calls in `_reset_socket` and `connect` only log, so they are not modelled.
- `interpreter.py` (the interactive shell) and `main.py` (argument parsing and startup) only dispatch to the client and print results. They are not part of this model.
- Python 2 `str` versus bytes: the greeting is modelled as a sequence of bytes. The host is modelled as `Option<string>`, so the only falsy hosts are `None` and the empty string.
- `Sockets.Socket.Connect` refuses a socket that is connected or closed, where the real library raises an error instead; the client never makes such a call. On a socket whose earlier connect failed, which the client as written does connect again, the real library may raise `EALREADY` or `EISCONN` or finish the earlier attempt; the model does not predict which, and lets the network's answer stand for whatever happens. The log marks that call as a misuse (`RunLogAgrees`).
- `socket()`, `settimeout` and `close` are assumed never to raise (no descriptor exhaustion, no error on close). An exception from them inside `_reset_socket` would leave the client half reset; that path is not modelled.
- `SocketLog.Track` treats closing an already-closed socket as a misuse, although Python allows it. The client never does this, given that `close` does not raise.
- `FtpClient` and `Run` keep the behaviour of `client.py` as written; only `ResettingConnectStep` and `ResettingRun` model the corrected `connect` from the finding.
- The scenario from the test file that connects to two hosts in a row is not stated as one concrete lemma. `ConnectStep` covers it: the reconnect starts with close, new socket and set-timeout, then makes exactly one connect, to the new host.
