# libnet-- connection lifecycle, in Dafny

This project models the two connection-role state machines of libnet--:
the client connector `netClient` (`src/netclient.cpp`) and the server
listener `netserver` (`src/netserver.cpp`). Both sit on a shared engine,
`netbase`. The engine does the socket registry, packet framing and readiness
polling. It is not part of this model.

Three modules:

- `Engine` (`engine.dfy`) is the boundary with netbase and the operating system.
  It holds `INVALID_SOCKET` and `SOCKET_ERROR` (both -1 as an `int`) and the
  C `short` type. It also holds the packet a role hands to `netpacket::create`
  and the log of calls a role makes (`Socket`, `Close`, `Send`, `AddCallback`).
  `netbase::closeSocket` is represented by `CloseReply`: the engine's return
  value, and whether it took the closed descriptor out of `conSet`. Nothing
  proved here depends on it doing so. The model only uses the fact that no
  other descriptor leaves the set and none is added.
- `Client` (`client.dfy`) models netClient.
- `Server` (`server.dfy`) models netserver.

Each role is modelled in two layers:

- A state value (`ClientState` / `ServerState`) with one function per
  operation. Each function maps the old state, plus the oracle answers of the
  system calls the operation makes, to the new state and the return value.
  Each function's contract states what the source guarantees on every path.
- A class (`NetClient` / `NetServer`) with the same fields and
  early-return method bodies that follow the C++. Each method is proved to
  leave exactly the state, and return exactly the value, that its function
  gives.

Every socket, bind, listen, connect, select, accept and name-resolution call
is an input value. Whether the build defines `WIN32` is an input too.

Invariants proved over every sequence of calls:

- Client (`Client.Coherent`): a ready client holds a valid server socket.
  That socket is registered in `conSet` and is no greater than `sdMax`. The
  sequence numbers of the packets it sends strictly increase.
- Server (`Server.WithinLimit`): the accepted connections never exceed `conMax`.
- Server (`Server.Listening`): a ready server holds a valid listening socket
  no greater than `sdMax`. Every operation keeps this except `closeSocket`
  of the listening socket while the server is ready. Unlike the client's
  `closeSocket` (netclient.cpp lines 147-149), the server's does not clear
  `ready` itself (netserver.cpp lines 124-136). `Server.CloseSocketOfListenerKeepsReady`
  shows the resulting state, ready with no listening socket, under the
  assumption that netbase's own `closeSocket` leaves `ready` alone (see
  "## Left out").
- Client (`Client.ReadyIffLastConnectStands`): after any sequence of calls
  the client is ready exactly when the most recent successful connect (or
  the connection it started with) has not since been torn down by a
  disconnect or a close of the server socket.

Behaviour the model keeps from the code, where a reader might expect otherwise:

- On the WIN32 connect-timeout path, the socket is not closed. `sdServer`
  keeps the new descriptor (netclient.cpp lines 101-107).
- When `unblockSocket` fails, neither role closes the new socket
  (netclient.cpp lines 67-68, netserver.cpp lines 64-65).
- `openPort` while already listening replaces `sdListen` without closing the
  old descriptor.
- A connection accepted over the limit is refused but not closed.
- `connect` answering 0 is treated as "still connecting": `doConnect`
  returns 0 and the client does not become ready. Only an `rv > 0` (which
  only the WIN32 `select` can produce) takes the connected path.

## Model

| member | source | states |
|---|---|---|
| `Client.Initial` | src/netclient.cpp:9-17 | a new client is not ready, has no server socket, port -1, a 3 s / 0 us connect timeout, an empty connection set, and satisfies the client invariant |
| `Client.NetClient.constructor` | src/netclient.cpp:9-17 | the constructed object's state is `Initial` and satisfies the invariant |
| `Client.TimeoutStep` | src/netclient.cpp:30-38 | both timeout values are stored unchecked and nothing else changes |
| `Client.NetClient.SetConnTimeout` | src/netclient.cpp:30-38 | always answers true; the new state is `TimeoutStep` of the old |
| `Client.SendStep` | src/netclient.cpp:191-196 | lastMessage grows by exactly 1 before the packet is made; the packet handed to the engine targets sdServer and carries the new number; the engine's answer is returned; the invariant is kept |
| `Client.NetClient.SendMessage` | src/netclient.cpp:191-196 | follows `SendStep` and keeps `Valid()` |
| `Client.SendAllNumbersConsecutively` | src/netclient.cpp:191-196 | n sends in a row log exactly n packets numbered lastMessage+1 to lastMessage+n, in order |
| `Client.CloseStep` | src/netclient.cpp:143-158 | closing sdServer leaves the client not ready with sdServer INVALID, and ready is already false when the engine closes; closing any other descriptor leaves ready and sdServer untouched; the engine's answer is returned |
| `Client.NetClient.CloseSocket` | src/netclient.cpp:143-158 | follows `CloseStep` and keeps `Valid()` |
| `Client.ConnectStep` | src/netclient.cpp:42-140 | while ready: answers -1, sets "Already connected", and creates no socket. Otherwise each outcome states its answer, sdServer, lastError, conSet and call log exactly: socket failure; unblock failure (socket kept, nothing registered); unknown host (socket closed, sdServer INVALID, message built from the address up to its first NUL); WIN32 timeout ("Timed out", SOCKET_ERROR, socket kept); hard connect error (closed, SOCKET_ERROR); connected (sdServer registered, sdMax >= sdServer, port recorded, sdServer answered); still connecting (0, nothing registered or closed). Only the connected path makes the client ready; lastMessage and the timeout are never touched. The invariant is kept |
| `Client.CStr` | src/netclient.cpp:83 | `c_str()` read as a C string is the longest NUL-free prefix of the address |
| `Client.NetClient.DoConnect` | src/netclient.cpp:42-140 | follows `ConnectStep` and keeps `Valid()` |
| `Client.ConnectWhileReadyKeepsConnection` | src/netclient.cpp:52-56 | a second connect while ready fails and leaves the socket, the connection set, the port and the call log as they were |
| `Client.DisconnectStep` | src/netclient.cpp:161-187 | answers -1 with "Already disconnected" exactly when sdServer is INVALID, and 0 otherwise; the client is never ready afterwards and sdServer is INVALID; the zero-length disconnect notice is sent only when sdServer is valid and the client ready, followed by the close; the port, sdMax and the connect timeout are never touched; the invariant is kept |
| `Client.NetClient.DoDisconnect` | src/netclient.cpp:161-187 | follows `DisconnectStep` and keeps `Valid()` |
| `Client.DisconnectIsIdempotent` | src/netclient.cpp:161-187 | after any disconnect, a second one answers -1 with "Already disconnected", and a third changes nothing |
| `Client.ApplyReady` | src/netclient.cpp:52-187 | one call leaves the client ready exactly when it was ready and the call was neither a disconnect nor a close of sdServer, or the call was a connect that took the connected path |
| `Client.ReadyIffLastConnectStands` | src/netclient.cpp:52-187 | after any run, ready holds exactly when the last successful connect (or the initial connection) has not been followed by a disconnect or a close of the then-current sdServer |
| `Client.RunKeepsCoherent` | src/netclient.cpp:42-196 | every sequence of client calls keeps the invariant: ready implies a valid, registered sdServer no greater than sdMax, and sequence numbers strictly increase |
| `Server.Initial` | src/netserver.cpp:23-29 | a new server is not ready, has no listening socket, port -1, conMax as given and no connections |
| `Server.NetServer.constructor` | src/netserver.cpp:23-29 | the constructed object's state is `Initial(max, ...)` and satisfies both server invariants |
| `Server.CloseStep` | src/netserver.cpp:124-136 | sdListen becomes INVALID when the closed descriptor is sdListen and is unchanged otherwise; ready is untouched; the engine's answer is returned; the admission invariant is kept |
| `Server.NetServer.CloseSocket` | src/netserver.cpp:124-136 | follows `CloseStep` and keeps `Valid()` |
| `Server.CloseSocketOfListenerKeepsReady` | src/netserver.cpp:124-136 | closing the listening socket through closeSocket leaves a ready server with no listening socket |
| `Server.OpenStep` | src/netserver.cpp:44-101 | the server is ready afterwards exactly when socket, unblock, bind and listen all succeed. On success: sdListen and the answer are the new socket, the port is recorded, sdMax >= sd, and the old listener is not closed. On any failure: -1, not ready, port and sdMax kept. After a socket or unblock failure conSet and sdListen are unchanged. After a bind or listen failure the new socket is closed with ready already false, conSet loses at most that socket, and sdListen is cleared only if it was that socket. conMax is never touched |
| `Server.NetServer.OpenPort` | src/netserver.cpp:44-101 | follows `OpenStep`, keeps `Valid()` and establishes `Listening` |
| `Server.ClosePortStep` | src/netserver.cpp:104-121 | ends not ready with sdListen INVALID; the listening socket, if any, is closed with ready already false |
| `Server.NetServer.ClosePort` | src/netserver.cpp:104-121 | follows `ClosePortStep` and keeps `Valid()` |
| `Server.AcceptStep` | src/netserver.cpp:225-262 | accept failure: -1; the listener is closed if valid, then reopened on the same port; the server is ready again exactly when the reopen succeeds. Over the limit: -1 and nothing changes. Within the limit: exactly the new descriptor is added and answered. A granted accept never evicts a connection. Both invariants are kept |
| `Server.NetServer.AcceptConnection` | src/netserver.cpp:225-262 | follows `AcceptStep` and keeps `Valid()` |
| `Server.CheckStep` | src/netserver.cpp:188-222 | answers the select result; accepts only when select reported the listening socket ready; registers the incoming-packet callback exactly when acceptConnection answered a non-negative descriptor; both invariants are kept |
| `Server.NetServer.CheckPort` | src/netserver.cpp:188-222 | follows `CheckStep` and keeps `Valid()` |
| `Server.HandleIncoming` | src/netserver.cpp:265-269 | the default handler answers 0; an override answers what it computes |
| `Server.CbIncoming` | src/netserver.cpp:272-280 | a NULL context answers all bits set; any other context answers its server's handleIncoming |
| `Server.DefaultDispatchSeparatesNull` | src/netserver.cpp:265-280 | with the default handler, the callback answers nonzero exactly for a NULL context |
| `Server.RunKeepsWithinLimit` | src/netserver.cpp:248-256 | every sequence of server calls keeps the accepted connections within conMax and never changes conMax |
| `Server.CloseOtherKeepsListening` | src/netserver.cpp:124-136 | closeSocket of any descriptor other than sdListen keeps "ready implies a valid listening socket" |
| `Server.RunKeepsListening` | src/netserver.cpp:44-136 | every sequence of server calls that never closes the listening socket of a ready server through closeSocket keeps "ready implies a valid listening socket no greater than sdMax" |
| `Server.AdmissionNeverEvicts` | src/netserver.cpp:248-256 | over any run of accepts the system granted, whether admitted or refused, no existing connection leaves the set |

## Left out

- `run` of both roles is not modelled. It covers the readiness `select`, `readSockets` and the `try`/`catch` that turns a fault into -1. These are polling and exception plumbing in netbase.
- `buildSocketSet`, `buildListenSet` and the `FD_SET` of the listening socket into `sdSet` are not modelled. These readiness sets are rebuilt by the engine on every pass.
- Packet framing (`netpacket::create`, `netbase::sendMessage`) and dispatch of received packets to registered callbacks are not modelled. Those live in netbase and netpacket, which are not part of this model. Only the packet a role hands over, and the fact that a callback was registered, are recorded.
- `netbase::closeSocket` is represented only by its return value and by whether it removes the closed descriptor from `conSet`. Its effects on `sdSet` and `sdMax` are not modelled.
- `netbase::unblockSocket`'s effect on `lastError` is not modelled. The model leaves `lastError` unchanged on that path.
- Address resolution, `getsockname`, `inet_ntoa`, `htons`/`ntohs` and the connect-timeout `timeval` are represented only by their results. Logging (`openLog`, `closeLog`, `debugLog`) is left out.
- The destructors of both classes are not modelled: Dafny has no destructors.
- The values of `NET_DISCONNECT_ID` and `NET_CB_VERSION` are defined in netbase.h, which is not part of this model. They are left unspecified.
- `Client.SendStep`: the declared width of `lastMessage` is in netbase.h, which is not part of this model. The counter is unbounded, so a wrap-around of a 16-bit sequence field is not captured.
- `Client.NetClient.SendMessage`: same as `Client.SendStep`. The counter is unbounded.
- `Server.CbIncoming`: `size_t` is taken to be 64 bits wide. `~0` is therefore 2^64 - 1.
- The starting values of `lastMessage`, `sdMax` and `lastError` come from netbase's constructor, which is not part of this model. The constructors leave them unspecified.
- `Client.Initial`: netbase's constructor is taken to start with `ready` false and an empty `conSet`; neither is set in netclient.cpp lines 9-17.
- `Server.Initial`: netbase's constructor is taken to start with `ready` false, an empty `conSet` and `conMax` equal to `max`; none is set in netserver.cpp lines 23-29.
- `Server.CloseSocketOfListenerKeepsReady`: netbase's `closeSocket` is taken to leave `ready`, `sdServer` and `sdListen` alone (it changes only `conSet`, and `sdSet`/`sdMax`, which are not modelled). The comment at netserver.cpp line 114 suggests the engine's close may consult `ready`; if it also cleared it, closing the listener would leave the server not ready. The same assumption underlies `Server.RunKeepsListening` and the client's `Client.CloseStep`.
