// The client connector (netClient, src/netclient.cpp): one outbound
// connection at most, connect with a bounded wait on WIN32 builds, an explicit
// disconnect notice, and a per-client packet sequence counter.
//
// The state of a netClient object is the value ClientState; every operation is
// first a function from the old state (and the oracle answers of the calls it
// makes) to the new state and its return value, and the class NetClient keeps
// the same fields and is proved, method by method, to follow those functions.

module Client {
  import opened Engine

  /** The fields of a netClient object that these operations read or write,
      including the ones inherited from netbase (ready, lastError,
      lastMessage, conSet, sdMax) and the log of calls made to the engine. */
  datatype ClientState = ClientState(
    ready: bool,
    sdServer: int,
    serverPort: int,
    lastError: string,
    lastMessage: int,
    conSet: set<int>,
    sdMax: int,
    timeoutSec: int,
    timeoutUsec: int,
    trace: seq<Call>)

  /** A new state together with the operation's return value. */
  datatype Outcome = Outcome(state: ClientState, rv: int)

  /** The oracle answers of the calls doConnect makes. */
  datatype ConnectEnv = ConnectEnv(
    socketResult: int,     // socket()
    unblockResult: int,    // netbase::unblockSocket
    numericAddress: bool,  // inet_addr did not answer INADDR_NONE
    hostFound: bool,       // gethostbyname answered non-NULL
    connectResult: int,    // connect()
    win32: bool,           // the build defines WIN32
    wouldBlock: bool,      // WSAGetLastError() == WSAEWOULDBLOCK
    selectResult: int,     // select() for write readiness within connTimeout
    close: CloseReply)     // netbase::closeSocket, if the socket is released

  /** The oracle answers of the calls doDisconnect makes. */
  datatype DisconnectEnv = DisconnectEnv(sendReply: int, close: CloseReply)

  /** The client's invariant: a ready client holds a registered, valid server
      socket no greater than sdMax, and the sequence numbers it has sent
      strictly increase and never exceed lastMessage. */
  ghost predicate Coherent(s: ClientState)
  {
    && (s.ready ==> s.sdServer != INVALID_SOCKET && s.sdServer in s.conSet && s.sdServer <= s.sdMax)
    && SequencesIncrease(s.trace, s.lastMessage)
  }

  /** The state right after construction; the netbase-owned counters
      lastMessage and sdMax and the message lastError keep whatever netbase's
      constructor gave them. */
  function Initial(lastError: string, lastMessage: int, sdMax: int): (s: ClientState)
    ensures !s.ready && s.sdServer == INVALID_SOCKET && s.serverPort == -1
    ensures s.timeoutSec == 3 && s.timeoutUsec == 0
    ensures s.conSet == {} && s.trace == []
    ensures Coherent(s)
  {
    ClientState(false, INVALID_SOCKET, -1, lastError, lastMessage, {}, sdMax, 3, 0, [])
  }

  /** setConnTimeout: both values are stored as given, nothing else changes. */
  function TimeoutStep(s: ClientState, seconds: int, microsec: int): (r: ClientState)
    ensures r.timeoutSec == seconds && r.timeoutUsec == microsec
    ensures r.(timeoutSec := s.timeoutSec, timeoutUsec := s.timeoutUsec) == s
    ensures Coherent(s) ==> Coherent(r)
  {
    s.(timeoutSec := seconds, timeoutUsec := microsec)
  }

  /** sendMessage: the counter is incremented first and the packet handed to
      the engine carries the new value; the engine's answer is returned. */
  function SendStep(s: ClientState, id: Short, len: Short, payload: seq<bv8>, version: Short,
                    reply: int): (r: Outcome)
    ensures r.state.lastMessage == s.lastMessage + 1
    ensures r.state.trace == s.trace + [Send(Packet(s.sdServer, id, s.lastMessage + 1, len, payload, version))]
    ensures r.state.(lastMessage := s.lastMessage, trace := s.trace) == s
    ensures r.rv == reply
    ensures Coherent(s) ==> Coherent(r.state)
  {
    var n := s.lastMessage + 1;
    Outcome(s.(lastMessage := n, trace := s.trace + [Send(Packet(s.sdServer, id, n, len, payload, version))]), reply)
  }

  /** closeSocket(sd): closing the server socket clears ready before the
      engine runs and invalidates sdServer after it; any other descriptor
      leaves both alone. */
  function CloseStep(s: ClientState, sd: int, reply: CloseReply): (r: Outcome)
    ensures sd == s.sdServer ==> !r.state.ready && r.state.sdServer == INVALID_SOCKET
    ensures sd != s.sdServer ==> r.state.ready == s.ready && r.state.sdServer == s.sdServer
    ensures r.state.trace == s.trace + [Close(sd, s.ready && sd != s.sdServer)]
    ensures r.state.conSet == Unregister(s.conSet, sd, reply)
    ensures r.state.(ready := s.ready, sdServer := s.sdServer, conSet := s.conSet, trace := s.trace) == s
    ensures r.rv == reply.rv
    ensures Coherent(s) ==> Coherent(r.state)
  {
    var s1 := if sd == s.sdServer then s.(ready := false) else s;
    var s2 := s1.(conSet := Unregister(s1.conSet, sd, reply), trace := s1.trace + [Close(sd, s1.ready)]);
    Outcome(if sd == s.sdServer then s2.(sdServer := INVALID_SOCKET) else s2, reply.rv)
  }

  /** `str.c_str()` read back as a C string: the characters before the
      first NUL, or all of them when there is none. */
  function CStr(str: string): (r: string)
    ensures r <= str
    ensures '\0' !in r
    ensures |r| < |str| ==> str[|r|] == '\0'
  {
    if str == [] || str[0] == '\0' then [] else [str[0]] + CStr(str[1..])
  }

  /** The value of rv once connect has returned and, on a WIN32 build whose
      connect would block, the bounded wait for write readiness has. */
  function WaitResult(env: ConnectEnv): int
  {
    if env.connectResult == SOCKET_ERROR && env.win32 && env.wouldBlock then env.selectResult
    else env.connectResult
  }

  /** The wait timed out: a WIN32 build, a connect that would block, and a
      select that found nothing. */
  predicate TimedOut(env: ConnectEnv)
  {
    env.connectResult == SOCKET_ERROR && env.win32 && env.wouldBlock && env.selectResult == 0
  }

  /** doConnect(serverAddress, port, lport); lport is not used by the source. */
  function ConnectStep(s: ClientState, serverAddress: string, port: int, env: ConnectEnv): (r: Outcome)
    // already connected: refused, and no socket is created
    ensures s.ready ==> r.rv == -1 && r.state == s.(lastError := "Already connected")
    // any answer other than -1 or 0 is a new connection
    ensures r.rv != -1 && r.rv != 0 ==> !s.ready && r.state.ready
    // lastMessage and the connect timeout are never touched
    ensures r.state.(sdServer := s.sdServer, lastError := s.lastError, conSet := s.conSet, sdMax := s.sdMax,
                     serverPort := s.serverPort, ready := s.ready, trace := s.trace) == s
    ensures !s.ready ==> s.trace + [Socket(env.socketResult)] <= r.state.trace
    // connected: registered, recorded and returned
    ensures r.state.ready && !s.ready ==>
              && r.rv == r.state.sdServer == env.socketResult != INVALID_SOCKET
              && r.state.conSet == s.conSet + {env.socketResult}
              && r.state.sdMax >= r.state.sdServer
              && r.state.sdMax == (if s.sdMax < env.socketResult then env.socketResult else s.sdMax)
              && r.state.serverPort == port
              && r.state.lastError == s.lastError
              && r.state.trace == s.trace + [Socket(env.socketResult)]
    // not connected: nothing registered, the port and the sequence counter kept
    ensures !r.state.ready ==>
              && r.state.conSet <= s.conSet
              && r.state.serverPort == s.serverPort
              && r.state.sdMax == s.sdMax
              && (r.rv == -1 || r.rv == 0)
    ensures r.state.lastMessage == s.lastMessage
    // socket creation failed
    ensures !s.ready && env.socketResult == INVALID_SOCKET ==>
              && r.rv == -1 && r.state.sdServer == INVALID_SOCKET && r.state.lastError == "Could not create socket"
              && r.state.conSet == s.conSet && r.state.trace == s.trace + [Socket(env.socketResult)]
    // could not make the socket non-blocking: the socket is kept, not closed
    ensures !s.ready && env.socketResult != INVALID_SOCKET && env.unblockResult < 0 ==>
              && r.rv == -1 && r.state.sdServer == env.socketResult && r.state.lastError == s.lastError
              && r.state.conSet == s.conSet && r.state.trace == s.trace + [Socket(env.socketResult)]
    // unknown host: the socket is closed
    ensures !s.ready && env.socketResult != INVALID_SOCKET && env.unblockResult >= 0
            && !env.numericAddress && !env.hostFound ==>
              && r.rv == -1 && r.state.sdServer == INVALID_SOCKET
              && r.state.lastError == "Unknown host " + CStr(serverAddress)
              && r.state.conSet == Unregister(s.conSet, env.socketResult, env.close)
              && r.state.trace == s.trace + [Socket(env.socketResult), Close(env.socketResult, false)]
    // the name was resolved (or was numeric) and connect ran
    ensures !s.ready && env.socketResult != INVALID_SOCKET && env.unblockResult >= 0
            && (env.numericAddress || env.hostFound) ==>
              && (TimedOut(env) ==>
                    r.rv == SOCKET_ERROR && r.state.lastError == "Timed out"
                    && r.state.sdServer == env.socketResult && r.state.conSet == s.conSet
                    && r.state.trace == s.trace + [Socket(env.socketResult)])
              && (!TimedOut(env) && WaitResult(env) == SOCKET_ERROR ==>
                    r.rv == SOCKET_ERROR && r.state.sdServer == INVALID_SOCKET
                    && r.state.lastError == "Could not connect to " + serverAddress
                    && r.state.conSet == Unregister(s.conSet, env.socketResult, env.close)
                    && r.state.trace == s.trace + [Socket(env.socketResult), Close(env.socketResult, false)])
              && (WaitResult(env) > 0 ==> r.state.ready)
              && (!TimedOut(env) && WaitResult(env) != SOCKET_ERROR && WaitResult(env) <= 0 ==>
                    && r.rv == 0 && !r.state.ready && r.state.sdServer == env.socketResult
                    && r.state.conSet == s.conSet && r.state.lastError == s.lastError
                    && r.state.trace == s.trace + [Socket(env.socketResult)])
    ensures Coherent(s) ==> Coherent(r.state)
  {
    if s.ready then
      Outcome(s.(lastError := "Already connected"), -1)
    else
      var sd := env.socketResult;
      var s1 := s.(sdServer := sd, trace := s.trace + [Socket(sd)]);
      if sd == INVALID_SOCKET then
        Outcome(s1.(lastError := "Could not create socket"), -1)
      else if env.unblockResult < 0 then
        Outcome(s1, -1)
      else if !env.numericAddress && !env.hostFound then
        var c := CloseStep(s1.(lastError := "Unknown host " + CStr(serverAddress)), sd, env.close);
        Outcome(c.state, -1)
      else if TimedOut(env) then
        Outcome(s1.(lastError := "Timed out"), SOCKET_ERROR)
      else if WaitResult(env) == SOCKET_ERROR then
        var c := CloseStep(s1.(lastError := "Could not connect to " + serverAddress), sd, env.close);
        Outcome(c.state, SOCKET_ERROR)
      else if WaitResult(env) > 0 then
        var s2 := s1.(conSet := s1.conSet + {sd}, sdMax := if s1.sdMax < sd then sd else s1.sdMax);
        Outcome(s2.(serverPort := port, ready := true), sd)
      else
        Outcome(s1, 0)
  }

  /** doDisconnect: a distinct -1 when there is no server socket, 0 otherwise;
      the disconnect notice is sent only by a ready client, and the client is
      never ready afterwards. */
  function DisconnectStep(s: ClientState, env: DisconnectEnv): (r: Outcome)
    ensures r.rv == (if s.sdServer == INVALID_SOCKET then -1 else 0)
    ensures !r.state.ready && r.state.sdServer == INVALID_SOCKET
    ensures s.sdServer == INVALID_SOCKET ==> r.state == s.(ready := false, lastError := "Already disconnected")
    ensures s.sdServer != INVALID_SOCKET ==>
              r.state.trace == s.trace
                + (if s.ready then [Send(Packet(s.sdServer, NET_DISCONNECT_ID, s.lastMessage + 1, 0, [], NET_CB_VERSION))] else [])
                + [Close(s.sdServer, false)]
    ensures s.sdServer != INVALID_SOCKET ==>
              && r.state.lastMessage == s.lastMessage + (if s.ready then 1 else 0)
              && r.state.lastError == s.lastError + (if s.ready then "; Closing socket" else "")
              && r.state.conSet == Unregister(s.conSet, s.sdServer, env.close)
    ensures r.state.serverPort == s.serverPort && r.state.sdMax == s.sdMax
    // the connect timeout is never touched
    ensures r.state.(ready := s.ready, sdServer := s.sdServer, lastError := s.lastError, lastMessage := s.lastMessage,
                     conSet := s.conSet, trace := s.trace) == s
    ensures Coherent(s) ==> Coherent(r.state)
  {
    if s.sdServer != INVALID_SOCKET then
      var s1 := if s.ready
        then SendStep(s, NET_DISCONNECT_ID, 0, [], NET_CB_VERSION, env.sendReply).state.(lastError := s.lastError + "; Closing socket")
        else s;
      var c := CloseStep(s1, s1.sdServer, env.close);
      Outcome(c.state.(ready := false), 0)
    else
      Outcome(s.(lastError := "Already disconnected", ready := false), -1)
  }

  /** A disconnect after any disconnect reports "Already disconnected", and
      from then on repeating it changes nothing. */
  lemma DisconnectIsIdempotent(s: ClientState, e1: DisconnectEnv, e2: DisconnectEnv, e3: DisconnectEnv)
    ensures var second := DisconnectStep(DisconnectStep(s, e1).state, e2);
            && second.rv == -1
            && second.state.lastError == "Already disconnected"
            && DisconnectStep(second.state, e3) == second
  {
  }

  /** A second connect while ready leaves the existing connection untouched. */
  lemma ConnectWhileReadyKeepsConnection(s: ClientState, address: string, port: int, env: ConnectEnv)
    requires s.ready
    ensures var r := ConnectStep(s, address, port, env);
            && r.rv == -1 && r.state.ready
            && r.state.sdServer == s.sdServer && r.state.conSet == s.conSet
            && r.state.serverPort == s.serverPort && r.state.trace == s.trace
  {
  }

  /** One call on a netClient object, with the oracle answers it receives. */
  datatype ClientOp =
    | SetConnTimeoutOp(seconds: int, microsec: int)
    | DoConnectOp(address: string, port: int, lport: int, env: ConnectEnv)
    | CloseSocketOp(sd: int, closeReply: CloseReply)
    | DoDisconnectOp(denv: DisconnectEnv)
    | SendMessageOp(id: Short, len: Short, payload: seq<bv8>, version: Short, sendReply: int)

  function Apply(s: ClientState, op: ClientOp): ClientState
  {
    match op
    case SetConnTimeoutOp(sec, usec) => TimeoutStep(s, sec, usec)
    case DoConnectOp(address, port, _, env) => ConnectStep(s, address, port, env).state
    case CloseSocketOp(sd, reply) => CloseStep(s, sd, reply).state
    case DoDisconnectOp(denv) => DisconnectStep(s, denv).state
    case SendMessageOp(id, len, payload, version, reply) => SendStep(s, id, len, payload, version, reply).state
  }

  /** The state after a sequence of calls. */
  function Run(s: ClientState, ops: seq<ClientOp>): ClientState
    decreases |ops|
  {
    if ops == [] then s else Run(Apply(s, ops[0]), ops[1..])
  }

  /** Every sequence of calls keeps the client's invariant: whenever it is
      ready it holds one registered, valid server socket, and its sequence
      numbers only increase. */
  lemma {:induction false} RunKeepsCoherent(s: ClientState, ops: seq<ClientOp>)
    requires Coherent(s)
    ensures Coherent(Run(s, ops))
    decreases |ops|
  {
    if ops != [] {
      RunKeepsCoherent(Apply(s, ops[0]), ops[1..]);
    }
  }

  /** The call tears the connection down: a disconnect, or a close of the
      current server socket. */
  predicate TearsDown(s: ClientState, op: ClientOp)
  {
    op.DoDisconnectOp? || (op.CloseSocketOp? && op.sd == s.sdServer)
  }

  /** The call is a connect that takes the connected path. */
  predicate Connects(s: ClientState, op: ClientOp)
  {
    && op.DoConnectOp? && !s.ready
    && op.env.socketResult != INVALID_SOCKET && op.env.unblockResult >= 0
    && (op.env.numericAddress || op.env.hostFound)
    && WaitResult(op.env) > 0
  }

  /** One call leaves the client ready exactly when it was ready and the call
      did not tear the connection down, or the call connected. */
  lemma ApplyReady(s: ClientState, op: ClientOp)
    ensures Apply(s, op).ready <==> (s.ready && !TearsDown(s, op)) || Connects(s, op)
  {
  }

  /** Running one more call is applying it to the state the run left. */
  lemma {:induction false} RunSnoc(s: ClientState, ops: seq<ClientOp>, op: ClientOp)
    ensures Run(s, ops + [op]) == Apply(Run(s, ops), op)
    decreases |ops|
  {
    if ops != [] {
      assert (ops + [op])[1..] == ops[1..] + [op];
      RunSnoc(Apply(s, ops[0]), ops[1..], op);
    }
  }

  /** No call from index k on tears down the connection it finds. */
  ghost predicate Stands(s: ClientState, ops: seq<ClientOp>, k: nat)
  {
    forall j :: k <= j < |ops| ==> !TearsDown(Run(s, ops[..j]), ops[j])
  }

  /** A client is ready after a run exactly when the most recent connect that
      succeeded (or the initial connection) has not since been torn down by a
      disconnect or a close of the server socket. */
  lemma {:induction false} ReadyIffLastConnectStands(s: ClientState, ops: seq<ClientOp>)
    ensures Run(s, ops).ready <==>
              || (s.ready && Stands(s, ops, 0))
              || exists i :: 0 <= i < |ops| && Connects(Run(s, ops[..i]), ops[i]) && Stands(s, ops, i + 1)
    decreases |ops|
  {
    if ops == [] {
      assert Run(s, ops) == s;
    } else {
      var n := |ops|;
      var p, o := ops[..n - 1], ops[n - 1];
      assert ops == p + [o];
      RunSnoc(s, p, o);
      ReadyIffLastConnectStands(s, p);
      var t := Run(s, p);
      ApplyReady(t, o);
      assert ops[..n - 1] == p;
      forall j | 0 <= j < n - 1
        ensures ops[..j] == p[..j] && ops[j] == p[j]
      {
      }
      // extending a run by o keeps a tail standing exactly when o does not tear down
      forall k | 0 <= k <= n - 1
        ensures Stands(s, ops, k) <==> Stands(s, p, k) && !TearsDown(t, o)
      {
        if Stands(s, p, k) && !TearsDown(t, o) {
          forall j | k <= j < n
            ensures !TearsDown(Run(s, ops[..j]), ops[j])
          {
            if j < n - 1 {
              assert ops[..j] == p[..j];
            }
          }
        }
        if Stands(s, ops, k) {
          assert !TearsDown(Run(s, ops[..n - 1]), ops[n - 1]);
          forall j | k <= j < n - 1
            ensures !TearsDown(Run(s, p[..j]), p[j])
          {
            assert ops[..j] == p[..j];
            assert !TearsDown(Run(s, ops[..j]), ops[j]);
          }
        }
      }
      assert Stands(s, ops, n);
      if Run(s, ops).ready {
        if Connects(t, o) {
          assert Connects(Run(s, ops[..n - 1]), ops[n - 1]) && Stands(s, ops, n);
        } else if s.ready && Stands(s, p, 0) {
          assert Stands(s, ops, 0);
        } else {
          var i :| 0 <= i < |p| && Connects(Run(s, p[..i]), p[i]) && Stands(s, p, i + 1);
          assert ops[..i] == p[..i];
          assert Connects(Run(s, ops[..i]), ops[i]) && Stands(s, ops, i + 1);
        }
      }
    }
  }

  /** The state after sending each of `msgs` in turn. */
  function SendAll(s: ClientState, msgs: seq<Packet>, replies: seq<int>): ClientState
    requires |replies| == |msgs|
    decreases |msgs|
  {
    if msgs == [] then s
    else
      var m := msgs[0];
      SendAll(SendStep(s, m.id, m.length, m.payload, m.version, replies[0]).state, msgs[1..], replies[1..])
  }

  /** n messages sent in a row carry the sequence numbers lastMessage + 1 up
      to lastMessage + n, in that order, and nothing else is logged. */
  lemma {:induction false} SendAllNumbersConsecutively(s: ClientState, msgs: seq<Packet>, replies: seq<int>)
    requires |replies| == |msgs|
    ensures var t := SendAll(s, msgs, replies);
            && t.lastMessage == s.lastMessage + |msgs|
            && |t.trace| == |s.trace| + |msgs|
            && t.trace[..|s.trace|] == s.trace
            && forall k :: |s.trace| <= k < |t.trace| ==>
                 t.trace[k].Send? && t.trace[k].pkt.sequence == s.lastMessage + 1 + (k - |s.trace|)
    decreases |msgs|
  {
    if msgs != [] {
      var m := msgs[0];
      var s1 := SendStep(s, m.id, m.length, m.payload, m.version, replies[0]).state;
      SendAllNumbersConsecutively(s1, msgs[1..], replies[1..]);
      var t := SendAll(s1, msgs[1..], replies[1..]);
      assert t.trace[..|s1.trace|] == s1.trace;
      assert t.trace[..|s.trace|] == s1.trace[..|s.trace|];
      assert t.trace[|s.trace|] == s1.trace[|s.trace|];
    }
  }

  /** A netClient object. */
  class NetClient {
    var ready: bool
    var sdServer: int
    var serverPort: int
    var lastError: string
    var lastMessage: int
    var conSet: set<int>
    var sdMax: int
    var timeoutSec: int
    var timeoutUsec: int
    var trace: seq<Call>

    function State(): ClientState
      reads this
    {
      ClientState(ready, sdServer, serverPort, lastError, lastMessage, conSet, sdMax,
                  timeoutSec, timeoutUsec, trace)
    }

    ghost predicate Valid()
      reads this
    {
      Coherent(State())
    }

    /** netClient(): netbase(1), no server socket, port -1, a 3 s / 0 us
        connect timeout. */
    constructor ()
      ensures Valid()
      ensures State() == Initial(lastError, lastMessage, sdMax)
    {
      ready := false;
      conSet := {};
      trace := [];
      sdServer := INVALID_SOCKET;
      serverPort := -1;
      timeoutSec := 3;
      timeoutUsec := 0;
    }

    method SetConnTimeout(seconds: int, microsec: int) returns (ok: bool)
      modifies this
      ensures ok
      ensures State() == TimeoutStep(old(State()), seconds, microsec)
    {
      timeoutSec := seconds;
      timeoutUsec := microsec;
      ok := true;
    }

    method SendMessage(id: Short, len: Short, payload: seq<bv8>, version: Short, reply: int) returns (rv: int)
      modifies this
      ensures Outcome(State(), rv) == SendStep(old(State()), id, len, payload, version, reply)
      ensures old(Valid()) ==> Valid()
    {
      lastMessage := lastMessage + 1;
      trace := trace + [Send(Packet(sdServer, id, lastMessage, len, payload, version))];
      rv := reply;
    }

    method CloseSocket(sd: int, reply: CloseReply) returns (rv: int)
      modifies this
      ensures Outcome(State(), rv) == CloseStep(old(State()), sd, reply)
      ensures old(Valid()) ==> Valid()
    {
      if sd == sdServer {
        ready := false;
      }
      trace := trace + [Close(sd, ready)];
      conSet := Unregister(conSet, sd, reply);
      rv := reply.rv;
      if sd == sdServer {
        sdServer := INVALID_SOCKET;
      }
    }

    method DoConnect(serverAddress: string, port: int, lport: int, env: ConnectEnv) returns (rv: int)
      modifies this
      ensures Outcome(State(), rv) == ConnectStep(old(State()), serverAddress, port, env)
      ensures old(Valid()) ==> Valid()
    {
      if ready {
        lastError := "Already connected";
        return -1;
      }

      sdServer := env.socketResult;
      trace := trace + [Socket(sdServer)];
      if sdServer == INVALID_SOCKET {
        lastError := "Could not create socket";
        return -1;
      }

      if env.unblockResult < 0 {
        return -1;
      }

      if !env.numericAddress && !env.hostFound {
        lastError := "Unknown host " + CStr(serverAddress);
        var _ := CloseSocket(sdServer, env.close);
        return -1;
      }

      var r := env.connectResult;
      if r == SOCKET_ERROR && env.win32 && env.wouldBlock {
        r := env.selectResult;
        if r == 0 {
          lastError := "Timed out";
          return SOCKET_ERROR;
        }
      }

      if r == SOCKET_ERROR {
        lastError := "Could not connect to " + serverAddress;
        var _ := CloseSocket(sdServer, env.close);
        return SOCKET_ERROR;
      } else if r > 0 {
        conSet := conSet + {sdServer};
        if sdMax < sdServer {
          sdMax := sdServer;
        }
        serverPort := port;
        ready := true;
        return sdServer;
      }

      return 0;
    }

    method DoDisconnect(env: DisconnectEnv) returns (result: int)
      modifies this
      ensures Outcome(State(), result) == DisconnectStep(old(State()), env)
      ensures old(Valid()) ==> Valid()
    {
      result := 0;
      if sdServer != INVALID_SOCKET {
        if ready {
          var _ := SendMessage(NET_DISCONNECT_ID, 0, [], NET_CB_VERSION, env.sendReply);
          lastError := lastError + "; Closing socket";
        }
        var _ := CloseSocket(sdServer, env.close);
      } else {
        lastError := "Already disconnected";
        result := -1;
      }
      ready := false;
    }
  }
}
