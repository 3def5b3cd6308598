// The server listener (netserver, src/netserver.cpp): one listening socket,
// admission of accepted connections up to conMax, self-healing of the
// listener when accept fails, and dispatch of incoming packets to an
// overridable handler.
//
// As for the client, every operation is a function on the value ServerState
// together with the oracle answers of the calls it makes, and the class
// NetServer keeps the same fields and is proved to follow those functions.

module Server {
  import opened Engine

  /** size_t, the result type of the packet handlers, on a 64-bit build. */
  type SizeT = x: int | 0 <= x < 0x1_0000_0000_0000_0000

  /** `~0` converted to size_t: every bit set. */
  const ALL_ONES: SizeT := 0xFFFF_FFFF_FFFF_FFFF

  /** The fields of a netserver object that these operations read or write,
      including the ones inherited from netbase (ready, conMax, conSet,
      sdMax) and the log of calls made to the engine. */
  datatype ServerState = ServerState(
    ready: bool,
    sdListen: int,
    serverPort: Short,
    conMax: nat,
    conSet: set<int>,
    sdMax: int,
    trace: seq<Call>)

  /** A new state together with the operation's return value. */
  datatype Outcome = Outcome(state: ServerState, rv: int)

  /** The oracle answers of the calls openPort makes. */
  datatype OpenEnv = OpenEnv(
    socketResult: int,   // socket()
    unblockResult: int,  // netbase::unblockSocket
    bindResult: int,     // bind()
    listenResult: int,   // listen(sd, conMax)
    close: CloseReply)   // netbase::closeSocket, if the socket is released

  /** The oracle answers of the calls acceptConnection makes, including those
      of the openPort that restarts the listener. */
  datatype AcceptEnv = AcceptEnv(
    acceptResult: int,   // accept() on sdListen
    close: CloseReply,   // netbase::closeSocket of the broken listener
    reopen: OpenEnv)     // the calls made by openPort(serverPort)

  /** The oracle answers of the calls checkPort makes. */
  datatype CheckEnv = CheckEnv(
    selectResult: int,   // select() on the listening socket alone
    listenIsSet: bool,   // FD_ISSET(sdListen, &listenSet)
    accept: AcceptEnv)

  /** The admission invariant: no more accepted connections than conMax. */
  ghost predicate WithinLimit(s: ServerState)
  {
    |s.conSet| <= s.conMax
  }

  /** A listening server holds a valid listening socket no greater than sdMax. */
  ghost predicate Listening(s: ServerState)
  {
    s.ready ==> s.sdListen != INVALID_SOCKET && s.sdListen <= s.sdMax
  }

  /** The state right after `netserver(max)`; sdMax keeps whatever netbase's
      constructor gave it. */
  function Initial(max: nat, sdMax: int): (s: ServerState)
    ensures !s.ready && s.sdListen == INVALID_SOCKET && s.serverPort == -1
    ensures s.conMax == max && s.conSet == {} && s.trace == []
    ensures WithinLimit(s) && Listening(s)
  {
    ServerState(false, INVALID_SOCKET, -1, max, {}, sdMax, [])
  }

  /** closeSocket(sd): the engine closes sd; sdListen is cleared exactly when
      it is the descriptor closed. The ready flag is left as it was. */
  function CloseStep(s: ServerState, sd: int, reply: CloseReply): (r: Outcome)
    ensures sd == s.sdListen ==> r.state.sdListen == INVALID_SOCKET
    ensures sd != s.sdListen ==> r.state.sdListen == s.sdListen
    ensures r.state.ready == s.ready
    ensures r.state.trace == s.trace + [Close(sd, s.ready)]
    ensures r.state.conSet == Unregister(s.conSet, sd, reply)
    ensures r.state.(sdListen := s.sdListen, conSet := s.conSet, trace := s.trace) == s
    ensures r.rv == reply.rv
    ensures WithinLimit(s) ==> WithinLimit(r.state)
  {
    var s1 := s.(conSet := Unregister(s.conSet, sd, reply), trace := s.trace + [Close(sd, s.ready)]);
    Outcome(if sd == s.sdListen then s1.(sdListen := INVALID_SOCKET) else s1, reply.rv)
  }

  /** All four setup calls succeed. */
  predicate OpenSucceeds(env: OpenEnv)
  {
    env.socketResult != INVALID_SOCKET && env.unblockResult >= 0
    && env.bindResult != -1 && env.listenResult != -1
  }

  /** openPort(port): ready is cleared first; a failure of socket, unblock,
      bind or listen answers -1 and leaves the server not ready; success
      records the socket and the port and answers the socket. */
  function OpenStep(s: ServerState, port: Short, env: OpenEnv): (r: Outcome)
    ensures r.state.ready <==> OpenSucceeds(env)
    ensures OpenSucceeds(env) ==>
              && r.rv == r.state.sdListen == env.socketResult
              && r.state.serverPort == port
              && r.state.sdMax >= env.socketResult
              && r.state.sdMax == (if s.sdMax < env.socketResult then env.socketResult else s.sdMax)
              && r.state.conSet == s.conSet
              // an earlier listening socket is replaced without being closed
              && r.state.trace == s.trace + [Socket(env.socketResult)]
    ensures !OpenSucceeds(env) ==>
              && r.rv == -1
              && r.state.serverPort == s.serverPort
              && r.state.sdMax == s.sdMax
    // bind or listen failed: the new socket is closed, with ready already false
    ensures env.socketResult != INVALID_SOCKET && env.unblockResult >= 0
            && (env.bindResult == -1 || env.listenResult == -1) ==>
              && r.state.trace == s.trace + [Socket(env.socketResult), Close(env.socketResult, false)]
              && r.state.conSet == Unregister(s.conSet, env.socketResult, env.close)
              && r.state.sdListen == (if env.socketResult == s.sdListen then INVALID_SOCKET else s.sdListen)
    // socket or unblock failed: nothing is closed
    ensures (env.socketResult == INVALID_SOCKET || env.unblockResult < 0) ==>
              && r.state.trace == s.trace + [Socket(env.socketResult)]
              && r.state.sdListen == s.sdListen && r.state.conSet == s.conSet
    // conMax is never touched
    ensures r.state.(ready := s.ready, sdListen := s.sdListen, serverPort := s.serverPort, conSet := s.conSet,
                     sdMax := s.sdMax, trace := s.trace) == s
    ensures Listening(r.state)
    ensures WithinLimit(s) ==> WithinLimit(r.state)
  {
    var sd := env.socketResult;
    var s0 := s.(ready := false, trace := s.trace + [Socket(sd)]);
    if sd == INVALID_SOCKET then
      Outcome(s0, -1)
    else if env.unblockResult < 0 then
      Outcome(s0, -1)
    else if env.bindResult == -1 then
      Outcome(CloseStep(s0, sd, env.close).state, -1)
    else if env.listenResult == -1 then
      Outcome(CloseStep(s0, sd, env.close).state, -1)
    else
      var s1 := s0.(sdMax := if s0.sdMax < sd then sd else s0.sdMax);
      Outcome(s1.(sdListen := sd, serverPort := port, ready := true), sd)
  }

  /** closePort: ready is cleared before the listening socket is closed, and
      the server ends neither ready nor holding a listening socket. */
  function ClosePortStep(s: ServerState, reply: CloseReply): (r: ServerState)
    ensures !r.ready && r.sdListen == INVALID_SOCKET
    ensures s.sdListen != INVALID_SOCKET ==>
              r.trace == s.trace + [Close(s.sdListen, false)] && r.conSet == Unregister(s.conSet, s.sdListen, reply)
    ensures s.sdListen == INVALID_SOCKET ==> r.trace == s.trace && r.conSet == s.conSet
    ensures r.serverPort == s.serverPort && r.conMax == s.conMax && r.sdMax == s.sdMax
    ensures Listening(r)
    ensures WithinLimit(s) ==> WithinLimit(r)
  {
    var s1 := s.(ready := false);
    var s2 := if s1.sdListen != INVALID_SOCKET then CloseStep(s1, s1.sdListen, reply).state else s1;
    s2.(sdListen := INVALID_SOCKET)
  }

  /** The state once a failed accept has closed the listener, if it had one. */
  function DropListener(s: ServerState, reply: CloseReply): ServerState
  {
    if s.sdListen != INVALID_SOCKET then CloseStep(s, s.sdListen, reply).state else s
  }

  /** acceptConnection: a failed accept closes the listener and reopens it on
      the same port, answering -1 either way; a connection over the limit is
      refused and changes nothing; one within the limit is admitted and
      answered. */
  function AcceptStep(s: ServerState, env: AcceptEnv): (r: Outcome)
    // accept failed: self-heal on the same port
    ensures env.acceptResult == INVALID_SOCKET ==>
              && r.rv == -1
              && r == Outcome(OpenStep(DropListener(s, env.close), s.serverPort, env.reopen).state, -1)
              && r.state.serverPort == s.serverPort
              && (r.state.ready <==> OpenSucceeds(env.reopen))
              && s.trace + (if s.sdListen != INVALID_SOCKET then [Close(s.sdListen, s.ready)] else [])
                   + [Socket(env.reopen.socketResult)] <= r.state.trace
    // over the limit: refused, nothing changes (the connection is not closed)
    ensures env.acceptResult != INVALID_SOCKET && |s.conSet| >= s.conMax ==> r == Outcome(s, -1)
    // within the limit: exactly the new descriptor is added, and answered
    ensures env.acceptResult != INVALID_SOCKET && |s.conSet| < s.conMax ==>
              r == Outcome(s.(conSet := s.conSet + {env.acceptResult}), env.acceptResult)
    // a successful accept never evicts an existing connection
    ensures env.acceptResult != INVALID_SOCKET ==> s.conSet <= r.state.conSet
    ensures r.rv != -1 ==> r.rv in r.state.conSet
    ensures r.state.conMax == s.conMax
    ensures WithinLimit(s) ==> WithinLimit(r.state)
    ensures Listening(s) ==> Listening(r.state)
  {
    var connection := env.acceptResult;
    if connection == INVALID_SOCKET then
      var s1 := DropListener(s, env.close);
      Outcome(OpenStep(s1, s1.serverPort, env.reopen).state, -1)
    else if |s.conSet| >= s.conMax then
      Outcome(s, -1)
    else
      Outcome(s.(conSet := s.conSet + {connection}), connection)
  }

  /** checkPort: after a select on the listening socket, a pending connection
      is accepted, and the incoming-packet callback is registered only when
      acceptConnection answered a non-negative descriptor. The select result
      is answered. */
  function CheckStep(s: ServerState, env: CheckEnv): (r: Outcome)
    ensures r.rv == env.selectResult
    ensures env.selectResult > 0 && env.listenIsSet ==>
              var a := AcceptStep(s, env.accept);
              && r.state.(trace := a.state.trace) == a.state
              && r.state.trace == a.state.trace + (if a.rv >= 0 then [AddCallback] else [])
    ensures !(env.selectResult > 0 && env.listenIsSet) ==> r.state == s
    ensures r.state.conMax == s.conMax
    ensures WithinLimit(s) ==> WithinLimit(r.state)
    ensures Listening(s) ==> Listening(r.state)
  {
    if env.selectResult > 0 && env.listenIsSet then
      var a := AcceptStep(s, env.accept);
      var s1 := if a.rv < 0 then a.state else a.state.(trace := a.state.trace + [AddCallback]);
      Outcome(s1, env.selectResult)
    else
      Outcome(s, env.selectResult)
  }

  /** Closing the listening socket with closeSocket, rather than closePort,
      keeps the server ready with no listening socket: unlike the client's
      closeSocket, the server's does not clear the ready flag. */
  lemma CloseSocketOfListenerKeepsReady(s: ServerState, reply: CloseReply)
    requires s.ready && s.sdListen != INVALID_SOCKET
    ensures var r := CloseStep(s, s.sdListen, reply).state;
            r.ready && r.sdListen == INVALID_SOCKET && !Listening(r)
  {
  }

  /** How a packet handler is chosen: netserver's own handleIncoming, or the
      override a derived class supplies. */
  datatype Handler = DefaultHandler | Override(handle: Packet -> SizeT)

  /** The `cb_data` handed to cb_incoming: NULL, or the server it dispatches to. */
  datatype Context = Null | ServerContext(handler: Handler)

  /** handleIncoming: the default only logs the packet and answers 0. */
  function HandleIncoming(h: Handler, pkt: Packet): (r: SizeT)
    ensures h.DefaultHandler? ==> r == 0
    ensures h.Override? ==> r == h.handle(pkt)
  {
    match h
    case DefaultHandler => 0
    case Override(handle) => handle(pkt)
  }

  /** cb_incoming: a NULL context answers all bits set, any other context
      answers what its server's handleIncoming answers. */
  function CbIncoming(pkt: Packet, ctx: Context): (r: SizeT)
    ensures ctx.Null? ==> r == ALL_ONES
    ensures ctx.ServerContext? ==> r == HandleIncoming(ctx.handler, pkt)
  {
    match ctx
    case Null => ALL_ONES
    case ServerContext(h) => HandleIncoming(h, pkt)
  }

  /** With the default handler, cb_incoming's answer tells a NULL context
      (all bits set) from a real one (0). */
  lemma DefaultDispatchSeparatesNull(pkt: Packet, ctx: Context)
    requires ctx.Null? || ctx.handler.DefaultHandler?
    ensures CbIncoming(pkt, ctx) == (if ctx.Null? then ALL_ONES else 0)
    ensures CbIncoming(pkt, ctx) != 0 <==> ctx.Null?
  {
  }

  /** One call on a netserver object, with the oracle answers it receives. */
  datatype ServerOp =
    | OpenPortOp(port: Short, openEnv: OpenEnv)
    | ClosePortOp(portReply: CloseReply)
    | CloseSocketOp(sd: int, closeReply: CloseReply)
    | CheckPortOp(checkEnv: CheckEnv)
    | AcceptConnectionOp(acceptEnv: AcceptEnv)

  function Apply(s: ServerState, op: ServerOp): ServerState
  {
    match op
    case OpenPortOp(port, env) => OpenStep(s, port, env).state
    case ClosePortOp(reply) => ClosePortStep(s, reply)
    case CloseSocketOp(sd, reply) => CloseStep(s, sd, reply).state
    case CheckPortOp(env) => CheckStep(s, env).state
    case AcceptConnectionOp(env) => AcceptStep(s, env).state
  }

  /** The state after a sequence of calls. */
  function Run(s: ServerState, ops: seq<ServerOp>): ServerState
    decreases |ops|
  {
    if ops == [] then s else Run(Apply(s, ops[0]), ops[1..])
  }

  /** Every sequence of calls keeps the accepted connections within conMax,
      and never changes conMax. */
  lemma {:induction false} RunKeepsWithinLimit(s: ServerState, ops: seq<ServerOp>)
    requires WithinLimit(s)
    ensures WithinLimit(Run(s, ops))
    ensures Run(s, ops).conMax == s.conMax
    decreases |ops|
  {
    if ops != [] {
      RunKeepsWithinLimit(Apply(s, ops[0]), ops[1..]);
    }
  }

  /** closeSocket of any descriptor other than the listening one keeps
      "ready implies a valid listening socket". */
  lemma CloseOtherKeepsListening(s: ServerState, sd: int, reply: CloseReply)
    requires Listening(s)
    requires sd != s.sdListen
    ensures Listening(CloseStep(s, sd, reply).state)
  {
  }

  /** The call closes, through closeSocket, the listening socket of a ready
      server. */
  predicate ClosesLiveListener(s: ServerState, op: ServerOp)
  {
    op.CloseSocketOp? && s.ready && op.sd == s.sdListen
  }

  /** No call in the run closes the listening socket of a ready server
      through closeSocket. */
  ghost predicate KeepsListener(s: ServerState, ops: seq<ServerOp>)
    decreases |ops|
  {
    ops == [] || (!ClosesLiveListener(s, ops[0]) && KeepsListener(Apply(s, ops[0]), ops[1..]))
  }

  /** Every sequence of calls that never closes the listening socket of a
      ready server through closeSocket keeps "ready implies a valid listening
      socket". */
  lemma {:induction false} RunKeepsListening(s: ServerState, ops: seq<ServerOp>)
    requires Listening(s)
    requires KeepsListener(s, ops)
    ensures Listening(Run(s, ops))
    decreases |ops|
  {
    if ops != [] {
      RunKeepsListening(Apply(s, ops[0]), ops[1..]);
    }
  }

  /** The call answers a connection accepted by the operating system. */
  predicate AcceptSucceeds(op: ServerOp)
  {
    || (op.AcceptConnectionOp? && op.acceptEnv.acceptResult != INVALID_SOCKET)
    || (op.CheckPortOp? && op.checkEnv.accept.acceptResult != INVALID_SOCKET)
  }

  /** Over any run of accepts that the operating system granted, admitted or
      refused, no existing connection is ever evicted. */
  lemma {:induction false} AdmissionNeverEvicts(s: ServerState, ops: seq<ServerOp>)
    requires forall i :: 0 <= i < |ops| ==> AcceptSucceeds(ops[i])
    ensures s.conSet <= Run(s, ops).conSet
    decreases |ops|
  {
    if ops != [] {
      AdmissionNeverEvicts(Apply(s, ops[0]), ops[1..]);
    }
  }

  /** A netserver object. */
  class NetServer {
    var ready: bool
    var sdListen: int
    var serverPort: Short
    var conMax: nat
    var conSet: set<int>
    var sdMax: int
    var trace: seq<Call>

    function State(): ServerState
      reads this
    {
      ServerState(ready, sdListen, serverPort, conMax, conSet, sdMax, trace)
    }

    ghost predicate Valid()
      reads this
    {
      WithinLimit(State())
    }

    /** netserver(max): netbase(max), no listening socket, port -1. */
    constructor (max: nat)
      ensures Valid() && Listening(State())
      ensures State() == Initial(max, sdMax)
    {
      ready := false;
      conMax := max;
      conSet := {};
      trace := [];
      serverPort := -1;
      sdListen := INVALID_SOCKET;
    }

    method CloseSocket(sd: int, reply: CloseReply) returns (rv: int)
      modifies this
      ensures Outcome(State(), rv) == CloseStep(old(State()), sd, reply)
      ensures old(Valid()) ==> Valid()
    {
      trace := trace + [Close(sd, ready)];
      conSet := Unregister(conSet, sd, reply);
      rv := reply.rv;
      if sd == sdListen {
        sdListen := INVALID_SOCKET;
      }
    }

    method OpenPort(port: Short, env: OpenEnv) returns (rv: int)
      modifies this
      ensures Outcome(State(), rv) == OpenStep(old(State()), port, env)
      ensures old(Valid()) ==> Valid()
      ensures Listening(State())
    {
      ready := false;

      var sd := env.socketResult;
      trace := trace + [Socket(sd)];
      if sd == INVALID_SOCKET {
        return -1;
      }

      if env.unblockResult < 0 {
        return -1;
      }

      if env.bindResult == -1 {
        var _ := CloseSocket(sd, env.close);
        return -1;
      }

      if env.listenResult == -1 {
        var _ := CloseSocket(sd, env.close);
        return -1;
      }

      if sdMax < sd {
        sdMax := sd;
      }
      sdListen := sd;
      serverPort := port;
      ready := true;
      return sd;
    }

    method ClosePort(reply: CloseReply)
      modifies this
      ensures State() == ClosePortStep(old(State()), reply)
      ensures old(Valid()) ==> Valid()
      ensures !ready && sdListen == INVALID_SOCKET
    {
      ready := false;
      if sdListen != INVALID_SOCKET {
        var _ := CloseSocket(sdListen, reply);
      }
      sdListen := INVALID_SOCKET;
    }

    method AcceptConnection(env: AcceptEnv) returns (rv: int)
      modifies this
      ensures Outcome(State(), rv) == AcceptStep(old(State()), env)
      ensures old(Valid()) ==> Valid()
    {
      var connection := env.acceptResult;
      if connection == INVALID_SOCKET {
        if sdListen != INVALID_SOCKET {
          var _ := CloseSocket(sdListen, env.close);
        }
        var _ := OpenPort(serverPort, env.reopen);
        return -1;
      }

      if |conSet| >= conMax {
        return -1;
      }

      conSet := conSet + {connection};
      return connection;
    }

    method CheckPort(env: CheckEnv) returns (rv: int)
      modifies this
      ensures Outcome(State(), rv) == CheckStep(old(State()), env)
      ensures old(Valid()) ==> Valid()
    {
      rv := env.selectResult;
      // a select error (SOCKET_ERROR) or a timeout (0) accepts nothing
      if rv > 0 && env.listenIsSet {
        var connection := AcceptConnection(env.accept);
        if connection >= 0 {
          trace := trace + [AddCallback];
        }
      }
    }
  }
}
