/** ListenAndForward with the ListenAndForwardTCP overrides: configuration,
    the lazily created listening socket, teardown, kill, and the factories for
    the two ends of a forwarded connection. */
module Engine {
  import opened Errors
  import opened Sockets
  import Connections

  /** The class being instantiated: the abstract base, or the TCP engine. */
  datatype Kind = BaseEngine | TcpEngine

  /** What getsockname() reports for a bound listening socket. */
  datatype SockName =
    | Inet(host: string, port: int)
    | Inet6(host: string, port: int, flowInfo: int, scopeId: int)

  /** getsockname()[:2]: the first two fields of the bound name. */
  function FirstTwo(n: SockName): Address {
    Address(n.host, n.port)
  }

  /** The operating system as the engine sees it: the name a bind of the
      configured listen address yields, or None when the bind fails. */
  datatype Os = Os(bind: Option<SockName>)

  /** A bound, listening server socket; `serial` tells instances apart. */
  datatype ServerSocket = ServerSocket(serial: nat, name: Address, backlog: int)

  /** The log_data hook: the base class's no-op, or
      functools.partial(callback, engine). */
  datatype Hook = Quiet | Partial(callback: nat)

  /** A keyword argument as passed to the constructor. */
  datatype Keyword = Absent | NoneGiven | Callable(id: nat)

  datatype Options = Options(backlog: Option<int>, logData: Keyword, logDataCallback: Keyword)

  const DEFAULT_BACKLOG: int := 5

  datatype Engine = Engine(
    myAddress: Address,             // _my_address
    dest: Address,                  // the destination, fixed at construction
    running: bool,
    server: Option<ServerSocket>,   // the memoized server socket
    backlog: Option<int>,           // None once deleted after listen()
    stubbed: bool,                  // get_server_socket replaced by the None-returning stub
    addressMemo: bool,              // get_my_address replaced by a direct lookup
    hook: Hook,
    created: nat,                   // server socket objects created
    closed: nat)                    // server socket close() calls

  /** The states the lifecycle operations keep the engine in. */
  predicate Valid(e: Engine) {
    && e.closed <= 1
    && (e.closed == 1 <==> e.stubbed)
    && (e.stubbed ==> e.server.Some?)
    && (e.server.Some? <==> e.backlog.None?)
    && (e.addressMemo ==> e.server.Some?)
    && (e.server.Some? ==> e.myAddress == e.server.value.name && e.server.value.serial < e.created)
  }

  /** Which hook the TCP constructor installs: `log_data` wins over
      `log_data_callback` whenever it is passed at all, even as None, and a
      falsy choice leaves the no-op in place. */
  function SelectHook(o: Options): (h: Hook)
    ensures o.logData.Callable? ==> h == Partial(o.logData.id)
    ensures o.logData == NoneGiven ==> h == Quiet
    ensures o.logData == Absent && o.logDataCallback.Callable? ==> h == Partial(o.logDataCallback.id)
    ensures o.logData == Absent && !o.logDataCallback.Callable? ==> h == Quiet
  {
    var chosen := if o.logData != Absent then o.logData else o.logDataCallback;
    if chosen.Callable? then Partial(chosen.id) else Quiet
  }

  /** Constructing an engine: the abstract base refuses; the TCP engine
      starts stopped, with no server socket and the chosen backlog and hook. */
  function New(kind: Kind, listenOn: Address, dest: Address, o: Options): (r: Result<Engine>)
    ensures r.Err? <==> kind == BaseEngine
    ensures r.Err? ==> r.error == TypeError
    ensures r.Ok? ==> Valid(r.value) && !r.value.running && r.value.server.None? && !r.value.stubbed
    ensures r.Ok? ==> r.value.created == 0 && r.value.closed == 0
    ensures r.Ok? ==> r.value.myAddress == listenOn && r.value.dest == dest && r.value.hook == SelectHook(o)
    ensures r.Ok? ==> r.value.backlog == Some(if o.backlog.Some? then o.backlog.value else DEFAULT_BACKLOG)
  {
    if kind == BaseEngine then Err(TypeError)
    else
      var backlog := if o.backlog.Some? then o.backlog.value else DEFAULT_BACKLOG;
      Ok(Engine(listenOn, dest, false, None, Some(backlog), false, false, SelectHook(o), 0, 0))
  }

  /** An engine-changing operation's new state and what it returned or raised. */
  datatype Got<+T> = Got(engine: Engine, result: Result<T>)

  /** The fields no lifecycle operation touches. */
  predicate Keeps(e: Engine, e': Engine) {
    e'.dest == e.dest && e'.hook == e.hook
  }

  /** get_server_socket(): the stub returns None after shutdown; otherwise
      the first call creates, binds and listens on one socket and records its
      bound address, and later calls return that same socket. */
  function GetServerSocket(e: Engine, os: Os): (r: Got<Option<ServerSocket>>)
    ensures Keeps(e, r.engine) && r.engine.running == e.running && r.engine.closed == e.closed
    ensures r.engine.stubbed == e.stubbed && r.engine.addressMemo == e.addressMemo
    ensures e.stubbed ==> r == Got(e, Ok(None))
    ensures !e.stubbed && e.server.Some? ==> r == Got(e, Ok(e.server))
    ensures !e.stubbed && e.server.None? && e.backlog.Some? ==>
              && r.engine.created == e.created + 1
              && (r.result.Ok? <==> os.bind.Some?)
              && (os.bind.Some? ==>
                    && r.result.value == Some(ServerSocket(e.created, FirstTwo(os.bind.value), e.backlog.value))
                    && r.engine.server == r.result.value
                    && r.engine.myAddress == FirstTwo(os.bind.value)
                    && r.engine.backlog.None?)
    ensures !e.stubbed && e.server.None? && e.backlog.Some? && os.bind.None? ==>
              && r.result == Err(SocketError) && r.engine.server.None?
              && r.engine.backlog == e.backlog && r.engine.myAddress == e.myAddress
    ensures r.result.Ok? && r.result.value.Some? ==> r.engine.server == r.result.value
    ensures Valid(e) ==> Valid(r.engine)
    ensures e.server.Some? ==> r.engine.server == e.server
  {
    if e.stubbed then Got(e, Ok(None))
    else if e.server.Some? then Got(e, Ok(e.server))
    else if e.backlog.None? then Got(e, Err(AttributeError))
    else
      var e1 := e.(created := e.created + 1);
      match os.bind
      case None => Got(e1, Err(SocketError))
      case Some(n) =>
        var sock := ServerSocket(e.created, FirstTwo(n), e.backlog.value);
        Got(e1.(server := Some(sock), backlog := None, myAddress := FirstTwo(n)), Ok(Some(sock)))
  }

  /** Once get_server_socket has answered, every later call answers the same
      and changes nothing. */
  lemma GetServerSocketMemoized(e: Engine, os: Os)
    requires Valid(e) && GetServerSocket(e, os).result.Ok?
    ensures GetServerSocket(GetServerSocket(e, os).engine, os)
              == Got(GetServerSocket(e, os).engine, GetServerSocket(e, os).result)
  {
  }

  /** __shutdown(): fetches the server socket (creating it if need be) and,
      if there is one, swaps the getter for the stub and closes the socket. */
  function Shutdown(e: Engine, os: Os): (r: Got<()>)
    ensures Keeps(e, r.engine) && r.engine.running == e.running
    ensures e.stubbed ==> r == Got(e, Ok(()))
    ensures Valid(e) ==> Valid(r.engine)
    ensures Valid(e) && r.result.Ok? ==> r.engine.stubbed && r.engine.closed == 1
    ensures r.result.Err? ==> !r.engine.stubbed && r.engine.closed == e.closed
    ensures Valid(e) && (e.server.Some? || os.bind.Some?) ==> r.result.Ok?
    ensures e.server.Some? ==> r.engine.server == e.server
    ensures Valid(e) && !CanKill(e, os) ==> r.result == Err(SocketError) && !CanKill(r.engine, os)
  {
    var g := GetServerSocket(e, os);
    if g.result.Err? then Got(g.engine, Err(g.result.error))
    else if g.result.value.None? then Got(g.engine, Ok(()))
    else Got(g.engine.(stubbed := true, closed := g.engine.closed + 1), Ok(()))
  }

  /** kill(): shutdown, then clear the running flag; if the shutdown raises,
      the flag is left as it was. */
  function Kill(e: Engine, os: Os): (r: Got<()>)
    ensures Keeps(e, r.engine)
    ensures Valid(e) ==> Valid(r.engine)
    ensures r.result.Ok? ==> !r.engine.running
    ensures Valid(e) && r.result.Ok? ==> r.engine.stubbed && r.engine.closed == 1
    ensures r.result.Err? ==> r.engine.running == e.running && !r.engine.stubbed
    ensures Valid(e) && (e.server.Some? || os.bind.Some?) ==> r.result.Ok?
    ensures e.server.Some? ==> r.engine.server == e.server
    ensures Valid(e) && !CanKill(e, os) ==> r.result == Err(SocketError) && r.engine.running == e.running && !CanKill(r.engine, os)
  {
    var s := Shutdown(e, os);
    if s.result.Err? then s else Got(s.engine.(running := false), Ok(()))
  }

  /** Whether a kill() of this engine returns normally. */
  predicate CanKill(e: Engine, os: Os) {
    e.stubbed || e.server.Some? || os.bind.Some?
  }

  /** The stub makes a second kill a no-op: the socket is closed once. */
  lemma KillTwice(e: Engine, os: Os)
    requires Valid(e) && Kill(e, os).result.Ok?
    ensures Kill(Kill(e, os).engine, os) == Kill(e, os)
    ensures Kill(e, os).engine.closed == 1
  {
  }

  /** get_my_address(): makes sure the server socket exists, then reports
      _my_address, directly on every later call. */
  function GetMyAddress(e: Engine, os: Os): (r: Got<Address>)
    ensures Keeps(e, r.engine) && r.engine.running == e.running && r.engine.closed == e.closed
    ensures Valid(e) ==> Valid(r.engine)
    ensures Valid(e) && r.result.Ok? ==> r.engine.server.Some? && r.result.value == r.engine.server.value.name
    ensures Valid(e) && !e.stubbed && e.server.None? && os.bind.Some? ==>
              r.result == Ok(FirstTwo(os.bind.value))
  {
    if e.addressMemo then Got(e, Ok(e.myAddress))
    else
      var g := GetServerSocket(e, os);
      if g.result.Err? then Got(g.engine, Err(g.result.error))
      else Got(g.engine.(addressMemo := true), Ok(g.engine.myAddress))
  }

  /** After one successful get_my_address, later calls answer the same
      address without touching anything. */
  lemma GetMyAddressMemoized(e: Engine, os: Os)
    requires Valid(e) && GetMyAddress(e, os).result.Ok?
    ensures GetMyAddress(GetMyAddress(e, os).engine, os) == GetMyAddress(e, os)
  {
  }

  /** What accept() on the server socket does. `KilledWhileWaiting`: another
      thread's kill() runs while accept() blocks, and the closed socket makes
      accept() raise. */
  datatype AcceptOutcome = Incoming(sock: Socket, peer: Address) | AcceptFails | KilledWhileWaiting

  /** `self.get_server_socket().accept`: the socket accept() is called on,
      or what raises before the call: get_server_socket's own error, or
      AttributeError when it hands out the shutdown stub's None. */
  function AcceptOn(e: Engine, os: Os): (r: Got<ServerSocket>)
    ensures r.engine == GetServerSocket(e, os).engine
    ensures r.result.Ok? <==> GetServerSocket(e, os).result.Ok? && GetServerSocket(e, os).result.value.Some?
    ensures r.result.Ok? ==> r.engine.server == Some(r.result.value) && !r.engine.stubbed
    ensures e.stubbed ==> r == Got(e, Err(AttributeError))
    ensures Valid(e) && !e.stubbed && CanKill(e, os) ==> r.result.Ok?
    ensures Valid(e) && !CanKill(e, os) ==> r.result == Err(SocketError)
  {
    var g := GetServerSocket(e, os);
    if g.result.Err? then Got(g.engine, Err(g.result.error))
    else if g.result.value.None? then Got(g.engine, Err(AttributeError))
    else Got(g.engine, Ok(g.result.value.value))
  }

  /** get_new_source_connection(): a TCPConnection around the accepted socket
      and its address; once shut down, the stub's None has no accept(). */
  function NewSource(e: Engine, os: Os, a: AcceptOutcome): (r: Got<Connections.Connection>)
    ensures Keeps(e, r.engine)
    ensures Valid(e) ==> Valid(r.engine)
    ensures e.stubbed ==> r == Got(e, Err(AttributeError))
    ensures r.result.Ok? <==> GetServerSocket(e, os).result == Ok(r.engine.server) && r.engine.server.Some? && a.Incoming?
    ensures r.result.Ok? ==> r.result.value == Connections.TcpConnection(a.sock, a.peer)
    ensures r.result.Ok? ==> r.engine == GetServerSocket(e, os).engine
    ensures !a.KilledWhileWaiting? ==> r.engine.running == e.running
    ensures Valid(e) && CanKill(e, os) ==> CanKill(r.engine, os)
    ensures Valid(e) && !CanKill(e, os) ==> r.result == Err(SocketError) && r.engine.running == e.running && !CanKill(r.engine, os)
  {
    var g := AcceptOn(e, os);
    if g.result.Err? then Got(g.engine, Err(g.result.error))
    else match a
      case Incoming(s, p) => Got(g.engine, Ok(Connections.TcpConnection(s, p)))
      case AcceptFails => Got(g.engine, Err(SocketError))
      case KilledWhileWaiting => Got(Kill(g.engine, os).engine, Err(SocketError))
  }

  /** What connect() to the destination does. */
  datatype ConnectOutcome = Connected(sock: Socket) | Refused

  /** get_new_destination_connection(): a TCPConnection to the fixed
      destination, labelled with that address. */
  function NewDestination(e: Engine, c: ConnectOutcome): (r: Result<Connections.Connection>)
    ensures r.Ok? <==> c.Connected?
    ensures r.Err? ==> r.error == SocketError
    ensures r.Ok? ==> r.value.peer == e.dest && r.value.sock == c.sock && Connections.CanReceiveMore(r.value)
  {
    match c
    case Connected(s) => Ok(Connections.TcpConnection(s, e.dest))
    case Refused => Err(SocketError)
  }

  /** Leaving a `with` block: kill() always runs; its own exception wins,
      otherwise the block's pending exception propagates. */
  function Exit(e: Engine, os: Os, pending: Option<Error>): (r: Got<()>)
    ensures r.engine == Kill(e, os).engine
    ensures r.result.Ok? <==> pending.None? && Kill(e, os).result.Ok?
    ensures Kill(e, os).result.Ok? && pending.Some? ==> r.result == Err(pending.value)
  {
    var k := Kill(e, os);
    if k.result.Err? then k
    else if pending.Some? then Got(k.engine, Err(pending.value))
    else k
  }

  /** The lifecycle calls a client can make on an engine. */
  datatype Call = KillCall | ExitCall | AddressCall | SocketCall

  function Apply(e: Engine, os: Os, c: Call): Engine {
    match c
    case KillCall => Kill(e, os).engine
    case ExitCall => Exit(e, os, None).engine
    case AddressCall => GetMyAddress(e, os).engine
    case SocketCall => GetServerSocket(e, os).engine
  }

  function Run(e: Engine, os: Os, calls: seq<Call>): Engine
    decreases |calls|
  {
    if calls == [] then e else Run(Apply(e, os, calls[0]), os, calls[1..])
  }

  /** Across any sequence of lifecycle calls the server socket is closed at
      most once, is created successfully at most once, and once closed stays
      closed and is never replaced. */
  lemma {:induction false} RunClosesAtMostOnce(e: Engine, os: Os, calls: seq<Call>)
    requires Valid(e)
    ensures Valid(Run(e, os, calls)) && Run(e, os, calls).closed <= 1
    ensures e.server.Some? ==> Run(e, os, calls).server == e.server
    ensures e.stubbed ==> Run(e, os, calls).stubbed
    ensures Run(e, os, calls).dest == e.dest
    decreases |calls|
  {
    if calls != [] {
      RunClosesAtMostOnce(Apply(e, os, calls[0]), os, calls[1..]);
    }
  }
}
