/** listen_and_forward: set the running flag, then accept and handle one
    connection after another while the flag is set; shut the engine down on
    the way out, however the loop ends. */
module Serving {
  import opened Errors
  import opened Sockets
  import C = Connections
  import E = Engine
  import R = Relay

  /** What the outside world does on one pass of the loop: how accept()
      answers, and how connect() to the destination answers. */
  datatype Session = Session(accept: E.AcceptOutcome, connect: E.ConnectOutcome)

  /** How listen_and_forward ended: blocked in accept() on a listening socket
      once the scripted sessions run out, returned after being stopped, or
      raised. */
  datatype Ending = Accepting | Returned | Raised(error: Error)

  /** The engine afterwards, the kill still pending if any, each handled
      connection in order, and how the call ended. */
  datatype Served = Served(engine: E.Engine, kp: R.KillPoint, handled: seq<R.Handled>, ending: Ending)

  /** The running flag as the forwarding thread sees it, with the pending
      kill() acting on `e` when it lands. */
  function FlagOf(e: E.Engine, os: E.Os, kp: R.KillPoint): R.Flag {
    R.Flag(e.running, kp, E.Kill(e, os).engine.running)
  }

  /** The engine after reads of the flag that moved the kill point from
      `before` to `after`: changed by kill() exactly when it landed. */
  function Landed(e: E.Engine, os: E.Os, before: R.KillPoint, after: R.KillPoint): E.Engine {
    if before.KillAfter? && after == R.KillDone then E.Kill(e, os).engine else e
  }

  /** The `finally: self.__shutdown()` clause: an exception it raises
      replaces the one pending. */
  function Finish(e: E.Engine, os: E.Os, kp: R.KillPoint, handled: seq<R.Handled>, pending: Option<Error>): (r: Served)
    ensures r.handled == handled && r.kp == kp && r.ending != Accepting
    ensures E.Keeps(e, r.engine)
    ensures E.Valid(e) ==> E.Valid(r.engine)
    ensures E.Valid(e) && E.CanKill(e, os) ==> r.engine.stubbed && r.engine.closed == 1
    ensures E.Valid(e) && E.CanKill(e, os) ==> r.ending == (if pending.Some? then Raised(pending.value) else Returned)
    ensures E.Valid(e) && !E.CanKill(e, os) ==> r.ending == Raised(SocketError)
  {
    var s := E.Shutdown(e, os);
    Served(s.engine, kp, handled,
           if s.result.Err? then Raised(s.result.error)
           else if pending.Some? then Raised(pending.value)
           else Returned)
  }

  /** One check of `self.__running` by the serving thread, with the pending
      kill() landing first when its turn has come. */
  datatype Checked = Checked(engine: E.Engine, kp: R.KillPoint, running: bool)

  function Check(e: E.Engine, os: E.Os, kp: R.KillPoint): (c: Checked)
    ensures c.running == c.engine.running && E.Keeps(e, c.engine)
    ensures E.Valid(e) ==> E.Valid(c.engine)
    ensures kp != R.KillAfter(0) ==> c.engine == e
    ensures !kp.KillAfter? ==> c.kp == kp
    ensures kp.KillAfter? && kp.remaining > 0 ==> c.kp == R.KillAfter(kp.remaining - 1)
    ensures kp == R.KillAfter(0) ==> c.kp == R.KillDone && c.engine == E.Kill(e, os).engine
    ensures E.Valid(e) && E.CanKill(e, os) ==> E.CanKill(c.engine, os)
    ensures E.Valid(e) && E.CanKill(e, os) && kp == R.KillAfter(0) ==> !c.running
    ensures E.Valid(e) && !E.CanKill(e, os) ==> !E.CanKill(c.engine, os) && c.running == e.running
  {
    var rd := R.Read(FlagOf(e, os, kp));
    Checked(Landed(e, os, kp, rd.flag.kp), rd.flag.kp, rd.value)
  }

  /** One pass of the loop body once the flag was seen set: accept a source,
      open the destination, handle the pair with the handler as written.
      `pending` is the exception that ends the loop, if any. */
  datatype Turn = Turn(engine: E.Engine, kp: R.KillPoint, handled: Option<R.Handled>, pending: Option<Error>)

  function Pass(e: E.Engine, os: E.Os, kp: R.KillPoint, s: Session): (t: Turn)
    ensures E.Keeps(e, t.engine)
    ensures E.Valid(e) ==> E.Valid(t.engine)
    ensures t.pending.None? ==> t.handled.Some?
    ensures E.Valid(e) && E.CanKill(e, os) ==> E.CanKill(t.engine, os)
    ensures E.Valid(e) && !E.CanKill(e, os) ==>
              t.handled.None? && t.pending == Some(SocketError) && !E.CanKill(t.engine, os)
    ensures E.Valid(e) && E.CanKill(e, os) && kp.KillAfter? ==>
              || (t.kp.KillAfter? && t.kp.remaining <= kp.remaining && t.engine.running == e.running)
              || (t.kp == R.KillDone && !t.engine.running)
              || (t.handled.None? && t.pending.Some?)
  {
    var src := E.NewSource(e, os, s.accept);
    if src.result.Err? then Turn(src.engine, kp, None, Some(src.result.error))
    else
      var dst := E.NewDestination(src.engine, s.connect);
      var h := R.HandleAsWritten(FlagOf(src.engine, os, kp), src.result.value, dst);
      var e2 := Landed(src.engine, os, kp, h.flag.kp);
      Turn(e2, h.flag.kp, Some(h), if h.result.Err? then Some(h.result.error) else None)
  }

  /** The `while self.__running` loop from one check of the flag on. */
  function Loop(e: E.Engine, os: E.Os, kp: R.KillPoint, sessions: seq<Session>): (r: Served)
    decreases |sessions|
    ensures |r.handled| <= |sessions|
    ensures r.ending == Accepting ==> |r.handled| == |sessions|
    ensures E.Keeps(e, r.engine)
    ensures E.Valid(e) ==> E.Valid(r.engine)
    ensures E.Valid(e) && E.CanKill(e, os) && r.ending != Accepting ==> r.engine.stubbed && r.engine.closed == 1
    ensures r.ending == Accepting ==> r.engine.server.Some? && !r.engine.stubbed
  {
    var c := Check(e, os, kp);
    if !c.running then Finish(c.engine, os, c.kp, [], None)
    else if sessions == [] then
      var g := E.AcceptOn(c.engine, os);
      if g.result.Err? then Finish(g.engine, os, c.kp, [], Some(g.result.error))
      else Served(g.engine, c.kp, [], Accepting)
    else
      var t := Pass(c.engine, os, c.kp, sessions[0]);
      if t.pending.Some? then Finish(t.engine, os, t.kp, if t.handled.Some? then [t.handled.value] else [], t.pending)
      else
        var rest := Loop(t.engine, os, t.kp, sessions[1..]);
        rest.(handled := [t.handled.value] + rest.handled)
  }

  /** listen_and_forward(): sets the flag and enters the loop. */
  function Serve(e: E.Engine, os: E.Os, kp: R.KillPoint, sessions: seq<Session>): (r: Served)
    ensures |r.handled| <= |sessions|
    ensures r.ending == Accepting ==> |r.handled| == |sessions|
    ensures E.Keeps(e, r.engine)
    ensures E.Valid(e) ==> E.Valid(r.engine)
    ensures E.Valid(e) && E.CanKill(e, os) && r.ending != Accepting ==> r.engine.stubbed && r.engine.closed == 1
    ensures r.ending == Accepting ==> r.engine.server.Some? && !r.engine.stubbed
  {
    Loop(e.(running := true), os, kp, sessions)
  }

  /** An engine that can never bind handles nothing: the first accept
      raises, and so does the shutdown that follows. */
  lemma LoopUnbindable(e: E.Engine, os: E.Os, kp: R.KillPoint, sessions: seq<Session>)
    requires E.Valid(e) && !E.CanKill(e, os)
    ensures var r := Loop(e, os, kp, sessions);
            r.handled == [] && r.ending == Raised(SocketError)
  {
  }

  /** A flag already cleared ends the loop at the next check, with no
      connection accepted. */
  lemma LoopStopped(e: E.Engine, os: E.Os, kp: R.KillPoint, sessions: seq<Session>)
    requires !e.running && kp != R.KillAfter(0)
    ensures Loop(e, os, kp, sessions).handled == []
    ensures Loop(e, os, kp, sessions).ending != Accepting
  {
  }

  /** A kill due after `n` more reads of the flag lets at most `n` more
      connections be handled. */
  lemma {:induction false} LoopKillBound(e: E.Engine, os: E.Os, n: nat, sessions: seq<Session>)
    requires E.Valid(e) && E.CanKill(e, os)
    ensures |Loop(e, os, R.KillAfter(n), sessions).handled| <= n
    decreases |sessions|
  {
    var c := Check(e, os, R.KillAfter(n));
    if c.running && sessions != [] {
      var t := Pass(c.engine, os, c.kp, sessions[0]);
      if t.pending.None? {
        if t.kp.KillAfter? {
          LoopKillBound(t.engine, os, t.kp.remaining, sessions[1..]);
        } else {
          LoopStopped(t.engine, os, t.kp, sessions[1..]);
        }
      }
    }
  }

  /** Across the whole call: at most `n` connections are handled when a
      kill is due after `n` reads of the flag. */
  lemma ServeKillBound(e: E.Engine, os: E.Os, n: nat, sessions: seq<Session>)
    requires E.Valid(e) && E.CanKill(e, os)
    ensures |Serve(e, os, R.KillAfter(n), sessions).handled| <= n
  {
    LoopKillBound(e.(running := true), os, n, sessions);
  }

  lemma ServeUnbindable(e: E.Engine, os: E.Os, kp: R.KillPoint, sessions: seq<Session>)
    requires E.Valid(e) && !E.CanKill(e, os)
    ensures Serve(e, os, kp, sessions).handled == []
    ensures Serve(e, os, kp, sessions).ending == Raised(SocketError)
  {
    LoopUnbindable(e.(running := true), os, kp, sessions);
  }

  /** Restarting a killed engine: the stub has no accept(), so the call
      raises AttributeError before handling anything, and the engine is left
      as the kill left it apart from the flag. A kill landing at the very
      first check instead makes the call return. */
  lemma ServeAfterKill(e: E.Engine, os: E.Os, kp: R.KillPoint, sessions: seq<Session>)
    requires E.Valid(e) && E.Kill(e, os).result.Ok?
    ensures var k := E.Kill(e, os).engine;
            var r := Serve(k, os, kp, sessions);
            && r.handled == []
            && (kp != R.KillAfter(0) ==> r.ending == Raised(AttributeError) && r.engine == k.(running := true))
            && (kp == R.KillAfter(0) ==> r.ending == Returned && r.engine == k)
  {
  }

  /** A kill() while the loop waits in accept(): the closed socket makes
      accept() raise, nothing is handled, and the socket is closed once. */
  lemma ServeKilledWhileAccepting(e: E.Engine, os: E.Os, c: E.ConnectOutcome, rest: seq<Session>)
    requires E.Valid(e) && !e.stubbed && E.CanKill(e, os)
    ensures var r := Serve(e, os, R.NoKill, [Session(E.KilledWhileWaiting, c)] + rest);
            && r.handled == [] && r.ending == Raised(SocketError)
            && !r.engine.running && r.engine.stubbed && r.engine.closed == 1
  {
  }

  /** A session whose two peers behave: accept and connect succeed, neither
      peer resets before it is done, and neither goes away while sent to. */
  predicate Clean(s: Session) {
    && s.accept.Incoming? && s.connect.Connected?
    && NeverResets(s.accept.sock.incoming) && NeverResets(s.connect.sock.incoming)
    && TakesAllSends(s.accept.sock) && TakesAllSends(s.connect.sock)
  }

  /** The handler relayed the session: each side was passed, by send(),
      everything the other side yielded, and both sockets were closed once. */
  predicate Relayed(h: R.Handled, s: Session, dest: Address) {
    && s.accept.Incoming? && s.connect.Connected?
    && var src := C.TcpConnection(s.accept.sock, s.accept.peer);
    var dst := C.TcpConnection(s.connect.sock, dest);
    && h.result.Ok? && h.dst.Some?
    && h.dst.value.sock.sent == dst.sock.sent + C.Drain(src).chunks
    && h.src.sock.sent == src.sock.sent + C.Drain(dst).chunks
    && h.src.sock.closes == src.sock.closes + 1
    && h.dst.value.sock.closes == dst.sock.closes + 1
  }

  /** One pass over a clean session with no kill pending. */
  lemma PassClean(e: E.Engine, os: E.Os, s: Session)
    requires E.Valid(e) && !e.stubbed && E.CanKill(e, os) && e.running && Clean(s)
    ensures var t := Pass(e, os, R.NoKill, s);
            && t.pending.None? && t.handled.Some? && Relayed(t.handled.value, s, e.dest)
            && t.kp == R.NoKill && E.Valid(t.engine) && !t.engine.stubbed && E.CanKill(t.engine, os)
            && t.engine.running && t.engine.dest == e.dest
  {
    var e' := PassOpens(e, os, s);
    HandleRelays(FlagOf(e', os, R.NoKill), s, e.dest);
  }

  /** With a live engine and both ends available, a pass hands the accepted
      and the connected socket to the handler, and the engine it leaves
      behind is the one accept left. */
  lemma PassOpens(e: E.Engine, os: E.Os, s: Session) returns (e': E.Engine)
    requires E.Valid(e) && !e.stubbed && E.CanKill(e, os) && e.running
    requires s.accept.Incoming? && s.connect.Connected?
    ensures E.Valid(e') && !e'.stubbed && E.CanKill(e', os) && e'.running && e'.dest == e.dest
    ensures var h := R.HandleAsWritten(FlagOf(e', os, R.NoKill), C.TcpConnection(s.accept.sock, s.accept.peer),
                                       Ok(C.TcpConnection(s.connect.sock, e.dest)));
            Pass(e, os, R.NoKill, s) == Turn(e', h.flag.kp, Some(h), if h.result.Err? then Some(h.result.error) else None)
  {
    var src := E.NewSource(e, os, s.accept);
    e' := src.engine;
    assert src.result == Ok(C.TcpConnection(s.accept.sock, s.accept.peer));
    var h := R.HandleAsWritten(FlagOf(e', os, R.NoKill), src.result.value, Ok(C.TcpConnection(s.connect.sock, e.dest)));
    assert h.flag.kp == R.NoKill;
  }

  /** The handler relays a clean session when nothing kills it. */
  lemma HandleRelays(flag: R.Flag, s: Session, dest: Address)
    requires flag.running && flag.kp == R.NoKill && Clean(s)
    ensures var h := R.HandleAsWritten(flag, C.TcpConnection(s.accept.sock, s.accept.peer),
                                       Ok(C.TcpConnection(s.connect.sock, dest)));
            Relayed(h, s, dest) && h.flag.kp == R.NoKill
  {
    R.HandleDelivers(flag, C.TcpConnection(s.accept.sock, s.accept.peer), C.TcpConnection(s.connect.sock, dest));
  }

  /** A pass that raises nothing leads straight into the next check. */
  lemma LoopStep(e: E.Engine, os: E.Os, sessions: seq<Session>)
    requires e.running && sessions != [] && Pass(e, os, R.NoKill, sessions[0]).pending.None?
    ensures var t := Pass(e, os, R.NoKill, sessions[0]);
            var rest := Loop(t.engine, os, t.kp, sessions[1..]);
            Loop(e, os, R.NoKill, sessions) == rest.(handled := [t.handled.value] + rest.handled)
  {
  }

  predicate AllClean(sessions: seq<Session>) {
    forall i :: 0 <= i < |sessions| ==> Clean(sessions[i])
  }

  /** One handled connection per session, in order, each relaying its own. */
  predicate AllRelayed(handled: seq<R.Handled>, sessions: seq<Session>, dest: Address)
    decreases |sessions|
  {
    && |handled| == |sessions|
    && (sessions != [] ==> Relayed(handled[0], sessions[0], dest) && AllRelayed(handled[1..], sessions[1..], dest))
  }

  /** The i-th handled connection relayed the i-th session. */
  lemma {:induction false} AllRelayedAt(handled: seq<R.Handled>, sessions: seq<Session>, dest: Address, i: nat)
    requires AllRelayed(handled, sessions, dest) && i < |sessions|
    ensures |handled| == |sessions| && Relayed(handled[i], sessions[i], dest)
    decreases i
  {
    if i > 0 {
      AllRelayedAt(handled[1..], sessions[1..], dest, i - 1);
    }
  }

  lemma AllCleanTail(sessions: seq<Session>)
    requires sessions != [] && AllClean(sessions)
    ensures Clean(sessions[0]) && AllClean(sessions[1..])
  {
    forall i | 0 <= i < |sessions[1..]|
      ensures Clean(sessions[1..][i])
    {
      assert sessions[1..][i] == sessions[i + 1];
    }
  }

  lemma AllRelayedCons(h: R.Handled, rest: seq<R.Handled>, sessions: seq<Session>, dest: Address)
    requires sessions != [] && Relayed(h, sessions[0], dest) && AllRelayed(rest, sessions[1..], dest)
    ensures AllRelayed([h] + rest, sessions, dest)
  {
    assert ([h] + rest)[1..] == rest;
  }

  /** Liveness of the relay: while nobody kills the engine, every clean
      session is accepted, relayed and closed, in order, and the loop goes on
      accepting. */
  lemma {:induction false} LoopRelaysEverySession(e: E.Engine, os: E.Os, sessions: seq<Session>)
    requires E.Valid(e) && !e.stubbed && E.CanKill(e, os) && e.running && AllClean(sessions)
    ensures Loop(e, os, R.NoKill, sessions).ending == Accepting
    ensures AllRelayed(Loop(e, os, R.NoKill, sessions).handled, sessions, e.dest)
    decreases |sessions|
  {
    if sessions != [] {
      AllCleanTail(sessions);
      PassClean(e, os, sessions[0]);
      var t := Pass(e, os, R.NoKill, sessions[0]);
      LoopRelaysEverySession(t.engine, os, sessions[1..]);
      LoopStep(e, os, sessions);
      AllRelayedCons(t.handled.value, Loop(t.engine, os, R.NoKill, sessions[1..]).handled, sessions, e.dest);
    }
  }

  /** The same for a whole listen_and_forward call. */
  lemma ServeRelaysEverySession(e: E.Engine, os: E.Os, sessions: seq<Session>)
    requires E.Valid(e) && !e.stubbed && E.CanKill(e, os) && AllClean(sessions)
    ensures Serve(e, os, R.NoKill, sessions).ending == Accepting
    ensures AllRelayed(Serve(e, os, R.NoKill, sessions).handled, sessions, e.dest)
  {
    LoopRelaysEverySession(e.(running := true), os, sessions);
  }
}
