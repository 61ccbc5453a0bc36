/** handle_forwarding_once_and_cleanup with its inner transmit and roundtrip:
    one accepted connection relayed to the destination and back, then closed. */
module Relay {
  import opened Errors
  import opened Sockets
  import C = Connections

  /** The two ends of a forwarded connection. */
  datatype Side = Source | Destination

  function Other(s: Side): Side {
    if s == Source then Destination else Source
  }

  /** What the relay does, in order. */
  datatype Event =
    | Received(from: Side, data: Bytes)
    | Logged(count: nat, data: Bytes, from: Side, to: Side)   // the log_data hook is called
    | Sent(to: Side, data: Bytes)
    | Closed(side: Side)

  /** When, if ever, another thread's kill() runs, counted in reads of the
      running flag made by the forwarding thread: KillAfter(n) lets n more
      reads happen before it; KillDone once it has run. */
  datatype KillPoint = NoKill | KillAfter(remaining: nat) | KillDone

  /** The engine's running flag as the forwarding thread sees it: its value
      now, when the concurrent kill() lands, and the value it leaves behind
      (False, unless that kill() itself raised before clearing the flag). */
  datatype Flag = Flag(running: bool, kp: KillPoint, afterKill: bool)

  datatype Reading = Reading(flag: Flag, value: bool)

  /** How the flag can move on while the forwarding thread works: without a
      pending kill it stays put; with one, either the kill is still to come
      (no nearer than before, the flag untouched) or it has landed and left
      its value behind. */
  predicate Advanced(f: Flag, f': Flag) {
    && f'.afterKill == f.afterKill
    && (!f.kp.KillAfter? ==> f' == f)
    && (f.kp.KillAfter? ==>
          || (f'.kp.KillAfter? && f'.kp.remaining <= f.kp.remaining && f'.running == f.running)
          || (f'.kp == KillDone && f'.running == f.afterKill))
  }

  /** One read of `self.__running`, with the concurrent kill() landing first
      when its turn has come. */
  function Read(f: Flag): (r: Reading)
    ensures r.value == r.flag.running && r.flag.afterKill == f.afterKill
    ensures f.kp != KillAfter(0) ==> r.flag.running == f.running
    ensures f.kp == KillAfter(0) ==> r.flag.running == f.afterKill && r.flag.kp == KillDone
    ensures f.kp.KillAfter? && f.kp.remaining > 0 ==> r.flag.kp == KillAfter(f.kp.remaining - 1)
    ensures !f.kp.KillAfter? ==> r.flag == f
  {
    match f.kp
    case KillAfter(n) =>
      if n > 0 then Reading(f.(kp := KillAfter(n - 1)), f.running)
      else Reading(f.(running := f.afterKill, kp := KillDone), f.afterKill)
    case _ => Reading(f, f.running)
  }

  /** The events of forwarding `chunks` from `from`, numbered from `count`:
      each chunk is received, handed to the log hook, then sent. */
  function Forwarding(from: Side, count: nat, chunks: seq<Bytes>): seq<Event>
    decreases |chunks|
  {
    if chunks == [] then []
    else [Received(from, chunks[0]), Logged(count, chunks[0], from, Other(from)), Sent(Other(from), chunks[0])]
         + Forwarding(from, count + 1, chunks[1..])
  }

  predicate NoCloses(trace: seq<Event>) {
    forall i :: 0 <= i < |trace| ==> !trace[i].Closed?
  }

  /** The data of the Sent events addressed to `to`, in order. */
  function SentTo(trace: seq<Event>, to: Side): seq<Bytes> {
    if trace == [] then []
    else (match trace[0] case Sent(t, d) => if t == to then [d] else [] case _ => []) + SentTo(trace[1..], to)
  }

  lemma SentToSingle(ev: Event, to: Side)
    ensures SentTo([ev], to) == (if ev.Sent? && ev.to == to then [ev.data] else [])
  {
  }

  lemma {:induction false} SentToAppend(a: seq<Event>, b: seq<Event>, to: Side)
    ensures SentTo(a + b, to) == SentTo(a, to) + SentTo(b, to)
    decreases |a|
  {
    if a == [] {
      assert a + b == b;
    } else {
      assert (a + b)[1..] == a[1..] + b;
      assert (a + b)[0] == a[0];
      SentToAppend(a[1..], b, to);
    }
  }

  /** Every chunk gets index count+i, is logged before it is sent, and only
      chunks are sent, all to the other side. */
  lemma ForwardingShape(from: Side, count: nat, chunks: seq<Bytes>)
    ensures |Forwarding(from, count, chunks)| == 3 * |chunks|
    ensures forall i :: 0 <= i < |chunks| ==>
              && Forwarding(from, count, chunks)[3 * i] == Received(from, chunks[i])
              && Forwarding(from, count, chunks)[3 * i + 1] == Logged(count + i, chunks[i], from, Other(from))
              && Forwarding(from, count, chunks)[3 * i + 2] == Sent(Other(from), chunks[i])
    ensures SentTo(Forwarding(from, count, chunks), Other(from)) == chunks
    ensures SentTo(Forwarding(from, count, chunks), from) == []
    ensures NoCloses(Forwarding(from, count, chunks))
  {
    ForwardingLayout(from, count, chunks);
    ForwardingSent(from, count, chunks);
    ForwardingNoCloses(from, count, chunks);
  }

  lemma {:induction false} ForwardingNoCloses(from: Side, count: nat, chunks: seq<Bytes>)
    ensures NoCloses(Forwarding(from, count, chunks))
    decreases |chunks|
  {
    if chunks != [] {
      var f := Forwarding(from, count, chunks);
      ForwardingNoCloses(from, count + 1, chunks[1..]);
      assert f[3..] == Forwarding(from, count + 1, chunks[1..]);
      forall i | 3 <= i < |f| ensures !f[i].Closed? {
        assert f[i] == f[3..][i - 3];
      }
    }
  }

  /** The three events of each chunk sit at positions 3i, 3i+1 and 3i+2. */
  lemma {:induction false} ForwardingLayout(from: Side, count: nat, chunks: seq<Bytes>)
    ensures |Forwarding(from, count, chunks)| == 3 * |chunks|
    ensures forall i :: 0 <= i < |chunks| ==>
              && Forwarding(from, count, chunks)[3 * i] == Received(from, chunks[i])
              && Forwarding(from, count, chunks)[3 * i + 1] == Logged(count + i, chunks[i], from, Other(from))
              && Forwarding(from, count, chunks)[3 * i + 2] == Sent(Other(from), chunks[i])
    decreases |chunks|
  {
    if chunks != [] {
      var tail := Forwarding(from, count + 1, chunks[1..]);
      ForwardingLayout(from, count + 1, chunks[1..]);
      var f := Forwarding(from, count, chunks);
      assert f[3..] == tail;
      forall i | 0 <= i < |chunks|
        ensures f[3 * i] == Received(from, chunks[i])
        ensures f[3 * i + 1] == Logged(count + i, chunks[i], from, Other(from))
        ensures f[3 * i + 2] == Sent(Other(from), chunks[i])
      {
        if i > 0 {
          assert chunks[1..][i - 1] == chunks[i];
          assert 3 * i == 3 + 3 * (i - 1);
          assert f[3 * i] == tail[3 * (i - 1)];
          assert f[3 * i + 1] == tail[3 * (i - 1) + 1];
          assert f[3 * i + 2] == tail[3 * (i - 1) + 2];
        }
      }
    }
  }

  /** The Sent events of a forwarding carry exactly its chunks, all to the
      other side. */
  lemma {:induction false} ForwardingSent(from: Side, count: nat, chunks: seq<Bytes>)
    ensures SentTo(Forwarding(from, count, chunks), Other(from)) == chunks
    ensures SentTo(Forwarding(from, count, chunks), from) == []
    decreases |chunks|
  {
    if chunks != [] {
      var head := [Received(from, chunks[0]), Logged(count, chunks[0], from, Other(from)), Sent(Other(from), chunks[0])];
      var tail := Forwarding(from, count + 1, chunks[1..]);
      ForwardingSent(from, count + 1, chunks[1..]);
      assert Forwarding(from, count, chunks) == head + tail;
      SentToAppend(head, tail, Other(from));
      SentToAppend(head, tail, from);
      HeadSent(from, chunks[0], count);
      assert chunks == [chunks[0]] + chunks[1..];
    }
  }

  /** The three events of one forwarded chunk send it, once, to the other side. */
  lemma HeadSent(from: Side, data: Bytes, count: nat)
    ensures var head := [Received(from, data), Logged(count, data, from, Other(from)), Sent(Other(from), data)];
            SentTo(head, Other(from)) == [data] && SentTo(head, from) == []
  {
    var r0, l0, s0 := Received(from, data), Logged(count, data, from, Other(from)), Sent(Other(from), data);
    assert [r0, l0, s0] == [r0] + ([l0] + [s0]);
    SentToSingle(r0, Other(from)); SentToSingle(l0, Other(from)); SentToSingle(s0, Other(from));
    SentToSingle(r0, from); SentToSingle(l0, from); SentToSingle(s0, from);
    SentToAppend([l0], [s0], Other(from)); SentToAppend([r0], [l0] + [s0], Other(from));
    SentToAppend([l0], [s0], from); SentToAppend([r0], [l0] + [s0], from);
  }

  lemma ForwardingCons(from: Side, count: nat, data: Bytes, chunks: seq<Bytes>)
    ensures Forwarding(from, count, [data] + chunks)
              == [Received(from, data), Logged(count, data, from, Other(from)), Sent(Other(from), data)]
                 + Forwarding(from, count + 1, chunks)
  {
    assert ([data] + chunks)[1..] == chunks;
  }

  datatype LegStatus = Completed | Aborted | Failed(error: Error)

  /** The outcome of one transmit(): the flag and connections after it, the
      chunks it forwarded, the chunk it received but dropped on abort, and its
      events. */
  datatype Leg = Leg(
    flag: Flag, from: C.Connection, to: C.Connection,
    forwarded: seq<Bytes>, dropped: Bytes, status: LegStatus, trace: seq<Event>)

  /** transmit(_from, _to): for every chunk of `from`, stop (returning False)
      if the engine is no longer running, else log it and send it to `to`;
      True once `from` is exhausted. */
  function Transmit(flag: Flag, from: C.Connection, to: C.Connection, side: Side, count: nat): (r: Leg)
    decreases C.Measure(from)
    ensures r.status == Completed ==> !C.CanReceiveMore(r.from)
    ensures r.from.kind == from.kind && r.from.peer == from.peer && r.from.sock.closes == from.sock.closes
    ensures r.from.sock.sent == from.sock.sent
    ensures r.to.kind == to.kind && r.to.peer == to.peer && r.to.sock.closes == to.sock.closes
    ensures r.to.more == to.more && r.to.sock.incoming == to.sock.incoming && r.to.sock.requests == to.sock.requests
    ensures r.from.sock.breaksAt == from.sock.breaksAt && r.to.sock.breaksAt == to.sock.breaksAt
    ensures Advanced(flag, r.flag)
  {
    match C.Next(from)
    case Exhausted(f) => Leg(flag, f, to, [], [], Completed, [])
    case Raised(f, err) => Leg(flag, f, to, [], [], Failed(err), [])
    case Yielded(f, data) =>
      var rd := Read(flag);
      if !rd.value then
        Leg(rd.flag, f, to, [], data, Aborted, [Received(side, data)])
      else
        var out := C.Send(to, data);
        var head := [Received(side, data), Logged(count, data, side, Other(side))];
        if out.count.Err? then
          Leg(rd.flag, f, out.conn, [], data, Failed(out.count.error), head)
        else
          var rest := Transmit(rd.flag, f, out.conn, side, count + 1);
          Leg(rest.flag, rest.from, rest.to, [data] + rest.forwarded, rest.dropped, rest.status,
              head + [Sent(Other(side), data)] + rest.trace)
  }

  /** The events of a transmit: each forwarded chunk received, logged with
      its index, then sent, in order; on abort one last chunk received and
      dropped; on failure either nothing more (the source raised) or one last
      chunk received and logged whose send raised; no close; and the
      destination socket given exactly the forwarded chunks. */
  predicate LegShaped(r: Leg, to: C.Connection, side: Side, count: nat) {
    && (r.status == Completed ==> r.trace == Forwarding(side, count, r.forwarded))
    && (r.status == Aborted ==> r.trace == Forwarding(side, count, r.forwarded) + [Received(side, r.dropped)])
    && (r.status.Failed? ==>
          || r.trace == Forwarding(side, count, r.forwarded)
          || r.trace == Forwarding(side, count, r.forwarded) + Unsent(side, count + |r.forwarded|, r.dropped))
    && (to.kind == C.Tcp ==> r.to.sock.sent == to.sock.sent + r.forwarded)
    && NoCloses(r.trace)
  }

  /** A chunk received and logged whose send raised. */
  function Unsent(side: Side, count: nat, data: Bytes): seq<Event> {
    [Received(side, data), Logged(count, data, side, Other(side))]
  }

  /** The shape is kept when one more forwarded chunk is put in front. */
  lemma LegShapedCons(rest: Leg, to: C.Connection, to': C.Connection, side: Side, count: nat, data: Bytes)
    requires LegShaped(rest, to', side, count + 1)
    requires to'.kind == to.kind && (to.kind == C.Tcp ==> to'.sock.sent == to.sock.sent + [data])
    ensures LegShaped(rest.(forwarded := [data] + rest.forwarded,
                            trace := [Received(side, data), Logged(count, data, side, Other(side))]
                                     + [Sent(Other(side), data)] + rest.trace), to, side, count)
  {
    var three := [Received(side, data), Logged(count, data, side, Other(side)), Sent(Other(side), data)];
    assert [Received(side, data), Logged(count, data, side, Other(side))] + [Sent(Other(side), data)] == three;
    ForwardingCons(side, count, data, rest.forwarded);
    assert three + (Forwarding(side, count + 1, rest.forwarded) + [Received(side, rest.dropped)])
           == Forwarding(side, count, [data] + rest.forwarded) + [Received(side, rest.dropped)];
    var unsent := Unsent(side, count + 1 + |rest.forwarded|, rest.dropped);
    assert three + (Forwarding(side, count + 1, rest.forwarded) + unsent)
           == Forwarding(side, count, [data] + rest.forwarded) + unsent;
    assert NoCloses(three + rest.trace) by {
      assert forall i :: 0 <= i < |rest.trace| ==> (three + rest.trace)[i + 3] == rest.trace[i];
    }
  }

  lemma {:induction false} TransmitTrace(flag: Flag, from: C.Connection, to: C.Connection, side: Side, count: nat)
    ensures LegShaped(Transmit(flag, from, to, side, count), to, side, count)
    decreases C.Measure(from)
  {
    var nx := C.Next(from);
    if nx.Yielded? {
      var rd := Read(flag);
      if rd.value {
        var out := C.Send(to, nx.data);
        if out.count.Ok? {
          TransmitTrace(rd.flag, nx.conn, out.conn, side, count + 1);
          LegShapedCons(Transmit(rd.flag, nx.conn, out.conn, side, count + 1), to, out.conn, side, count, nx.data);
        }
      }
    }
  }

  /** What iterating a connection yields depends only on its class, its flag
      and what the peer has still to deliver, not on the logs. */
  lemma {:induction false} DrainIgnoresLogs(c1: C.Connection, c2: C.Connection)
    requires c1.kind == c2.kind && c1.more == c2.more && c1.sock.incoming == c2.sock.incoming
    ensures C.Drain(c1).chunks == C.Drain(c2).chunks && C.Drain(c1).error == C.Drain(c2).error
    ensures C.Drain(c1).conn.sock.incoming == C.Drain(c2).conn.sock.incoming
    decreases C.Measure(c1)
  {
    if C.CanReceiveMore(c1) {
      var n1 := C.Next(c1);
      var n2 := C.Next(c2);
      if n1.Yielded? {
        DrainIgnoresLogs(n1.conn, n2.conn);
        C.DrainStep(c1);
        C.DrainStep(c2);
      }
    }
  }

  /** While nobody kills the engine and it is running, transmit forwards
      exactly what iterating the source yields, in order, and completes
      unless the source raises. */
  lemma {:induction false} TransmitUninterrupted(flag: Flag, from: C.Connection, to: C.Connection,
                                                 side: Side, count: nat)
    requires flag.running && flag.kp == NoKill && to.kind == C.Tcp && TakesAllSends(to.sock)
    ensures Transmit(flag, from, to, side, count).forwarded == C.Drain(from).chunks
    ensures Transmit(flag, from, to, side, count).from == C.Drain(from).conn
    ensures Transmit(flag, from, to, side, count).status ==
              (if C.Drain(from).error.None? then Completed else Failed(C.Drain(from).error.value))
    decreases C.Measure(from)
  {
    var n := C.Next(from);
    if n.Yielded? {
      var out := C.Send(to, n.data);
      TransmitUninterrupted(flag, n.conn, out.conn, side, count + 1);
      C.DrainStep(from);
    }
  }

  /** What a transmit does when the kill lands after `n` more reads and the
      source yields `d`. */
  predicate KilledAfter(r: Leg, flag: Flag, n: nat, d: seq<Bytes>) {
    && (n < |d| ==> r.status == Aborted && r.forwarded == d[..n] && r.dropped == d[n]
                    && r.flag == Flag(false, KillDone, false))
    && (n >= |d| ==> r.status == Completed && r.forwarded == d && r.flag == flag.(kp := KillAfter(n - |d|)))
  }

  lemma KilledAfterCons(rest: Leg, flag: Flag, n: nat, data: Bytes, d: seq<Bytes>)
    requires n > 0 && KilledAfter(rest, flag.(kp := KillAfter(n - 1)), n - 1, d)
    ensures KilledAfter(rest.(forwarded := [data] + rest.forwarded), flag, n, [data] + d)
  {
    if n - 1 < |d| {
      assert ([data] + d)[..n] == [data] + d[..n - 1];
    }
  }

  /** A kill that lands after `n` more reads of the flag: transmit forwards
      the first `n` chunks the source yields; if the source has more, the next
      one is received but neither logged nor sent, and transmit reports False. */
  lemma {:induction false} TransmitKilled(flag: Flag, n: nat, from: C.Connection, to: C.Connection,
                                          side: Side, count: nat)
    requires flag.running && !flag.afterKill && flag.kp == KillAfter(n)
    requires to.kind == C.Tcp && TakesAllSends(to.sock) && C.Drain(from).error.None?
    ensures KilledAfter(Transmit(flag, from, to, side, count), flag, n, C.Drain(from).chunks)
    decreases C.Measure(from), 1
  {
    if !C.Next(from).Yielded? {
      TransmitKilledEnd(flag, n, from, to, side, count);
    } else if n == 0 {
      TransmitKilledNow(flag, from, to, side, count);
    } else {
      TransmitKilledMore(flag, n, from, to, side, count);
    }
  }

  /** A chunk yielded with reads to spare: the rest of the source is
      transmitted with one read fewer before the kill. */
  lemma {:induction false} TransmitKilledMore(flag: Flag, n: nat, from: C.Connection, to: C.Connection,
                                              side: Side, count: nat)
    requires flag.running && !flag.afterKill && flag.kp == KillAfter(n) && n > 0
    requires to.kind == C.Tcp && TakesAllSends(to.sock) && C.Drain(from).error.None? && C.Next(from).Yielded?
    ensures KilledAfter(Transmit(flag, from, to, side, count), flag, n, C.Drain(from).chunks)
    decreases C.Measure(from), 0
  {
    var nx := C.Next(from);
    C.DrainRest(from);
    TransmitKilled(flag.(kp := KillAfter(n - 1)), n - 1, nx.conn, C.Send(to, nx.data).conn, side, count + 1);
    TransmitKilledStep(flag, n, from, to, side, count);
  }

  /** The inductive step of TransmitKilled: one more chunk forwarded before
      the kill lands. */
  lemma TransmitKilledStep(flag: Flag, n: nat, from: C.Connection, to: C.Connection, side: Side, count: nat)
    requires flag.running && flag.kp == KillAfter(n) && n > 0
    requires to.kind == C.Tcp && TakesAllSends(to.sock) && C.Drain(from).error.None? && C.Next(from).Yielded?
    requires var nx := C.Next(from);
             KilledAfter(Transmit(flag.(kp := KillAfter(n - 1)), nx.conn, C.Send(to, nx.data).conn, side, count + 1),
                         flag.(kp := KillAfter(n - 1)), n - 1, C.Drain(nx.conn).chunks)
    ensures KilledAfter(Transmit(flag, from, to, side, count), flag, n, C.Drain(from).chunks)
  {
    var nx := C.Next(from);
    C.DrainStep(from);
    assert Read(flag) == Reading(flag.(kp := KillAfter(n - 1)), true);
    TransmitStep(flag, from, to, side, count);
    KilledAfterCons(Transmit(flag.(kp := KillAfter(n - 1)), nx.conn, C.Send(to, nx.data).conn, side, count + 1),
                    flag, n, nx.data, C.Drain(nx.conn).chunks);
  }

  /** One forwarded chunk: transmit continues with the rest of the source. */
  lemma TransmitStep(flag: Flag, from: C.Connection, to: C.Connection, side: Side, count: nat)
    requires C.Next(from).Yielded? && Read(flag).value && to.kind == C.Tcp && TakesAllSends(to.sock)
    ensures var nx := C.Next(from);
            var rest := Transmit(Read(flag).flag, nx.conn, C.Send(to, nx.data).conn, side, count + 1);
            var r := Transmit(flag, from, to, side, count);
            r.forwarded == [nx.data] + rest.forwarded && r.status == rest.status
            && r.flag == rest.flag && r.dropped == rest.dropped
  {
  }

  lemma TransmitKilledEnd(flag: Flag, n: nat, from: C.Connection, to: C.Connection, side: Side, count: nat)
    requires flag.kp == KillAfter(n) && C.Drain(from).error.None? && !C.Next(from).Yielded?
    ensures KilledAfter(Transmit(flag, from, to, side, count), flag, n, C.Drain(from).chunks)
  {
  }

  lemma TransmitKilledNow(flag: Flag, from: C.Connection, to: C.Connection, side: Side, count: nat)
    requires !flag.afterKill && flag.kp == KillAfter(0) && C.Next(from).Yielded?
    ensures KilledAfter(Transmit(flag, from, to, side, count), flag, 0, C.Drain(from).chunks)
  {
    C.DrainStep(from);
  }

  /** Once the engine has stopped, transmit forwards nothing: at most one
      chunk is received, and it is dropped. */
  lemma TransmitWhileStopped(flag: Flag, from: C.Connection, to: C.Connection, side: Side, count: nat)
    requires !flag.running && flag.kp == NoKill
    ensures Transmit(flag, from, to, side, count).forwarded == []
    ensures Transmit(flag, from, to, side, count).to == to
    ensures |Transmit(flag, from, to, side, count).trace| <= 1
  {
  }

  /** The outcome of roundtrip(): the states after it, each leg run, the
      exception it raised if any, and all events. */
  datatype Trip = Trip(
    flag: Flag, src: C.Connection, dst: C.Connection,
    forward: Leg, backward: Option<Leg>, result: Result<()>, trace: seq<Event>)

  /** roundtrip(_from, _to): source to destination, then destination back to
      source only if the first leg ran to the end. */
  function RoundTrip(flag: Flag, src: C.Connection, dst: C.Connection): (r: Trip)
    ensures r.forward == Transmit(flag, src, dst, Source, 0)
    ensures r.backward.Some? <==> r.forward.status == Completed
    ensures r.backward.Some? ==>
              r.backward.value == Transmit(r.forward.flag, r.forward.to, r.forward.from, Destination, 0)
    ensures r.trace == r.forward.trace + (if r.backward.Some? then r.backward.value.trace else [])
    ensures r.result.Err? <==> r.forward.status.Failed? || (r.backward.Some? && r.backward.value.status.Failed?)
    ensures r.src.kind == src.kind && r.src.sock.closes == src.sock.closes
    ensures r.dst.kind == dst.kind && r.dst.sock.closes == dst.sock.closes
    ensures Advanced(flag, r.flag)
  {
    var fwd := Transmit(flag, src, dst, Source, 0);
    if fwd.status.Failed? then
      Trip(fwd.flag, fwd.from, fwd.to, fwd, None, Err(fwd.status.error), fwd.trace)
    else if fwd.status == Aborted then
      Trip(fwd.flag, fwd.from, fwd.to, fwd, None, Ok(()), fwd.trace)
    else
      var back := Transmit(fwd.flag, fwd.to, fwd.from, Destination, 0);
      var result := if back.status.Failed? then Err(back.status.error) else Ok(());
      Trip(back.flag, back.to, back.from, fwd, Some(back), result, fwd.trace + back.trace)
  }

  /** A round trip closes nothing. */
  lemma RoundTripNoCloses(flag: Flag, src: C.Connection, dst: C.Connection)
    ensures NoCloses(RoundTrip(flag, src, dst).trace)
  {
    var r := RoundTrip(flag, src, dst);
    TransmitNoCloses(flag, src, dst, Source, 0);
    if r.backward.Some? {
      TransmitNoCloses(r.forward.flag, r.forward.to, r.forward.from, Destination, 0);
      NoClosesAppend(r.forward.trace, r.backward.value.trace);
    }
  }

  /** A transmit closes nothing. */
  lemma TransmitNoCloses(flag: Flag, from: C.Connection, to: C.Connection, side: Side, count: nat)
    ensures NoCloses(Transmit(flag, from, to, side, count).trace)
  {
    TransmitTrace(flag, from, to, side, count);
  }

  lemma NoClosesAppend(a: seq<Event>, b: seq<Event>)
    requires NoCloses(a) && NoCloses(b)
    ensures NoCloses(a + b)
  {
    forall i | |a| <= i < |a + b|
      ensures !(a + b)[i].Closed?
    {
      assert (a + b)[i] == b[i - |a|];
    }
  }

  /** One uninterrupted leg that runs to the end: everything the source
      yields goes to the other side, in order, and nothing comes back. */
  lemma LegIntegrity(flag: Flag, from: C.Connection, to: C.Connection, side: Side)
    requires flag.running && flag.kp == NoKill && to.kind == C.Tcp && TakesAllSends(to.sock)
    requires C.Drain(from).error.None?
    ensures var r := Transmit(flag, from, to, side, 0);
            && r.status == Completed && r.flag == flag
            && SentTo(r.trace, Other(side)) == C.Drain(from).chunks
            && SentTo(r.trace, side) == []
            && r.to.sock.sent == to.sock.sent + C.Drain(from).chunks
  {
    var r := Transmit(flag, from, to, side, 0);
    TransmitUninterrupted(flag, from, to, side, 0);
    TransmitTrace(flag, from, to, side, 0);
    ForwardingShape(side, 0, r.forwarded);
  }

  /** Relay integrity: with the engine running and nobody killing it, the
      destination is sent exactly what the source yields, in order, then the
      source is sent exactly what the destination yields. */
  predicate Delivered(r: Trip, src: C.Connection, dst: C.Connection) {
    && r.result.Ok? && r.backward.Some?
    && SentTo(r.trace, Destination) == C.Drain(src).chunks
    && SentTo(r.trace, Source) == C.Drain(dst).chunks
    && r.dst.sock.sent == dst.sock.sent + C.Drain(src).chunks
    && r.src.sock.sent == src.sock.sent + C.Drain(dst).chunks
  }

  lemma RoundTripIntegrity(flag: Flag, src: C.Connection, dst: C.Connection)
    requires flag.running && flag.kp == NoKill && src.kind == C.Tcp && dst.kind == C.Tcp
    requires NeverResets(src.sock.incoming) && NeverResets(dst.sock.incoming)
    requires TakesAllSends(src.sock) && TakesAllSends(dst.sock)
    ensures Delivered(RoundTrip(flag, src, dst), src, dst)
  {
    C.DrainNeverFails(src);
    C.DrainNeverFails(dst);
    var fwd := Transmit(flag, src, dst, Source, 0);
    LegIntegrity(flag, src, dst, Source);
    ReturnLeg(flag, src, dst);
    RoundTripBothLegs(flag, src, dst);
    DeliveredByLegs(RoundTrip(flag, src, dst), fwd, Transmit(fwd.flag, fwd.to, fwd.from, Destination, 0),
                    src, dst, C.Drain(src).chunks, C.Drain(dst).chunks);
  }

  /** The way back, after a forward leg that ran to the end: the source is
      sent what the destination yields. */
  lemma ReturnLeg(flag: Flag, src: C.Connection, dst: C.Connection)
    requires flag.running && flag.kp == NoKill && src.kind == C.Tcp && TakesAllSends(src.sock)
    requires C.Drain(dst).error.None? && Transmit(flag, src, dst, Source, 0).flag == flag
    ensures var fwd := Transmit(flag, src, dst, Source, 0);
            var back := Transmit(fwd.flag, fwd.to, fwd.from, Destination, 0);
            && back.status == Completed
            && SentTo(back.trace, Source) == C.Drain(dst).chunks && SentTo(back.trace, Destination) == []
            && back.from.sock.sent == fwd.to.sock.sent
            && back.to.sock.sent == fwd.from.sock.sent + C.Drain(dst).chunks
  {
    var fwd := Transmit(flag, src, dst, Source, 0);
    DrainIgnoresLogs(fwd.to, dst);
    LegIntegrity(fwd.flag, fwd.to, fwd.from, Destination);
  }

  lemma DeliveredByLegs(r: Trip, fwd: Leg, back: Leg, src: C.Connection, dst: C.Connection,
                        there: seq<Bytes>, back': seq<Bytes>)
    requires r == Trip(back.flag, back.to, back.from, fwd, Some(back), Ok(()), fwd.trace + back.trace)
    requires SentTo(fwd.trace, Destination) == there && SentTo(fwd.trace, Source) == []
    requires SentTo(back.trace, Source) == back' && SentTo(back.trace, Destination) == []
    requires fwd.to.sock.sent == dst.sock.sent + there && back.from.sock.sent == fwd.to.sock.sent
    requires fwd.from.sock.sent == src.sock.sent && back.to.sock.sent == fwd.from.sock.sent + back'
    requires there == C.Drain(src).chunks && back' == C.Drain(dst).chunks
    ensures Delivered(r, src, dst)
  {
    SentToAppend(fwd.trace, back.trace, Destination);
    SentToAppend(fwd.trace, back.trace, Source);
    assert SentTo(r.trace, Destination) == there + [];
    assert SentTo(r.trace, Source) == [] + back';
  }

  /** A round trip whose legs both complete is their concatenation. */
  lemma RoundTripBothLegs(flag: Flag, src: C.Connection, dst: C.Connection)
    requires Transmit(flag, src, dst, Source, 0).status == Completed
    ensures var fwd := Transmit(flag, src, dst, Source, 0);
            var back := Transmit(fwd.flag, fwd.to, fwd.from, Destination, 0);
            back.status == Completed ==>
              RoundTrip(flag, src, dst) == Trip(back.flag, back.to, back.from, fwd, Some(back), Ok(()), fwd.trace + back.trace)
  {
  }

  /** The outcome of handling one accepted connection. `dst` is None when the
      destination could not be opened. */
  datatype Handled = Handled(
    flag: Flag, src: C.Connection, dst: Option<C.Connection>, trace: seq<Event>, result: Result<()>)

  /** handle_forwarding_once_and_cleanup as written: `pair` stays "" unless
      roundtrip returns, so a failed connect or a fault while forwarding closes
      nothing. */
  function HandleAsWritten(flag: Flag, src: C.Connection, dst: Result<C.Connection>): (r: Handled)
    ensures r.result.Ok? <==> dst.Ok? && RoundTrip(flag, src, dst.value).result.Ok?
    ensures r.result.Ok? ==> && r.src.sock.closes == src.sock.closes + 1
                             && r.dst.Some? && r.dst.value.sock.closes == dst.value.sock.closes + 1
                             && r.trace == RoundTrip(flag, src, dst.value).trace + [Closed(Source), Closed(Destination)]
    ensures r.result.Err? ==> && r.src.sock.closes == src.sock.closes
                              && (r.dst.Some? ==> dst.Ok? && r.dst.value.sock.closes == dst.value.sock.closes)
                              && (dst.Ok? ==> r.trace == RoundTrip(flag, src, dst.value).trace)
                              && (dst.Err? ==> r.trace == [] && r.flag == flag)
    ensures Advanced(flag, r.flag)
  {
    if dst.Err? then Handled(flag, src, None, [], Err(dst.error))
    else
      var t := RoundTrip(flag, src, dst.value);
      if t.result.Err? then Handled(t.flag, t.src, Some(t.dst), t.trace, t.result)
      else Handled(t.flag, C.Close(t.src), Some(C.Close(t.dst)),
                   t.trace + [Closed(Source), Closed(Destination)], Ok(()))
  }

  /** The cleanup the handler evidently intends: the source is closed on every
      path, and the destination whenever it was opened, each exactly once and
      after all forwarding; the exception, if any, still propagates. */
  function Handle(flag: Flag, src: C.Connection, dst: Result<C.Connection>): (r: Handled)
    ensures r.src.sock.closes == src.sock.closes + 1
    ensures r.dst.Some? <==> dst.Ok?
    ensures r.dst.Some? ==> r.dst.value.sock.closes == dst.value.sock.closes + 1
    ensures dst.Err? ==> r.result == Err(dst.error) && r.trace == [Closed(Source)] && r.flag == flag
    ensures dst.Ok? ==> && r.result == RoundTrip(flag, src, dst.value).result
                        && r.trace == RoundTrip(flag, src, dst.value).trace + [Closed(Source), Closed(Destination)]
                        && NoCloses(r.trace[..|r.trace| - 2])
    ensures Advanced(flag, r.flag)
  {
    if dst.Err? then Handled(flag, C.Close(src), None, [Closed(Source)], Err(dst.error))
    else
      var t := RoundTrip(flag, src, dst.value);
      RoundTripNoCloses(flag, src, dst.value);
      assert (t.trace + [Closed(Source), Closed(Destination)])[..|t.trace|] == t.trace;
      Handled(t.flag, C.Close(t.src), Some(C.Close(t.dst)),
              t.trace + [Closed(Source), Closed(Destination)], t.result)
  }

  /** Whenever the handler as written returns normally, the intended handler
      does exactly the same. */
  lemma HandleAgreesWhenNothingRaises(flag: Flag, src: C.Connection, dst: Result<C.Connection>)
    requires HandleAsWritten(flag, src, dst).result.Ok?
    ensures Handle(flag, src, dst) == HandleAsWritten(flag, src, dst)
  {
  }

  /** The leak as written: when the destination cannot be opened, the accepted
      source connection is never closed. */
  lemma HandleAsWrittenLeaksSource(flag: Flag, src: C.Connection)
    ensures HandleAsWritten(flag, src, Err(SocketError)).src.sock.closes == src.sock.closes
    ensures Handle(flag, src, Err(SocketError)).src.sock.closes == src.sock.closes + 1
  {
  }

  /** The leak as written when forwarding faults: a source reset by its peer
      leaves both connections open. */
  lemma HandleAsWrittenLeaksOnReset(flag: Flag, peer: Address, dstSock: Socket)
    ensures var src := C.TcpConnection(Fresh([Reset], 1024), peer);
            var dst := C.TcpConnection(dstSock, peer);
            var r := HandleAsWritten(flag, src, Ok(dst));
            && r.result == Err(ConnectionReset)
            && r.src.sock.closes == 0
            && r.dst.value.sock.closes == dstSock.closes
  {
    var src := C.TcpConnection(Fresh([Reset], 1024), peer);
    assert C.Next(src).Raised?;
  }

  /** With the engine running and nobody killing it, a handled connection
      whose two peers never reset and take every send returns normally: each
      side was passed, by send(), exactly the chunks the other side yielded,
      and both sockets end closed once. */
  lemma HandleDelivers(flag: Flag, src: C.Connection, dst: C.Connection)
    requires flag.running && flag.kp == NoKill && src.kind == C.Tcp && dst.kind == C.Tcp
    requires NeverResets(src.sock.incoming) && NeverResets(dst.sock.incoming)
    requires TakesAllSends(src.sock) && TakesAllSends(dst.sock)
    ensures var r := HandleAsWritten(flag, src, Ok(dst));
            && r.result.Ok? && r.dst.Some? && r.flag == flag
            && r.dst.value.sock.sent == dst.sock.sent + C.Drain(src).chunks
            && r.src.sock.sent == src.sock.sent + C.Drain(dst).chunks
            && r.src.sock.closes == src.sock.closes + 1 && r.dst.value.sock.closes == dst.sock.closes + 1
  {
    RoundTripIntegrity(flag, src, dst);
  }

  /** A destination whose peer has gone: the first chunk the source yields
      is received and logged, its send raises, and transmit fails with
      nothing forwarded. */
  lemma TransmitBrokenPipe(flag: Flag, from: C.Connection, to: C.Connection, side: Side, count: nat)
    requires flag.running && flag.kp == NoKill && to.kind == C.Tcp && Broken(to.sock)
    requires C.Next(from).Yielded?
    ensures var r := Transmit(flag, from, to, side, count);
            && r.status == Failed(BrokenPipe) && r.forwarded == [] && r.to == to
            && r.trace == Unsent(side, count, C.Next(from).data)
  {
  }

  /** The leak as written when a send raises: a destination that went away
      before the first chunk leaves both connections open, and the intended
      handler closes both. */
  lemma HandleAsWrittenLeaksOnBrokenPipe(flag: Flag, src: C.Connection, dst: C.Connection)
    requires flag.running && flag.kp == NoKill && dst.kind == C.Tcp && Broken(dst.sock)
    requires C.Next(src).Yielded?
    ensures HandleAsWritten(flag, src, Ok(dst)).result == Err(BrokenPipe)
    ensures HandleAsWritten(flag, src, Ok(dst)).src.sock.closes == src.sock.closes
    ensures HandleAsWritten(flag, src, Ok(dst)).dst == Some(dst)
    ensures Handle(flag, src, Ok(dst)).src.sock.closes == src.sock.closes + 1
    ensures Handle(flag, src, Ok(dst)).dst.value.sock.closes == dst.sock.closes + 1
  {
    TransmitBrokenPipe(flag, src, dst, Source, 0);
  }
}
