/** Connection and its stream variant TCPConnection: a socket plus the peer's
    address, read as a lazy, finite, one-shot sequence of received chunks. */
module Connections {
  import opened Errors
  import opened Sockets

  /** The most bytes a TCPConnection asks its socket for in one receive. */
  const BUFFER_SIZE: nat := 1024

  /** The class a connection object is an instance of. `Bare` stands for a
      subclass of Connection that overrides none of its methods. */
  datatype Kind = Base | Tcp | Bare

  /** `more` is TCPConnection's private "I can receive more" flag; the other
      kinds have no such attribute and ignore it. */
  datatype Connection = Connection(kind: Kind, sock: Socket, peer: Address, more: bool)

  /** Constructing a connection of the given class around a socket. */
  function New(kind: Kind, sock: Socket, peer: Address): (r: Result<Connection>)
    ensures r.Err? <==> kind == Base
    ensures r.Err? ==> r.error == TypeError
    ensures r.Ok? ==> r.value.kind == kind && r.value.sock == sock && r.value.peer == peer
    ensures r.Ok? ==> (CanReceiveMore(r.value) <==> kind == Tcp)
  {
    if kind == Base then Err(TypeError)
    else Ok(Connection(kind, sock, peer, kind == Tcp))
  }

  /** A freshly constructed TCPConnection. */
  function TcpConnection(sock: Socket, peer: Address): (c: Connection)
    ensures New(Tcp, sock, peer) == Ok(c)
  {
    Connection(Tcp, sock, peer, true)
  }

  /** i_can_receive_more(): the base class answers False; TCPConnection
      answers its flag. */
  predicate CanReceiveMore(c: Connection) {
    c.kind == Tcp && c.more
  }

  /** How much a connection may still yield; every receive lowers it. */
  function Measure(c: Connection): nat {
    if CanReceiveMore(c) then 1 + Weight(c.sock.incoming) else 0
  }

  datatype Reception = Reception(conn: Connection, data: Result<Bytes>)

  /** receive(): TCPConnection reads at most BUFFER_SIZE bytes and keeps going
      only if the read filled the buffer; the base class is abstract. */
  function Receive(c: Connection): (r: Reception)
    ensures c.kind != Tcp ==> r == Reception(c, Err(NotImplementedError))
    ensures c.kind == Tcp ==> r.conn.kind == Tcp && r.conn.peer == c.peer
    ensures c.kind == Tcp ==> r.conn.sock.requests == c.sock.requests + [BUFFER_SIZE]
    ensures r.conn.sock.sent == c.sock.sent && r.conn.sock.closes == c.sock.closes
    ensures r.conn.sock.window == c.sock.window && r.conn.sock.breaksAt == c.sock.breaksAt
    ensures c.kind == Tcp && r.data.Ok? ==>
              && |r.data.value| <= BUFFER_SIZE
              && (CanReceiveMore(r.conn) <==> |r.data.value| >= BUFFER_SIZE)
              && r.data.value + Payload(r.conn.sock.incoming) == Payload(c.sock.incoming)
    ensures c.kind == Tcp && r.data.Err? ==> r.conn.more == c.more
    ensures c.kind == Tcp && c.sock.incoming == [] ==> r.data == Ok([]) && !CanReceiveMore(r.conn)
    ensures c.kind == Tcp && c.sock.incoming != [] ==> Weight(r.conn.sock.incoming) < Weight(c.sock.incoming)
    ensures c.kind == Tcp && NeverResets(c.sock.incoming) ==> r.data.Ok? && NeverResets(r.conn.sock.incoming)
  {
    if c.kind != Tcp then Reception(c, Err(NotImplementedError))
    else
      var got := Sockets.Recv(c.sock, BUFFER_SIZE);
      match got.data
      case Err(e) => Reception(c.(sock := got.sock), Err(e))
      case Ok(d) => Reception(c.(sock := got.sock, more := |d| >= BUFFER_SIZE), Ok(d))
  }

  datatype Sending = Sending(conn: Connection, count: Result<nat>)

  /** send(data): TCPConnection hands the data to its socket unmodified and
      returns the count the socket reports, or raises what the socket raises. */
  function Send(c: Connection, data: Bytes): (r: Sending)
    ensures c.kind != Tcp ==> r == Sending(c, Err(NotImplementedError))
    ensures c.kind == Tcp ==> (r.count.Err? <==> Broken(c.sock))
    ensures c.kind == Tcp && r.count.Err? ==> r == Sending(c, Err(BrokenPipe))
    ensures c.kind == Tcp && r.count.Ok? ==> r.conn.sock.sent == c.sock.sent + [data]
    ensures c.kind == Tcp && r.count.Ok? ==> r.count.value <= |data| && (|data| <= c.sock.window ==> r.count.value == |data|)
    ensures c.kind == Tcp && r.count.Ok? && |data| > c.sock.window ==> r.count.value == c.sock.window
    ensures CanReceiveMore(r.conn) == CanReceiveMore(c) && r.conn.sock.incoming == c.sock.incoming
    ensures r.conn.sock.closes == c.sock.closes && r.conn.kind == c.kind && r.conn.peer == c.peer
    ensures r.conn.more == c.more && r.conn.sock.requests == c.sock.requests
    ensures r.conn.sock.breaksAt == c.sock.breaksAt
  {
    if c.kind != Tcp then Sending(c, Err(NotImplementedError))
    else
      var s := Sockets.Send(c.sock, data);
      Sending(c.(sock := s.sock), s.count)
  }

  /** close(): exactly one close of the wrapped socket, nothing else. */
  function Close(c: Connection): (r: Connection)
    ensures r.sock.closes == c.sock.closes + 1
    ensures r.(sock := c.sock) == c && r.sock.(closes := c.sock.closes) == c.sock
  {
    c.(sock := Sockets.Close(c.sock))
  }

  /** The outcome of one __next__ call. */
  datatype Step =
    | Yielded(conn: Connection, data: Bytes)
    | Exhausted(conn: Connection)        // StopIteration
    | Raised(conn: Connection, error: Error)

  /** __next__(): StopIteration without touching the socket when no more can
      be received; otherwise exactly one receive(), its result unchanged. */
  function Next(c: Connection): (r: Step)
    ensures r.Exhausted? <==> !CanReceiveMore(c)
    ensures r.Exhausted? ==> r.conn == c
    ensures r.Yielded? ==> Receive(c) == Reception(r.conn, Ok(r.data))
    ensures r.Raised? ==> Receive(c) == Reception(r.conn, Err(r.error))
    ensures r.Yielded? ==> |r.data| <= BUFFER_SIZE && (CanReceiveMore(r.conn) <==> |r.data| >= BUFFER_SIZE)
    ensures !r.Exhausted? ==> Measure(r.conn) < Measure(c)
  {
    if !CanReceiveMore(c) then Exhausted(c)
    else
      var got := Receive(c);
      match got.data
      case Ok(d) => Yielded(got.conn, d)
      case Err(e) => Raised(got.conn, e)
  }

  function Concat(chunks: seq<Bytes>): Bytes {
    if chunks == [] then [] else chunks[0] + Concat(chunks[1..])
  }

  lemma ConcatCons(d: Bytes, chunks: seq<Bytes>)
    ensures Concat([d] + chunks) == d + Concat(chunks)
  {
    assert ([d] + chunks)[1..] == chunks;
  }

  /** Received bytes followed by what is still to come add up to the stream. */
  lemma ConcatPrefix(finished: bool, d: Bytes, chunks: seq<Bytes>, left: Bytes, mid: Bytes, all: Bytes)
    requires d + mid == all
    requires finished ==> Concat(chunks) + left == mid
    ensures finished ==> Concat([d] + chunks) + left == all
  {
    ConcatCons(d, chunks);
    assert Concat([d] + chunks) + left == d + (Concat(chunks) + left);
  }

  /** The whole of what iterating a connection produces: the chunks yielded,
      the connection afterwards, and the exception that ended it, if any. */
  datatype Drained = Drained(conn: Connection, chunks: seq<Bytes>, error: Option<Error>)

  /** `for data in conn`, run to the end. */
  function Drain(c: Connection): (r: Drained)
    decreases Measure(c)
    ensures !CanReceiveMore(c) ==> r == Drained(c, [], None)
    ensures r.error.None? ==> !CanReceiveMore(r.conn)
    ensures CanReceiveMore(c) && r.error.None? ==> r.chunks != []
    ensures ChunkSizes(r.chunks, r.error.None?)
    ensures r.error.None? ==> Concat(r.chunks) + Payload(r.conn.sock.incoming) == Payload(c.sock.incoming)
    ensures r.conn.kind == c.kind && r.conn.peer == c.peer
    ensures r.conn.sock.sent == c.sock.sent && r.conn.sock.closes == c.sock.closes
    ensures r.conn.sock.window == c.sock.window && r.conn.sock.breaksAt == c.sock.breaksAt
  {
    match Next(c)
    case Exhausted(c') => Drained(c', [], None)
    case Raised(c', e) => Drained(c', [], Some(e))
    case Yielded(c', d) =>
      var rest := Drain(c');
      ChunkSizesCons(d, rest.chunks, rest.error.None?);
      ConcatPrefix(rest.error.None?, d, rest.chunks, Payload(rest.conn.sock.incoming), Payload(c'.sock.incoming), Payload(c.sock.incoming));
      Drained(rest.conn, [d] + rest.chunks, rest.error)
  }

  /** Every chunk fits the buffer and all but the last fill it; when the
      iteration `finished` normally, the last one falls short. */
  predicate ChunkSizes(chunks: seq<Bytes>, finished: bool) {
    && (forall i :: 0 <= i < |chunks| ==> |chunks[i]| <= BUFFER_SIZE)
    && (forall i :: 0 <= i < |chunks| - 1 ==> |chunks[i]| == BUFFER_SIZE)
    && (finished && chunks != [] ==> |chunks[|chunks| - 1]| < BUFFER_SIZE)
  }

  /** A full chunk may go in front of any chunks; a short one only in front
      of none. */
  lemma ChunkSizesCons(d: Bytes, chunks: seq<Bytes>, finished: bool)
    requires ChunkSizes(chunks, finished) && |d| <= BUFFER_SIZE
    requires |d| < BUFFER_SIZE ==> chunks == []
    requires |d| >= BUFFER_SIZE && finished ==> chunks != []
    ensures ChunkSizes([d] + chunks, finished)
  {
    var all := [d] + chunks;
    assert forall i :: 1 <= i < |all| ==> all[i] == chunks[i - 1];
  }

  /** A peer that never resets lets iteration run to its normal end. */
  lemma {:induction false} DrainNeverFails(c: Connection)
    requires NeverResets(c.sock.incoming)
    ensures Drain(c).error.None?
    decreases Measure(c)
  {
    var n := Next(c);
    if n.Yielded? {
      DrainStep(c);
      DrainNeverFails(n.conn);
    }
  }

  /** Iteration is not restartable: iterating an exhausted connection again
      yields nothing and touches nothing. */
  lemma DrainAgainYieldsNothing(c: Connection)
    requires Drain(c).error.None?
    ensures Drain(Drain(c).conn) == Drained(Drain(c).conn, [], None)
  {
  }

  /** A subclass that keeps the base i_can_receive_more yields nothing, and
      its abstract receive is never reached. */
  lemma BareSubclassYieldsNothing(sock: Socket, peer: Address)
    ensures New(Bare, sock, peer).Ok?
    ensures Drain(New(Bare, sock, peer).value).chunks == []
    ensures Drain(New(Bare, sock, peer).value).conn.sock == sock
  {
  }

  /** A peer script in which every arrival is data. */
  function Scripted(bs: seq<Bytes>): (r: seq<Arrival>)
    ensures |r| == |bs|
    ensures forall i :: 0 <= i < |bs| ==> r[i] == Data(bs[i])
  {
    seq(|bs|, i requires 0 <= i < |bs| => Data(bs[i]))
  }

  /** Every scripted read fits in one receive buffer. */
  predicate FitsBuffer(bs: seq<Bytes>) {
    forall i :: 0 <= i < |bs| ==> |bs[i]| <= BUFFER_SIZE
  }

  /** The chunks a TCPConnection should yield over the script `bs`: each read
      up to and including the first one shorter than the buffer, and, if every
      scripted read was full, the empty read that reports the peer closed. */
  function Yield(bs: seq<Bytes>): seq<Bytes> {
    if bs == [] then [[]]
    else if |bs[0]| < BUFFER_SIZE then [bs[0]]
    else [bs[0]] + Yield(bs[1..])
  }

  /** How many scripted reads iterating consumes. */
  function Consumed(bs: seq<Bytes>): nat {
    if |Yield(bs)| <= |bs| then |Yield(bs)| else |bs|
  }

  /** The shape of Yield: a non-empty prefix of the script ending at the
      first short read, every chunk but the last a full buffer. */
  lemma {:induction false} YieldShape(bs: seq<Bytes>)
    requires FitsBuffer(bs)
    ensures 1 <= |Yield(bs)| <= |bs| + 1
    ensures forall i :: 0 <= i < |Yield(bs)| - 1 ==> Yield(bs)[i] == bs[i] && |bs[i]| == BUFFER_SIZE
    ensures |Yield(bs)[|Yield(bs)| - 1]| < BUFFER_SIZE
    ensures |Yield(bs)| <= |bs| ==> Yield(bs)[|Yield(bs)| - 1] == bs[|Yield(bs)| - 1]
    ensures |Yield(bs)| == |bs| + 1 ==> Yield(bs) == bs + [[]]
    ensures Consumed(bs) <= |bs|
  {
    if bs == [] {
    } else if |bs[0]| < BUFFER_SIZE {
    } else {
      var tail := bs[1..];
      assert FitsBuffer(tail) by {
        forall i | 0 <= i < |tail| ensures |tail[i]| <= BUFFER_SIZE {
          assert tail[i] == bs[i + 1];
        }
      }
      YieldShape(tail);
      var y := Yield(bs);
      assert y == [bs[0]] + Yield(tail);
      forall i | 0 <= i < |y| - 1 ensures y[i] == bs[i] && |bs[i]| == BUFFER_SIZE {
        if i > 0 {
          assert y[i] == Yield(tail)[i - 1];
          assert tail[i - 1] == bs[i];
        }
      }
      if |y| == |bs| + 1 {
        assert Yield(tail) == tail + [[]];
        assert bs == [bs[0]] + tail;
      }
    }
  }

  /** One receive on a TCPConnection whose next scripted read is `b`, a read
      that fits the buffer: it yields `b` and consumes it. */
  lemma NextScripted(c: Connection, bs: seq<Bytes>)
    requires c.kind == Tcp && c.more && c.sock.incoming == Scripted(bs) && FitsBuffer(bs)
    ensures Next(c).Yielded?
    ensures bs == [] ==> Next(c).data == [] && Next(c).conn.sock.incoming == []
    ensures bs != [] ==> Next(c).data == bs[0] && Next(c).conn.sock.incoming == Scripted(bs[1..])
    ensures Next(c).conn.kind == Tcp && Next(c).conn.sock.requests == c.sock.requests + [BUFFER_SIZE]
  {
    if bs != [] {
      assert c.sock.incoming[0] == Data(bs[0]);
      assert Scripted(bs)[1..] == Scripted(bs[1..]);
    }
  }

  /** One step of iteration: a yielded chunk heads what the rest yields. */
  lemma DrainStep(c: Connection)
    requires Next(c).Yielded?
    ensures Drain(c) == Drained(Drain(Next(c).conn).conn, [Next(c).data] + Drain(Next(c).conn).chunks,
                                Drain(Next(c).conn).error)
  {
  }

  /** After a yielded chunk, the rest of the iteration ends the way the
      whole does. */
  lemma DrainRest(c: Connection)
    requires Next(c).Yielded?
    ensures Drain(Next(c).conn).error == Drain(c).error
  {
    DrainStep(c);
  }

  /** The connection left behind once a scripted iteration has ended. */
  function AfterScript(c: Connection, bs: seq<Bytes>): Connection {
    c.(more := false,
       sock := c.sock.(incoming := Scripted(bs[Consumed(bs)..]),
                       requests := c.sock.requests + seq(|Yield(bs)|, _ => BUFFER_SIZE)))
  }

  lemma AfterScriptStep(c: Connection, c': Connection, bs: seq<Bytes>)
    requires bs != [] && |bs[0]| >= BUFFER_SIZE
    requires c'.sock.incoming == Scripted(bs[1..]) && c'.sock.requests == c.sock.requests + [BUFFER_SIZE]
    requires c' == c.(sock := c'.sock) && c'.sock == c.sock.(incoming := c'.sock.incoming, requests := c'.sock.requests)
    ensures AfterScript(c', bs[1..]) == AfterScript(c, bs)
  {
    var tail := bs[1..];
    assert Yield(bs) == [bs[0]] + Yield(tail);
    assert seq(|Yield(bs)|, _ => BUFFER_SIZE) == [BUFFER_SIZE] + seq(|Yield(tail)|, _ => BUFFER_SIZE);
    assert bs[Consumed(bs)..] == tail[Consumed(tail)..];
  }

  /** The last receive of a scripted iteration: the script is empty or its
      next read is short. */
  lemma DrainScriptedLast(c: Connection, bs: seq<Bytes>)
    requires c.kind == Tcp && c.more && c.sock.incoming == Scripted(bs) && FitsBuffer(bs)
    requires bs == [] || |bs[0]| < BUFFER_SIZE
    ensures Drain(c) == Drained(AfterScript(c, bs), Yield(bs), None)
  {
    NextScripted(c, bs);
    var c' := Next(c).conn;
    assert !CanReceiveMore(c');
    assert Drain(c') == Drained(c', [], None);
  }

  /** Iterating a fresh TCPConnection over a script of reads that each fit the
      buffer yields exactly Yield(script), issues one 1024-byte recv per
      yielded chunk and none after the flag drops, and leaves the rest of the
      script unread. */
  lemma {:induction false} DrainScripted(c: Connection, bs: seq<Bytes>)
    requires c.kind == Tcp && c.more && c.sock.incoming == Scripted(bs) && FitsBuffer(bs)
    ensures Drain(c) == Drained(AfterScript(c, bs), Yield(bs), None)
    decreases |bs|
  {
    if bs == [] || |bs[0]| < BUFFER_SIZE {
      DrainScriptedLast(c, bs);
    } else {
      NextScripted(c, bs);
      var c' := Next(c).conn;
      var tail := bs[1..];
      assert FitsBuffer(tail) by {
        forall i | 0 <= i < |tail| ensures |tail[i]| <= BUFFER_SIZE {
          assert tail[i] == bs[i + 1];
        }
      }
      DrainScripted(c', tail);
      DrainStep(c);
      AfterScriptStep(c, c', bs);
    }
  }
}
