/** The operating-system socket, reduced to what the forwarder observes: the
    peer is a script of arrivals, and everything this side does to the socket
    is appended to a log. */
module Sockets {
  import opened Errors

  newtype byte = b: int | 0 <= b < 256

  type Bytes = seq<byte>

  /** A (host, port) socket address. */
  datatype Address = Address(host: string, port: int)

  /** What the peer does, in the order a reader of the socket meets it: some
      bytes become readable, or the connection is reset. */
  datatype Arrival = Data(bytes: Bytes) | Reset

  /** A connected stream socket. */
  datatype Socket = Socket(
    incoming: seq<Arrival>,  // what the peer has yet to deliver, in order
    requests: seq<nat>,      // the buffer size of every recv call issued so far
    sent: seq<Bytes>,        // the data of every send call that returned, in order
    window: nat,             // the most bytes a single send reports as accepted
    breaksAt: Option<nat>,   // how many sends the peer takes before it goes away, if it does
    closes: nat)             // close calls issued so far

  /** A socket on which nothing has been done yet, whose peer takes every send. */
  function Fresh(incoming: seq<Arrival>, window: nat): Socket {
    Socket(incoming, [], [], window, None, 0)
  }

  /** The peer has gone away: every further send raises. */
  predicate Broken(s: Socket) {
    s.breaksAt.Some? && |s.sent| >= s.breaksAt.value
  }

  /** The peer stays to take every send. */
  predicate TakesAllSends(s: Socket) {
    s.breaksAt.None?
  }

  /** The byte stream still readable before the first reset (or the end). */
  function Payload(incoming: seq<Arrival>): Bytes {
    if incoming == [] then []
    else match incoming[0]
      case Reset => []
      case Data(b) => b + Payload(incoming[1..])
  }

  /** A measure of how much the peer still has to say; every recv with a
      positive buffer size on a non-empty script makes it smaller. */
  function Weight(incoming: seq<Arrival>): nat {
    if incoming == [] then 0
    else (match incoming[0] case Reset => 1 case Data(b) => 1 + |b|) + Weight(incoming[1..])
  }

  /** The peer never resets the connection: everything it does is data. */
  predicate NeverResets(incoming: seq<Arrival>) {
    forall i :: 0 <= i < |incoming| ==> incoming[i].Data?
  }

  lemma {:induction false} PayloadCons(a: Arrival, rest: seq<Arrival>)
    ensures Payload([a] + rest) == (if a.Reset? then [] else a.bytes + Payload(rest))
    ensures Weight([a] + rest) == (if a.Reset? then 1 else 1 + |a.bytes|) + Weight(rest)
  {
    assert ([a] + rest)[1..] == rest;
  }

  datatype RecvResult = RecvResult(sock: Socket, data: Result<Bytes>)

  /** socket.recv(bufsize): at most `bufsize` bytes of what the peer delivered,
      an empty result once the peer has closed, or an error on a reset. */
  function Recv(s: Socket, bufsize: nat): (r: RecvResult)
    ensures r.sock.requests == s.requests + [bufsize]
    ensures r.sock.sent == s.sent && r.sock.window == s.window && r.sock.closes == s.closes
    ensures r.sock.breaksAt == s.breaksAt
    ensures r.data.Err? <==> s.incoming != [] && s.incoming[0].Reset?
    ensures r.data.Ok? ==> |r.data.value| <= bufsize
    ensures r.data.Ok? ==> r.data.value + Payload(r.sock.incoming) == Payload(s.incoming)
    ensures s.incoming == [] ==> r.data == Ok([]) && r.sock.incoming == []
    ensures s.incoming != [] && s.incoming[0].Data? && |s.incoming[0].bytes| <= bufsize ==>
              r.data == Ok(s.incoming[0].bytes) && r.sock.incoming == s.incoming[1..]
    ensures s.incoming != [] && bufsize > 0 ==> Weight(r.sock.incoming) < Weight(s.incoming)
    ensures NeverResets(s.incoming) ==> NeverResets(r.sock.incoming)
  {
    var s' := s.(requests := s.requests + [bufsize]);
    if s.incoming == [] then RecvResult(s', Ok([]))
    else match s.incoming[0]
      case Reset =>
        PayloadCons(Reset, s.incoming[1..]);
        assert s.incoming == [Reset] + s.incoming[1..];
        RecvResult(s'.(incoming := s.incoming[1..]), Err(ConnectionReset))
      case Data(b) =>
        assert s.incoming == [Data(b)] + s.incoming[1..];
        PayloadCons(Data(b), s.incoming[1..]);
        var t := Take(b, s.incoming[1..], bufsize);
        RecvResult(s'.(incoming := t.1), Ok(t.0))
  }

  /** What recv(bufsize) takes when the peer's next arrival is the data `b`,
      followed by `rest`: all of it if it fits, else the first `bufsize`
      bytes, the others staying first in line. */
  function Take(b: Bytes, rest: seq<Arrival>, bufsize: nat): (r: (Bytes, seq<Arrival>))
    ensures |r.0| <= bufsize
    ensures r.0 + Payload(r.1) == b + Payload(rest)
    ensures |b| <= bufsize ==> r == (b, rest)
    ensures bufsize > 0 ==> Weight(r.1) < 1 + |b| + Weight(rest)
    ensures NeverResets(rest) ==> NeverResets(r.1)
  {
    if |b| <= bufsize then (b, rest)
    else
      PayloadCons(Data(b[bufsize..]), rest);
      assert b[..bufsize] + b[bufsize..] == b;
      (b[..bufsize], [Data(b[bufsize..])] + rest)
  }

  datatype SendResult = SendResult(sock: Socket, count: Result<nat>)

  /** socket.send(data): once the peer has gone the call raises and changes
      nothing; otherwise it is logged with its data unmodified, and the socket
      reports how many of the bytes it accepted. */
  function Send(s: Socket, data: Bytes): (r: SendResult)
    ensures r.count.Err? <==> Broken(s)
    ensures r.count.Err? ==> r.count.error == BrokenPipe && r.sock == s
    ensures r.count.Ok? ==> r.sock.sent == s.sent + [data]
    ensures r.sock.incoming == s.incoming && r.sock.requests == s.requests
    ensures r.sock.window == s.window && r.sock.breaksAt == s.breaksAt && r.sock.closes == s.closes
    ensures r.count.Ok? ==> r.count.value <= |data| && r.count.value <= s.window
    ensures r.count.Ok? && |data| <= s.window ==> r.count.value == |data|
    ensures r.count.Ok? && |data| > s.window ==> r.count.value == s.window
  {
    if Broken(s) then SendResult(s, Err(BrokenPipe))
    else SendResult(s.(sent := s.sent + [data]), Ok(if |data| <= s.window then |data| else s.window))
  }

  /** socket.close(). */
  function Close(s: Socket): (r: Socket)
    ensures r.closes == s.closes + 1
    ensures r.(closes := s.closes) == s
  {
    s.(closes := s.closes + 1)
  }
}
