# forward_port, modelled in Dafny

forward_port is a small TCP port forwarder. An engine (`ListenAndForwardTCP`)
listens on a local address. It accepts one source connection at a time and
opens a connection to a fixed destination. It forwards what the source
yields up to its first short read, then the same from the destination back
to the source, and closes both when nothing raised. Connections (`TCPConnection`) are iterators: each step asks the socket
for up to 1024 bytes, and a short read ends the stream. An aggregator
(`MultiListenAndForward`) runs several engines and kills them together.
`to_socket_address` turns a tuple, list, dict or `"host:port"` string into an
address. `WrappedClosure.unwrap_all` replaces the marked entries of a scope by
what calling them returns.

The model is functional. Every object is an immutable datatype, and every
method is a function that returns the new state together with what the call
returned or raised. Python exceptions are `Err` values of the `Errors.Error`
type.

The modules:

- `Errors` holds the exceptions, `Option` and `Result`.
- `Sockets` is a scripted peer socket. It has a list of arrivals (data or a
  reset), a log of receive requests, a log of sent data, a send window, the
  number of sends after which the peer goes away (if it does), and a close
  count.
- `Connections` models `Connection` and `TCPConnection`.
- `Engine` models the lifecycle of `ListenAndForward` and
  `ListenAndForwardTCP`: construction, the memoized server socket, shutdown,
  kill, the address, and opening the source and destination connections.
- `Relay` models `transmit`, `roundtrip` and
  `handle_forwarding_once_and_cleanup`.
- `Serving` models the `listen_and_forward` loop.
- `Aggregator` models `MultiListenAndForward`.
- `SocketAddress` models `pfwd.to_socket_address`.
- `Closures` models `closureutil.WrappedClosure`.

## Concurrency

Another thread's `kill()` is modelled as a kill point, `Relay.KillPoint`.
`KillAfter(n)` means the forwarding thread reads the running flag `n` more
times, and then the kill takes effect just before the next read. `KillDone`
means the kill has happened. A kill that lands while the loop is blocked in
`accept()` is a separate accept outcome, `Engine.KilledWhileWaiting`, in
which closing the listening socket makes the pending `accept()` raise. That
depends on the platform. On Linux, `close()` does not wake a blocked
`accept()`: the next client is accepted, and transmit drops its first chunk
at the next read of the flag. That path is the `Incoming` outcome with the
kill due at that read (`KillAfter(0)`).

## Where the model follows the code over the documented intent

- `handle_forwarding_once_and_cleanup` is meant to close both connections on
  every exit path. It does not: `pair` is only assigned when `roundtrip`
  returns. The serve loop uses the handler as written,
  `Relay.HandleAsWritten`. The intended cleanup is `Relay.Handle`, and the
  difference is under Findings.
- The aggregator's `kill()` never clears its running flag. So an engine
  appended after `kill()` is still started. See
  `Aggregator.AppendAfterKillStillStarts`.
- Calling `listen_and_forward` again on a killed engine is not simply
  refused. It sets the flag again and raises `AttributeError` from
  `None.accept()`. See `Serving.ServeAfterKill`.

## Model

| member | source | states |
|---|---|---|
| Connections.New | Connection.py:9-14 | Building the base class directly raises TypeError. A subclass builds and keeps the socket and the peer address. A fresh TCPConnection can receive more (`CanReceiveMore`: its flag, Connection.py:43-45 and TCPConnection.py:14-16), and any other subclass cannot. |
| Connections.TcpConnection | TCPConnection.py:9-11 | A TCPConnection is what the checked constructor returns for that class, with the flag set. |
| Connections.Receive | TCPConnection.py:24-28 | Asks the socket for exactly BUFFER_SIZE bytes and returns at most that many. The bytes returned plus what is still to come equal what was to come before. Receiving more stays possible exactly when the read filled the buffer. An empty read ends the stream. The base class raises NotImplementedError. |
| Connections.Send | TCPConnection.py:19-21 | Hands the data unmodified to the socket. Once the peer has gone away, the send raises and changes nothing. Otherwise the data is added to the send log and the socket's count is returned: all of the data when it fits the window, else exactly the window. The base class raises NotImplementedError. |
| Connections.Close | Connection.py:38-40 | Exactly one close of the wrapped socket, and no other change. |
| Connections.Next | Connection.py:31-35 | Raises StopIteration without touching the socket exactly when the connection cannot receive more (`CanReceiveMore`, i_can_receive_more). Otherwise it returns the one receive() result unchanged, or raises its error. Each step lowers the measure. |
| Connections.Drain | Connection.py:17-35 | A full iteration. Every chunk fits the buffer, and every chunk but the last fills it. When the iteration ends normally, the last chunk is short, no more can be received, and the chunks followed by what is left equal everything the peer had to deliver. A connection that cannot receive more yields nothing. |
| Connections.DrainScripted | TCPConnection.py:24-28 | Over a script of reads that each fit the buffer, iteration yields each read up to and including the first short one. If every read was full, the empty read of a closed peer comes last. It issues one request per chunk and consumes exactly those reads. |
| Connections.DrainNeverFails | Connection.py:31-35 | When the peer never resets, iterating a connection always ends normally, by StopIteration. |
| Connections.DrainAgainYieldsNothing | Connection.py:17-19 | The iterator is the object itself. Iterating a normally exhausted connection again yields nothing and changes nothing. |
| Connections.BareSubclassYieldsNothing | Connection.py:43-45 | A subclass that keeps the base i_can_receive_more yields nothing, and its socket is never read. |
| Engine.SelectHook | ListenAndForwardTCP.py:15-17 | A `log_data` keyword wins over `log_data_callback`. The chosen callable gets the engine bound as its first argument. With no callable, the base class's no-op stays. |
| Engine.New | ListenAndForwardTCP.py:9-17 | The abstract base refuses with TypeError. A TCP engine starts not running, without a server socket, with the given addresses, the selected hook, and a backlog of 5 unless one is given. |
| Engine.GetServerSocket | ListenAndForwardTCP.py:32-45 | The first call creates one socket, binds it, listens with the backlog, and replaces the address by the first two fields of the bound name. Later calls return that same socket. The shutdown stub returns None. A failed bind raises a socket error, leaves no socket, and keeps the backlog and the configured address. |
| Engine.GetServerSocketMemoized | ListenAndForwardTCP.py:20-45 | Once get_server_socket has answered, a second call gives the same answer and changes nothing. |
| Engine.Shutdown | ListenAndForward.py:47-60 | Fetches (or creates) the server socket, stubs get_server_socket out and closes the socket, once. After the stub is in place it does nothing. It raises only when a socket cannot be bound. |
| Engine.Kill | ListenAndForward.py:41-44 | Shutdown, then the running flag is cleared. If the shutdown raises, the flag is left as it was. |
| Engine.KillTwice | ListenAndForward.py:41-60 | A second kill is a no-op, so the server socket is closed once. |
| Engine.RunClosesAtMostOnce | ListenAndForward.py:41-67 | Across any sequence of kill, exit, address and socket calls, the server socket is closed at most once, the socket once created stays the same, and the destination never changes. |
| Engine.GetMyAddress | ListenAndForward.py:63-67 | Makes sure the server socket exists, then reports the bound address, which is the resolved port. |
| Engine.GetMyAddressMemoized | ListenAndForward.py:63-67 | After one successful call, later calls give the same address and change nothing. |
| Engine.AcceptOn | ListenAndForwardTCP.py:50 | Looking up accept() on what get_server_socket returns. It succeeds exactly when that is a socket, which it always is for a live engine that can bind. After shutdown the stub's None raises AttributeError, and an engine that cannot bind raises a socket error. |
| Engine.NewSource | ListenAndForwardTCP.py:48-50 | Succeeds exactly when the server socket is available and accept() delivers a connection. It then wraps the accepted socket and peer address in a fresh TCPConnection. After shutdown the stub's None has no accept(), so it raises AttributeError. |
| Engine.NewDestination | ListenAndForwardTCP.py:53-58 | Connects to the fixed destination and labels the connection with that address. A refused connect raises. |
| Engine.Exit | ListenAndForward.py:36-38 | Leaving a `with` block always kills. It returns normally only when neither the block nor kill() raised. When kill() succeeds, the block's exception propagates. |
| Relay.Transmit | ListenAndForward.py:107-122 | Sends nothing back to the source and closes nothing. A completed transmit leaves the source exhausted. The running flag, read before each chunk (`Relay.Read`, lines 113-114), only moves as a pending kill allows. |
| Relay.TransmitTrace | ListenAndForward.py:111-119 | Each forwarded chunk is received, logged with index count+i, then sent to the other side, in order. On abort, one last chunk is received and dropped. On failure, either the source raised, or one last chunk was received and logged and its send raised. The destination's send log gains exactly the forwarded chunks. |
| Relay.TransmitUninterrupted | ListenAndForward.py:111-122 | While running and not killed, transmit forwards exactly what iterating the source yields. It completes, or fails with the source's error. |
| Relay.TransmitKilled | ListenAndForward.py:113-115 | A kill landing after n reads of the flag lets exactly the first n chunks through. If the source has more, the next chunk is received but neither logged nor sent, and transmit returns False. |
| Relay.TransmitWhileStopped | ListenAndForward.py:113-115 | With the flag already cleared, nothing is forwarded, the destination is untouched, and at most one chunk is received. |
| Relay.RoundTrip | ListenAndForward.py:125-134 | The destination-to-source leg runs exactly when the first leg completed, on the states the first leg left. An error from either leg propagates. Nothing is closed. |
| Relay.RoundTripIntegrity | ListenAndForward.py:125-134 | While running and not killed, with peers that never reset and take every send: the destination is passed, by send(), exactly what the source yields, then the source is passed exactly what the destination yields. |
| Relay.HandleAsWritten | ListenAndForward.py:140-150 | As written: on a normal return, source and then destination are closed once each. When the connect or the round trip raises, nothing is closed. |
| Relay.HandleAsWrittenLeaksSource | ListenAndForward.py:140-150 | A refused destination leaves the accepted source connection open. The intended handler closes it. |
| Relay.HandleAsWrittenLeaksOnReset | ListenAndForward.py:140-150 | A source reset by its peer leaves both connections open. |
| Relay.Handle | ListenAndForward.py:140-150 | Intended cleanup: the source is closed once on every path, and the destination once whenever it was opened, both after all forwarding. The exception still propagates. |
| Relay.HandleAgreesWhenNothingRaises | ListenAndForward.py:140-150 | Whenever the written handler returns normally, the intended one does exactly the same. |
| Relay.HandleDelivers | ListenAndForward.py:104-150 | The handler as written, on a connection whose peers never reset and take every send, returns normally. Each side is passed, by send(), exactly the chunks the other side yields, and both sockets are closed once. |
| Relay.TransmitBrokenPipe | ListenAndForward.py:111-119 | A destination whose peer has gone away: the first chunk is received and logged, its send raises, and transmit fails with nothing forwarded and the destination unchanged. |
| Relay.HandleAsWrittenLeaksOnBrokenPipe | ListenAndForward.py:140-150 | A send that raises leaves both connections open in the handler as written, and the error propagates. The intended handler closes both. |
| Serving.Check | ListenAndForward.py:163 | One read of the running flag. It sees a pending kill exactly when the kill is due, and the kill then leaves the flag cleared. |
| Serving.Finish | ListenAndForward.py:171-173 | The `finally` clause: shutdown closes the server socket, once, and stubs get_server_socket out. A pending exception then propagates, and without one the call returns. An engine that cannot bind raises a socket error from the shutdown itself, replacing any pending one. |
| Serving.Pass | ListenAndForward.py:163-164 | One loop body: accept, connect, then the handler as written. A pending kill only advances. An engine that cannot bind raises a socket error and handles nothing. |
| Serving.Loop | ListenAndForward.py:156-173 | The loop handles at most one connection per accept. It is still waiting only on a live listening socket. If it ends, shutdown has run and closed the server socket, once. |
| Serving.Serve | ListenAndForward.py:153-173 | The whole listen_and_forward call handles at most one connection per accept. It is still waiting only on a live listening socket. If it ends, its finally clause has closed the server socket, once. |
| Serving.ServeKillBound | ListenAndForward.py:113-163 | A kill due after n more reads of the flag lets at most n connections be handled. The reads counted are the serve loop's check (line 163) and transmit's check before each chunk (line 113). |
| Serving.ServeUnbindable | ListenAndForwardTCP.py:32-35 | An engine whose socket cannot be bound handles nothing, and the call raises a socket error, whatever the clients do. |
| Serving.ServeAfterKill | ListenAndForwardTCP.py:50 | listen_and_forward on a killed engine sets the flag again and raises AttributeError from the stub's None, handling nothing. A kill still due at the very first check makes the call return instead. |
| Serving.ServeKilledWhileAccepting | ListenAndForward.py:168-173 | A kill while accept() waits: the error propagates after the finally clause, the flag is cleared, and the socket is closed once. |
| Serving.ServeRelaysEverySession | ListenAndForward.py:162-164 | While nobody kills the engine, every accepted session whose peers never reset and take every send has, in order, each side passed by send() what the other side yields, and both of its sockets closed. The call then waits in accept(). |
| Aggregator.New | MultiListenAndForward.py:8-11 | Starts empty and not running. |
| Aggregator.Len | MultiListenAndForward.py:23-32 | The length is that of the iteration order (`Iter`, __iter__ over the list), and it bounds indexing: __getitem__ answers exactly the indices from -len to len-1. |
| Aggregator.GetItem | MultiListenAndForward.py:27-28 | List indexing: a non-negative index counts from the front, a negative one from the end, and anything outside raises IndexError. |
| Aggregator.GetItemFromEnd | MultiListenAndForward.py:27-28 | Counting from the end names the same engine as counting from the front. |
| Aggregator.Append | MultiListenAndForward.py:43-58 | A non-engine raises TypeError and leaves the aggregator as it was. An engine goes last, and is started at once exactly when the aggregator runs. |
| Aggregator.AppendThenLast | MultiListenAndForward.py:51-55 | After an append, index -1 is the appended engine and the length grows by one. |
| Aggregator.ListenAndForward | MultiListenAndForward.py:61-72 | The first call sets the flag and starts every listed engine once, in order. Later calls change nothing. |
| Aggregator.Kill | MultiListenAndForward.py:75-79 | kill() is called on each engine in order until one raises, and that exception propagates. The running flag is untouched. |
| Aggregator.KillReachesAll | MultiListenAndForward.py:75-79 | When no engine's kill raises, every engine is killed exactly once, in order. |
| Aggregator.AppendAfterKillStillStarts | MultiListenAndForward.py:54-55 | An engine appended after kill() to a running aggregator is still started. |
| SocketAddress.ToSocketAddress | pfwd.py:19-45 | A non-str scalar, or a sequence whose length is not 2, raises TypeError. A 2-sequence gives a str host and an int port. A dict takes its host from the first of address, addr, host, ip (default ""), and its port as stored (default 0). |
| SocketAddress.FromPair | pfwd.py:27-29 | A falsy host becomes "", otherwise str() of it. A falsy port becomes 0, otherwise int() of it, whose error propagates. |
| SocketAddress.ParseInt | pfwd.py:29 | int() of text fails only with ValueError. |
| SocketAddress.ParseRejectsStrayCharacter | pfwd.py:29 | A port text holding any character other than white space (space, tab to carriage return), a sign, a digit or an underscore makes int() raise ValueError. |
| SocketAddress.ParseRefusesSeparator | pfwd.py:29 | A file separator (0x1c) before the digits is not white space to int(), so "\x1c80" raises ValueError. |
| SocketAddress.ParseDecimal | pfwd.py:29 | int(str(i)) == i for every integer, with no range check on ports. |
| SocketAddress.Split | pfwd.py:38 | str.split(":") gives parts without a colon that join back to the text. |
| SocketAddress.SplitJoin | pfwd.py:38 | Splitting joined colon-free parts gives the parts back. |
| SocketAddress.StringNeedsOneColon | pfwd.py:27-42 | A string is refused with TypeError exactly when it does not hold exactly one colon. |
| SocketAddress.StringRoundTrip | pfwd.py:37-38 | "host:port", with a colon-free host and a port written by str(), gives back (host, port). For example, ":80" gives ("", 80). |
| SocketAddress.PairPassesThrough | pfwd.py:27-29 | A (str, int) tuple or list comes back unchanged. |
| Closures.New | closureutil.py:6-17 | A non-callable raises TypeError. Calling the instance behaves exactly like calling the stored method. |
| Closures.Call | closureutil.py:20-22 | Calling an instance returns what calling its stored method returns, or raises what it raises. A plain function gives its own outcome, and a value that is not callable raises TypeError. |
| Closures.UnwrapAll | closureutil.py:26-45 | The set of names is unchanged. Each entry whose exact class is cls is replaced by its single call's result, even if that result is itself wrapped. Other entries, subclass instances included, are untouched. The pass fails exactly when a marked call raises. The names visited before that call are replaced and the rest are left as they were. |

## Left out

- Threading. This covers `ThreadingMixIn`, `ListenAndForwardTCPThreading` and the aggregator's worker threads. Threads started are only recorded. A concurrent `kill()` is modelled only at reads of the running flag and while blocked in accept().
- Real sockets. socket(), bind, listen, accept, connect, recv and send are parameters: a scripted peer (`Sockets.Socket`), a bind outcome per engine (`Engine.Os`), and an accept or connect outcome per session. A send fails only in one way, the peer having gone away, after a scripted number of sends.
- The `log_data` hook raising is not modelled. It is a user callback, and every hook is taken to return. An exception from it would leave transmit the way a failed send does (`Relay.TransmitBrokenPipe`), with nothing closed.
- `debugsocket` is not part of this model.
- Socket close raising is not modelled; close always succeeds.
- `__str__`/`__repr__` are left out because they format text: the engine's from its class, `id()` and address, a connection's from its peer address. `str()` or `repr()` of an engine also has the side effect of `Engine.GetMyAddress`, binding and memoizing the server socket or raising the bind error. Being text formatting, they are not modelled, and neither is that side effect when it comes through them.
- `pfwd.log_data`, `_main` and colorama are left out as console I/O.
- `dummysocket.py` and `devnull.py` are test doubles without logic.
- Python's rebinding of methods on the instance is modelled as fields. `get_server_socket` becomes a `stubbed` flag and `get_my_address` an `addressMemo` flag.
- Connections.Send: the model tracks what is passed to send() and the count send() reports, not which bytes reach the peer. The code ignores that count, so with a window under 1024 bytes only a prefix of a chunk may be taken. No lemma here speaks of bytes delivered, and every relay property is stated about the send log.
- SocketAddress.ParseInt: this is Python 3's int(), from 3.6 on, which accepts `_` between digits; Python 2's int() refuses it. Only ASCII white space and ASCII digits are modelled, because str.isspace and int() also accept other Unicode characters. The limit on the number of digits that Python 3.11 and security releases of earlier 3.x put on int() and str() (4300 by default) is not modelled, so for longer texts int() there raises ValueError where the model parses.
- SocketAddress.ParseDecimal: holds for every integer only without that digit limit; on the Python versions that have it, texts longer than 4300 digits are refused.
- Aggregator.GetItem: only int indices are modelled; a slice returns a list of engines and an index of another type raises TypeError, as in a Python list.
- SocketAddress.ParseRejectsStrayCharacter: its digit and white-space classes are ASCII only, as in SocketAddress.ParseInt, so a non-ASCII digit counts as a stray character here although int() would accept it.
- SocketAddress.ToSocketAddress: the host and port found in a dict are returned without any type check, as in the code, so nothing more is stated about them.
- Closures.Call: a subclass that overrides `__call__` is not modelled; every instance calls its stored method.
- Sockets.Recv: the end of a peer's script stands for the peer closing its side, so a receive never blocks. A real client that sends a multiple of 1024 bytes and keeps the connection open while it waits for the reply blocks `TCPConnection.receive` for ever, and the single-threaded loop never reaches `accept()` again. Blocking is not modelled.
- Relay.HandleDelivers: "returns normally" holds only for peers that close after their last write, as Sockets.Recv assumes.
- Serving.ServeRelaysEverySession: "then waits in accept()" holds only for peers that close after their last write, as Sockets.Recv assumes.
- Serving.Serve: `Accepting` stands for a loop blocked in accept() on a listening socket once the scripted sessions run out; the loop never ending is not modelled otherwise.

## Findings

| source | as written | input that shows it | evidently intended | confidence | as-written member | corrected member |
|---|---|---|---|---|---|---|
| ListenAndForward.py:140-150 | `pair` is set only when `roundtrip` returns, so the `finally` clause closes nothing when connecting to the destination or forwarding raises | the destination refuses the connection, the source's peer resets it, or a send finds the peer gone | the accepted source, and the destination when opened, are closed on every path | not executed | Relay.HandleAsWritten, Relay.HandleAsWrittenLeaksSource, Relay.HandleAsWrittenLeaksOnBrokenPipe | Relay.Handle |
