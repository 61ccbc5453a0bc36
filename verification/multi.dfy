/** MultiListenAndForward: an ordered list of engines that are started
    together, each in a thread of its own, and killed together. */
module Aggregator {
  import opened Errors

  /** One engine in the list, as the aggregator sees it: its identity, and
      what its kill() raises, if anything. */
  datatype Listener = Listener(id: nat, killRaises: Option<Error>)

  /** What is handed to append_listener: an engine, or anything else. */
  datatype Candidate = Engine(listener: Listener) | NotAnEngine

  /** `running` is `__is_running`; `started` lists, in order, the engines a
      thread was started for; `killed` the engines whose kill() was called. */
  datatype Multi = Multi(running: bool, listeners: seq<Listener>, started: seq<Listener>, killed: seq<Listener>)

  /** Threads are started for exactly the listed engines, in list order,
      once the aggregator runs, and for none before. */
  predicate Valid(m: Multi) {
    (m.running ==> m.started == m.listeners) && (!m.running ==> m.started == [])
  }

  function New(): (m: Multi)
    ensures Valid(m) && !m.running && m.listeners == [] && m.killed == []
  {
    Multi(false, [], [], [])
  }

  /** __len__: the number of engines iterated, which is exactly the range
      of indices __getitem__ answers, counted from either end. */
  function Len(m: Multi): (n: nat)
    ensures n == |Iter(m)|
    ensures forall i :: GetItem(m, i).Ok? <==> 0 <= i + n && i < n
  {
    |m.listeners|
  }

  /** __iter__: the engines in the order they were appended. */
  function Iter(m: Multi): seq<Listener> {
    m.listeners
  }

  /** __getitem__ with an int index, as a Python list does it: a negative
      index counts from the end, and anything out of range raises IndexError. */
  function GetItem(m: Multi, index: int): (r: Result<Listener>)
    ensures r.Ok? <==> 0 <= index + |Iter(m)| && index < |Iter(m)|
    ensures r.Err? ==> r.error == IndexError
    ensures 0 <= index < |Iter(m)| ==> r == Ok(Iter(m)[index])
    ensures index < 0 && 0 <= index + |Iter(m)| ==> r == Ok(Iter(m)[|Iter(m)| + index])
  {
    if 0 <= index < |m.listeners| then Ok(m.listeners[index])
    else if -|m.listeners| <= index < 0 then Ok(m.listeners[|m.listeners| + index])
    else Err(IndexError)
  }

  /** Counting from the end names the same engine as counting from the start. */
  lemma GetItemFromEnd(m: Multi, i: nat)
    requires i < Len(m)
    ensures GetItem(m, i - Len(m)) == GetItem(m, i)
  {
  }

  /** append_listener (alias append): refuses anything but an engine,
      leaving the list as it was; otherwise appends it, and starts it at
      once when the aggregator is running. */
  function Append(m: Multi, c: Candidate): (r: Result<Multi>)
    ensures r.Err? <==> c.NotAnEngine?
    ensures r.Err? ==> r.error == TypeError
    ensures r.Ok? ==> && r.value.listeners == m.listeners + [c.listener]
                      && r.value.running == m.running && r.value.killed == m.killed
                      && r.value.started == m.started + (if m.running then [c.listener] else [])
    ensures Valid(m) && r.Ok? ==> Valid(r.value)
  {
    match c
    case NotAnEngine => Err(TypeError)
    case Engine(l) => Ok(m.(listeners := m.listeners + [l],
                            started := if m.running then m.started + [l] else m.started))
  }

  /** The last engine after an append is the one appended. */
  lemma AppendThenLast(m: Multi, l: Listener)
    ensures Append(m, Engine(l)).Ok?
    ensures GetItem(Append(m, Engine(l)).value, -1) == Ok(l)
    ensures Len(Append(m, Engine(l)).value) == Len(m) + 1
  {
  }

  /** listen_and_forward(): the first call starts one thread per listed
      engine, in order; later calls do nothing. */
  function ListenAndForward(m: Multi): (r: Multi)
    ensures r.running
    ensures r.listeners == m.listeners && r.killed == m.killed
    ensures m.running ==> r == m
    ensures !m.running ==> r.started == m.started + m.listeners
    ensures Valid(m) ==> Valid(r)
  {
    if m.running then m
    else m.(running := true, started := m.started + m.listeners)
  }

  lemma ListenAndForwardIdempotent(m: Multi)
    ensures ListenAndForward(ListenAndForward(m)) == ListenAndForward(m)
  {
  }

  /** The index of the first engine whose kill() raises, or |ls| if none. */
  function FirstRaising(ls: seq<Listener>): (i: nat)
    ensures i <= |ls|
    ensures forall j :: 0 <= j < i ==> ls[j].killRaises.None?
    ensures i < |ls| ==> ls[i].killRaises.Some?
    decreases |ls|
  {
    if ls == [] then 0
    else if ls[0].killRaises.Some? then 0
    else 1 + FirstRaising(ls[1..])
  }

  /** kill(): calls kill() on every engine in order; the first one that
      raises stops the fan-out and its exception propagates. The running
      flag is left as it is. */
  function Kill(m: Multi): (r: Got)
    ensures r.multi.listeners == m.listeners && r.multi.running == m.running && r.multi.started == m.started
    ensures r.result.Ok? <==> forall j :: 0 <= j < |m.listeners| ==> m.listeners[j].killRaises.None?
    ensures var i := FirstRaising(m.listeners);
            && (i == |m.listeners| ==> r.multi.killed == m.killed + m.listeners)
            && (i < |m.listeners| ==> && r.multi.killed == m.killed + m.listeners[..i + 1]
                                      && r.result == Err(m.listeners[i].killRaises.value))
    ensures Valid(m) ==> Valid(r.multi)
  {
    var i := FirstRaising(m.listeners);
    if i == |m.listeners| then Got(m.(killed := m.killed + m.listeners), Ok(()))
    else Got(m.(killed := m.killed + m.listeners[..i + 1]), Err(m.listeners[i].killRaises.value))
  }

  datatype Got = Got(multi: Multi, result: Result<()>)

  /** Every engine in the list is asked to stop exactly once when none of
      their kills raise. */
  lemma KillReachesAll(m: Multi)
    requires forall j :: 0 <= j < |m.listeners| ==> m.listeners[j].killRaises.None?
    ensures Kill(m).multi.killed == m.killed + m.listeners
    ensures Kill(m).result.Ok?
  {
  }

  /** kill() does not stop auto-start: an engine appended after kill() to a
      running aggregator is still started. */
  lemma AppendAfterKillStillStarts(m: Multi, l: Listener)
    requires m.running
    ensures var k := Kill(m).multi;
            Append(k, Engine(l)).Ok? && Append(k, Engine(l)).value.started == k.started + [l]
  {
  }
}
