/**
 * The TCP server as a concurrent system: any number of threads run its handlers, interleaved instruction by
 * instruction, over any number of connections.  A handler is a list of instructions: taking and releasing
 * mutexes, and the reads and updates of shared state between them.  An instruction whose course depends on
 * the state it finds is replaced, when it runs, by the instructions it decides on.
 */
module TcpServerThreads {
  import opened Common

  /** Connections are numbered in the order of their creation; a peer is a remote endpoint. */
  datatype Lock = Acceptor | Connections | Socket(c: nat) | Sent | Base

  function Rank(l: Lock): nat {
    match l
    case Acceptor => 0
    case Connections => 1
    case Socket(_) => 2
    case Sent => 3
    case Base => 4
  }

  datatype Instr =
    | Acquire(lock: Lock)
    | Release(lock: Lock)
    | Accept                          // what `start` does under the acceptor's mutex
    | ArmAccept(c: nat)
    | CloseAcceptor
    | SetRemote(c: nat, peer: nat)
    | Insert(peer: nat, c: nat)
    | StopAll                         // the loop of `stop` over the connection table
    | Close(c: nat)
    | Clear
    | Remove(c: nat)                  // the scan of `remove_connection`
    | Receive(c: nat)                 // what `receive` does under the socket's mutex
    | SetSending(sending: bool)
    | Schedule                        // arms the timer that retries to accept

  type Program = seq<Instr>

  // ---------------------------------------------------------------- the handlers

  /** A block with a lock guard. */
  function Locked(l: Lock, body: Program): Program {
    [Acquire(l)] + body + [Release(l)]
  }

  function StartProgram(): Program {
    Locked(Acceptor, [Accept])
  }

  function StopProgram(): Program {
    Locked(Acceptor, [CloseAcceptor]) + Locked(Connections, [StopAll])
  }

  function ReceiveProgram(c: nat): Program {
    Locked(Socket(c), [Receive(c)])
  }

  function SendProgram(c: nat): Program {
    Locked(Socket(c), Locked(Sent, [SetSending(true)]))
  }

  function SendCbkProgram(): Program {
    Locked(Sent, [SetSending(false)]) + Locked(Base, [])
  }

  function StopAndRemoveProgram(c: nat): Program {
    Locked(Connections, Locked(Socket(c), [Close(c)])) + Locked(Connections, [Remove(c)])
  }

  function TimedOutProgram(c: nat): Program {
    Locked(Socket(c), [])
  }

  /** The accept handler once the outcome is known: the error, the peer, and whether the options could be set. */
  function AcceptedProgram(c: nat, error: ErrorCode, peer: nat, configured: bool): Program {
    EnterProgram(c, error, peer, configured) + AcceptAgainProgram(error)
  }

  function EnterProgram(c: nat, error: ErrorCode, peer: nat, configured: bool): Program {
    if error != NoError then []
    else if !configured then Locked(Socket(c), [SetRemote(c, peer)])
    else Locked(Socket(c), [SetRemote(c, peer)]) + Locked(Connections, [Insert(peer, c)]) + ReceiveProgram(c)
  }

  function AcceptAgainProgram(error: ErrorCode): Program {
    if error == NoDescriptors then [Schedule]
    else if error == BadDescriptor || error == OperationAborted then []
    else StartProgram()
  }

  /** `stop` on every connection of the table, in the order of the iteration. */
  function StopEach(order: seq<nat>): Program {
    if order == [] then []
    else Locked(Socket(order[0]), [Close(order[0])]) + StopEach(order[1..])
  }

  /** The shutdown of a connection whose buffer cannot be changed, run with its socket's mutex held. */
  function BufferExceptionProgram(c: nat): Program {
    [Close(c)] + Locked(Connections, [Remove(c)])
  }

  // ---------------------------------------------------------------- the state

  /**
   * `accepted` is the peer that the accept handler was given; `remote` is the connection's `remote_`; `reading`
   * says that a read is outstanding; `fed` that one has completed, so that the buffer may have to change.
   */
  datatype Conn = Conn(accepted: Option<nat>, remote: Option<nat>, open: bool, reading: bool, fed: bool)

  const FRESH: Conn := Conn(None, None, false, false, false)

  /**
   * What the threads share.  The last five fields are bookkeeping: the external starts, the starts that found
   * the acceptor closed, the accepts or timers that ended the chain with an error, the connections entered into
   * the table, and those whose entry was overwritten.
   */
  datatype Shared = Shared(
    acceptorOpen: bool,
    table: map<nat, nat>,
    conns: seq<Conn>,
    pending: multiset<nat>,
    timers: nat,
    sending: bool,
    starts: nat,
    lostToClose: nat,
    lostToError: nat,
    entered: set<nat>,
    displaced: set<nat>)

  datatype Server = Server(shared: Shared, owner: map<Lock, nat>, threads: seq<Program>)

  const INITIAL: Server := Server(Shared(true, map[], [], multiset{}, 0, false, 0, 0, 0, {}, {}), map[], [])

  datatype Label =
    | CallStart
    | CallStop
    | CallSend(c: nat)
    | SendDone
    | WriteFails(c: nat)
    | ReadDone(c: nat)                // the read handler that reads on
    | ReadEnds(c: nat)                // the read handler that does not, as after an error and in its dumping form
    | ReadTimesOut(c: nat)
    | AcceptDone(c: nat, error: ErrorCode, peer: nat, configured: bool)
    | TimerFires(error: ErrorCode)
    | Run(t: nat, order: seq<nat>, key: nat, allocationFails: bool)

  predicate IsAccepted(d: Shared, c: nat) {
    c < |d.conns| && d.conns[c].accepted.Some?
  }

  /** A thread performs one instruction; `order` and `key` are how the iterations over the table go. */
  predicate CanRun(s: Server, t: nat, order: seq<nat>, key: nat) {
    && t < |s.threads| && s.threads[t] != []
    && match s.threads[t][0]
       case Acquire(l) => l !in s.owner
       case StopAll =>
         && (forall c <- order :: c in s.shared.table.Values)
         && (forall c <- s.shared.table.Values :: c in order)
       case Remove(c) => c in s.shared.table.Values ==> key in s.shared.table && s.shared.table[key] == c
       case _ => true
  }

  predicate Enabled(s: Server, l: Label) {
    match l
    case CallStart => true
    case CallStop => true
    case CallSend(c) => IsAccepted(s.shared, c)
    case SendDone => true
    case WriteFails(c) => IsAccepted(s.shared, c)
    case ReadDone(c) => IsAccepted(s.shared, c) && s.shared.conns[c].reading
    case ReadEnds(c) => IsAccepted(s.shared, c) && s.shared.conns[c].reading
    case ReadTimesOut(c) => IsAccepted(s.shared, c) && s.shared.conns[c].reading
    case AcceptDone(c, error, peer, configured) => c in s.shared.pending && c < |s.shared.conns|
    case TimerFires(error) => 0 < s.shared.timers
    case Run(t, order, key, allocationFails) => CanRun(s, t, order, key)
  }

  function ConnAt(d: Shared, c: nat): Conn {
    if c < |d.conns| then d.conns[c] else FRESH
  }

  function WithConn(conns: seq<Conn>, c: nat, conn: Conn): seq<Conn> {
    if c < |conns| then conns[c := conn] else conns
  }

  function OwnerAfter(owner: map<Lock, nat>, t: nat, i: Instr): map<Lock, nat> {
    if i.Acquire? then owner[i.lock := t] else if i.Release? then owner - {i.lock} else owner
  }

  /**
   * The instruction asks for memory and does not get it.  The first read of a connection is armed into the
   * buffer it was created with and asks for none.
   */
  predicate Fails(d: Shared, i: Instr, allocationFails: bool) {
    i.Receive? && ConnAt(d, i.c).open && ConnAt(d, i.c).fed && allocationFails
  }

  /** What is left to do after an instruction, with what it decides on put in front of the rest. */
  function ProgramAfter(d: Shared, i: Instr, rest: Program, order: seq<nat>, allocationFails: bool): Program {
    match i
    case Accept => if d.acceptorOpen then Locked(Socket(|d.conns|), [ArmAccept(|d.conns|)]) + rest else rest
    case StopAll => StopEach(order) + [Clear] + rest
    case Receive(c) => if Fails(d, i, allocationFails) then BufferExceptionProgram(c) + rest else rest
    case _ => rest
  }

  function ConnsAfter(d: Shared, i: Instr, allocationFails: bool): seq<Conn> {
    match i
    case Accept => if d.acceptorOpen then d.conns + [FRESH] else d.conns
    case SetRemote(c, peer) => WithConn(d.conns, c, ConnAt(d, c).(remote := Some(peer)))
    case Close(c) => WithConn(d.conns, c, ConnAt(d, c).(open := false))
    case Receive(c) =>
      if ConnAt(d, c).open && !Fails(d, i, allocationFails) then WithConn(d.conns, c, ConnAt(d, c).(reading := true))
      else d.conns
    case _ => d.conns
  }

  function TableAfter(table: map<nat, nat>, i: Instr, key: nat): map<nat, nat> {
    match i
    case Insert(peer, c) => table[peer := c]
    case Clear => map[]
    case Remove(c) => if c in table.Values then table - {key} else table
    case _ => table
  }

  /** What an instruction makes of every part of the shared state. */
  function SharedAfter(d: Shared, i: Instr, key: nat, allocationFails: bool): Shared {
    if i.Acquire? || i.Release? || i.StopAll? then d
    else d.(acceptorOpen := d.acceptorOpen && !i.CloseAcceptor?,
            table := TableAfter(d.table, i, key),
            conns := ConnsAfter(d, i, allocationFails),
            pending := if i.ArmAccept? then d.pending + multiset{i.c} else d.pending,
            timers := if i.Schedule? then d.timers + 1 else d.timers,
            sending := if i.SetSending? then i.sending else d.sending,
            lostToClose := if i.Accept? && !d.acceptorOpen then d.lostToClose + 1 else d.lostToClose,
            entered := if i.Insert? then d.entered + {i.c} else d.entered,
            displaced := if i.Insert? && i.peer in d.table then d.displaced + ({d.table[i.peer]} - {i.c})
                         else d.displaced)
  }

  function AfterRun(s: Server, t: nat, order: seq<nat>, key: nat, allocationFails: bool): Server
    requires t < |s.threads| && s.threads[t] != []
  {
    var i, rest := s.threads[t][0], s.threads[t][1..];
    Server(SharedAfter(s.shared, i, key, allocationFails),
           OwnerAfter(s.owner, t, i),
           s.threads[t := ProgramAfter(s.shared, i, rest, order, allocationFails)])
  }

  /** The handler, or the call, that a label other than `Run` starts. */
  function Handler(l: Label): Program {
    match l
    case CallStart => StartProgram()
    case CallStop => StopProgram()
    case CallSend(c) => SendProgram(c)
    case SendDone => SendCbkProgram()
    case WriteFails(c) => StopAndRemoveProgram(c)
    case ReadDone(c) => ReceiveProgram(c)
    case ReadEnds(c) => []
    case ReadTimesOut(c) => TimedOutProgram(c)
    case AcceptDone(c, error, peer, configured) => AcceptedProgram(c, error, peer, configured)
    case TimerFires(error) => if error == NoError then StartProgram() else []
    case Run(_, _, _, _) => []
  }

  /** The accept completed, or the timer fired, with an error that ends the chain of accepts. */
  predicate EndsChain(l: Label) {
    || (l.AcceptDone? && (l.error == BadDescriptor || l.error == OperationAborted))
    || (l.TimerFires? && l.error != NoError)
  }

  function ArriveConns(d: Shared, l: Label): seq<Conn> {
    match l
    case ReadDone(c) => WithConn(d.conns, c, ConnAt(d, c).(reading := false, fed := true))
    case ReadEnds(c) => WithConn(d.conns, c, ConnAt(d, c).(reading := false))
    case ReadTimesOut(c) => WithConn(d.conns, c, ConnAt(d, c).(reading := false))
    case AcceptDone(c, error, peer, _) =>
      if error == NoError then WithConn(d.conns, c, ConnAt(d, c).(accepted := Some(peer), open := true)) else d.conns
    case _ => d.conns
  }

  /** What has happened to the shared state when the handler starts. */
  function Arrive(d: Shared, l: Label): Shared
    requires l.TimerFires? ==> 0 < d.timers
  {
    d.(conns := ArriveConns(d, l),
       pending := if l.AcceptDone? then d.pending - multiset{l.c} else d.pending,
       timers := if l.TimerFires? then d.timers - 1 else d.timers,
       starts := if l.CallStart? then d.starts + 1 else d.starts,
       lostToError := if EndsChain(l) then d.lostToError + 1 else d.lostToError)
  }

  function After(s: Server, l: Label): Server
    requires Enabled(s, l)
  {
    if l.Run? then AfterRun(s, l.t, l.order, l.key, l.allocationFails)
    else Server(Arrive(s.shared, l), s.owner, s.threads + [Handler(l)])
  }

  /** One more step, if it can happen. */
  function Step(s: Option<Server>, l: Label): Option<Server> {
    if s.Some? && Enabled(s.value, l) then Some(After(s.value, l)) else None
  }

  /** The state after the given steps, or `None` when one of them cannot happen. */
  function Execution(labels: seq<Label>): Option<Server> {
    if labels == [] then Some(INITIAL) else Step(Execution(labels[..|labels| - 1]), labels[|labels| - 1])
  }

  /** The state after going on from `s` with the given steps. */
  function From(s: Option<Server>, labels: seq<Label>): Option<Server>
    decreases |labels|
  {
    if labels == [] then s else From(Step(s, labels[0]), labels[1..])
  }

  lemma {:induction false} ExecutionContinues(labels: seq<Label>, more: seq<Label>)
    ensures Execution(labels + more) == From(Execution(labels), more)
    decreases |more|
  {
    if more == [] {
      assert labels + more == labels;
    } else {
      assert (labels + [more[0]])[..|labels + [more[0]]| - 1] == labels;
      assert labels + more == labels + [more[0]] + more[1..];
      ExecutionContinues(labels + [more[0]], more[1..]);
    }
  }

  lemma {:induction false} NothingFollowsNone(more: seq<Label>)
    ensures From(None, more).None?
  {
    if more == [] {
    } else {
      NothingFollowsNone(more[1..]);
    }
  }

  lemma {:induction false} FromAppend(s: Option<Server>, a: seq<Label>, b: seq<Label>)
    ensures From(s, a + b) == From(From(s, a), b)
    decreases |a|
  {
    if a == [] {
      assert a + b == b;
    } else {
      assert (a + b)[1..] == a[1..] + b;
      FromAppend(Step(s, a[0]), a[1..], b);
    }
  }
}
