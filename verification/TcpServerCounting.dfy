/** Counting instructions in the programs of all threads. */
module TcpServerCounting {
  import opened Common
  import opened TcpServerThreads

  function Weight(p: Program, w: Instr -> nat): nat
    decreases |p|
  {
    if p == [] then 0 else w(p[0]) + Weight(p[1..], w)
  }

  function Total(threads: seq<Program>, w: Instr -> nat): nat
    decreases |threads|
  {
    if threads == [] then 0 else Weight(threads[0], w) + Total(threads[1..], w)
  }

  lemma {:induction false} WeightAppend(p: Program, q: Program, w: Instr -> nat)
    ensures Weight(p + q, w) == Weight(p, w) + Weight(q, w)
    decreases |p|
  {
    if p == [] {
      assert p + q == q;
    } else {
      assert (p + q)[1..] == p[1..] + q;
      WeightAppend(p[1..], q, w);
    }
  }

  /** What taking and releasing a mutex counts for. */
  function LockWeight(w: Instr -> nat, l: Lock): nat {
    w(Acquire(l)) + w(Release(l))
  }

  lemma WeightLocked(l: Lock, body: Program, w: Instr -> nat)
    ensures Weight(Locked(l, body), w) == LockWeight(w, l) + Weight(body, w)
  {
    WeightAppend([Acquire(l)] + body, [Release(l)], w);
    WeightAppend([Acquire(l)], body, w);
    assert [Acquire(l)][1..] == [] && [Release(l)][1..] == [];
  }

  lemma WeightOne(i: Instr, w: Instr -> nat)
    ensures Weight([i], w) == w(i)
  {
    assert [i][1..] == [];
  }

  lemma WeightBlock(l: Lock, i: Instr, w: Instr -> nat)
    ensures Weight(Locked(l, [i]), w) == LockWeight(w, l) + w(i)
  {
    WeightLocked(l, [i], w);
    WeightOne(i, w);
  }

  lemma {:induction false} TotalAppend(threads: seq<Program>, p: Program, w: Instr -> nat)
    ensures Total(threads + [p], w) == Total(threads, w) + Weight(p, w)
    decreases |threads|
  {
    if threads == [] {
      assert threads + [p] == [p] && [p][1..] == [];
    } else {
      assert (threads + [p])[1..] == threads[1..] + [p];
      TotalAppend(threads[1..], p, w);
    }
  }

  lemma {:induction false} TotalUpdate(threads: seq<Program>, t: nat, p: Program, w: Instr -> nat)
    requires t < |threads|
    ensures Total(threads[t := p], w) == Total(threads, w) - Weight(threads[t], w) + Weight(p, w)
    ensures Weight(threads[t], w) <= Total(threads, w)
    decreases |threads|
  {
    if t == 0 {
      assert threads[t := p][1..] == threads[1..];
    } else {
      assert threads[t := p][1..] == threads[1..][t - 1 := p];
      TotalUpdate(threads[1..], t - 1, p, w);
    }
  }

  // ---------------------------------------------------------------- handlers

  /** An instruction that is one hop of an accept chain. */
  predicate IsHop(i: Instr) {
    i.Accept? || i.ArmAccept? || i.Schedule?
  }

  lemma EnterWeight(w: Instr -> nat, c: nat, error: ErrorCode, peer: nat, configured: bool)
    ensures Weight(EnterProgram(c, error, peer, configured), w) == EntryWeight(w, c, error, peer, configured)
  {
    var named, entered := Locked(Socket(c), [SetRemote(c, peer)]), Locked(Connections, [Insert(peer, c)]);
    WeightBlock(Socket(c), SetRemote(c, peer), w);
    WeightBlock(Connections, Insert(peer, c), w);
    WeightBlock(Socket(c), Receive(c), w);
    WeightAppend(named, entered, w);
    WeightAppend(named + entered, ReceiveProgram(c), w);
  }

  /** A successful accept names its connection, and enters it and begins to read if its options could be set. */
  function EntryWeight(w: Instr -> nat, c: nat, error: ErrorCode, peer: nat, configured: bool): nat {
    (if error == NoError then LockWeight(w, Socket(c)) + w(SetRemote(c, peer)) else 0)
    + (if error == NoError && configured
       then LockWeight(w, Connections) + w(Insert(peer, c)) + LockWeight(w, Socket(c)) + w(Receive(c))
       else 0)
  }

  function StartWeight(w: Instr -> nat): nat {
    LockWeight(w, Acceptor) + w(Accept)
  }

  /** Every outcome but three accepts again; lacking descriptors waits for that. */
  function AgainWeight(w: Instr -> nat, error: ErrorCode): nat {
    if error == NoDescriptors then w(Schedule)
    else if error == BadDescriptor || error == OperationAborted then 0
    else StartWeight(w)
  }

  lemma AcceptAgainWeight(w: Instr -> nat, error: ErrorCode)
    ensures Weight(AcceptAgainProgram(error), w) == AgainWeight(w, error)
  {
    if error == NoDescriptors {
      WeightOne(Schedule, w);
    } else {
      WeightBlock(Acceptor, Accept, w);
    }
  }

  /** What a handler brings: its updates and its mutexes, each as often as told here, and nothing else. */
  function WeightOf(w: Instr -> nat, l: Label): nat {
    match l
    case CallStart => StartWeight(w)
    case CallStop => LockWeight(w, Acceptor) + w(CloseAcceptor) + LockWeight(w, Connections) + w(StopAll)
    case CallSend(c) => LockWeight(w, Socket(c)) + LockWeight(w, Sent) + w(SetSending(true))
    case SendDone => LockWeight(w, Sent) + w(SetSending(false)) + LockWeight(w, Base)
    case WriteFails(c) => 2 * LockWeight(w, Connections) + LockWeight(w, Socket(c)) + w(Close(c)) + w(Remove(c))
    case ReadDone(c) => LockWeight(w, Socket(c)) + w(Receive(c))
    case ReadTimesOut(c) => LockWeight(w, Socket(c))
    case AcceptDone(c, error, peer, configured) =>
      EntryWeight(w, c, error, peer, configured) + AgainWeight(w, error)
    case TimerFires(error) => if error == NoError then StartWeight(w) else 0
    case _ => 0
  }

  lemma StopWeight(w: Instr -> nat)
    ensures Weight(StopProgram(), w) == WeightOf(w, CallStop)
  {
    WeightBlock(Acceptor, CloseAcceptor, w);
    WeightBlock(Connections, StopAll, w);
    WeightAppend(Locked(Acceptor, [CloseAcceptor]), Locked(Connections, [StopAll]), w);
  }

  lemma SendWeight(w: Instr -> nat, c: nat)
    ensures Weight(SendProgram(c), w) == WeightOf(w, CallSend(c))
  {
    WeightBlock(Sent, SetSending(true), w);
    WeightLocked(Socket(c), Locked(Sent, [SetSending(true)]), w);
  }

  lemma SendCbkWeight(w: Instr -> nat)
    ensures Weight(SendCbkProgram(), w) == WeightOf(w, SendDone)
  {
    WeightBlock(Sent, SetSending(false), w);
    WeightLocked(Base, [], w);
    WeightAppend(Locked(Sent, [SetSending(false)]), Locked(Base, []), w);
  }

  lemma StopAndRemoveWeight(w: Instr -> nat, c: nat)
    ensures Weight(StopAndRemoveProgram(c), w) == WeightOf(w, WriteFails(c))
  {
    WeightBlock(Socket(c), Close(c), w);
    WeightLocked(Connections, Locked(Socket(c), [Close(c)]), w);
    WeightBlock(Connections, Remove(c), w);
    WeightAppend(Locked(Connections, Locked(Socket(c), [Close(c)])), Locked(Connections, [Remove(c)]), w);
  }

  lemma AcceptedWeight(w: Instr -> nat, c: nat, error: ErrorCode, peer: nat, configured: bool)
    ensures Weight(AcceptedProgram(c, error, peer, configured), w)
         == EntryWeight(w, c, error, peer, configured) + AgainWeight(w, error)
  {
    EnterWeight(w, c, error, peer, configured);
    AcceptAgainWeight(w, error);
    WeightAppend(EnterProgram(c, error, peer, configured), AcceptAgainProgram(error), w);
  }

  /** For every way to count instructions: a handler performs exactly these. */
  lemma HandlerWeight(w: Instr -> nat, l: Label)
    ensures Weight(Handler(l), w) == WeightOf(w, l)
  {
    match l
    case CallStart => WeightBlock(Acceptor, Accept, w);
    case CallStop => StopWeight(w);
    case CallSend(c) => SendWeight(w, c);
    case SendDone => SendCbkWeight(w);
    case WriteFails(c) => StopAndRemoveWeight(w, c);
    case ReadDone(c) => WeightBlock(Socket(c), Receive(c), w);
    case ReadEnds(c) =>
    case ReadTimesOut(c) => WeightLocked(Socket(c), [], w);
    case AcceptDone(c, error, peer, configured) => AcceptedWeight(w, c, error, peer, configured);
    case TimerFires(error) => WeightBlock(Acceptor, Accept, w);
    case Run(_, _, _, _) =>
  }

  // ---------------------------------------------------------------- running instructions

  /** These weights count hops, entries into the table, reads and loops over the table only. */
  ghost predicate CountsSteps(w: Instr -> nat) {
    forall i: Instr :: !IsHop(i) && !i.Insert? && !i.Receive? && !i.StopAll? ==> w(i) == 0
  }

  lemma {:induction false} StopEachWeighsNothing(w: Instr -> nat, order: seq<nat>)
    requires CountsSteps(w)
    ensures Weight(StopEach(order), w) == 0
  {
    if order == [] {
    } else {
      WeightAppend(Locked(Socket(order[0]), [Close(order[0])]), StopEach(order[1..]), w);
      WeightBlock(Socket(order[0]), Close(order[0]), w);
      StopEachWeighsNothing(w, order[1..]);
    }
  }

  /** An instruction passes its hop on, or settles it. */
  lemma ProgramAfterWeight(w: Instr -> nat, d: Shared, i: Instr, rest: Program, order: seq<nat>, allocationFails: bool)
    requires CountsSteps(w)
    ensures Weight(ProgramAfter(d, i, rest, order, allocationFails), w)
         == Weight(rest, w) + if i.Accept? && d.acceptorOpen then w(ArmAccept(|d.conns|)) else 0
  {
    if i.Accept? && d.acceptorOpen {
      WeightBlock(Socket(|d.conns|), ArmAccept(|d.conns|), w);
      WeightAppend(Locked(Socket(|d.conns|), [ArmAccept(|d.conns|)]), rest, w);
    } else if i.StopAll? {
      StopAllWeight(w, rest, order);
    } else if Fails(d, i, allocationFails) {
      BufferExceptionWeighsNothing(w, i.c);
      WeightAppend(BufferExceptionProgram(i.c), rest, w);
    }
  }

  lemma StopAllWeight(w: Instr -> nat, rest: Program, order: seq<nat>)
    requires CountsSteps(w)
    ensures Weight(StopEach(order) + [Clear] + rest, w) == Weight(rest, w)
  {
    StopEachWeighsNothing(w, order);
    WeightOne(Clear, w);
    WeightAppend(StopEach(order), [Clear], w);
    WeightAppend(StopEach(order) + [Clear], rest, w);
  }

  lemma BufferExceptionWeighsNothing(w: Instr -> nat, c: nat)
    requires CountsSteps(w)
    ensures Weight(BufferExceptionProgram(c), w) == 0
  {
    WeightOne(Close(c), w);
    WeightBlock(Connections, Remove(c), w);
    WeightAppend([Close(c)], Locked(Connections, [Remove(c)]), w);
  }
}
