/**
 * The mutexes of the TCP server.  In every interleaving they are released by their owners only, and shared
 * state is touched only under its guard.  Except where a failing allocation removes a connection under its
 * socket's mutex, every thread takes them in the order acceptor, connections, socket, sent.
 */
module TcpServerLocks {
  import opened Common
  import opened TcpServerThreads

  /** The mutex that guards what an instruction touches. */
  function Guard(i: Instr): Option<Lock> {
    match i
    case Accept => Some(Acceptor)
    case ArmAccept(c) => Some(Socket(c))
    case CloseAcceptor => Some(Acceptor)
    case SetRemote(c, _) => Some(Socket(c))
    case Insert(_, _) => Some(Connections)
    case StopAll => Some(Connections)
    case Close(c) => Some(Socket(c))
    case Clear => Some(Connections)
    case Remove(_) => Some(Connections)
    case Receive(c) => Some(Socket(c))
    case SetSending(_) => Some(Sent)
    case _ => None
  }

  predicate Below(held: set<Lock>, l: Lock) {
    forall h <- held :: Rank(h) < Rank(l)
  }

  /** The one way to take a mutex out of order: the table's, with nothing but a socket's held. */
  predicate OutOfOrder(held: set<Lock>, l: Lock) {
    l == Connections && forall h <- held :: h.Socket?
  }

  predicate MayAcquire(strict: bool, held: set<Lock>, l: Lock) {
    Below(held, l) || (!strict && OutOfOrder(held, l))
  }

  /**
   * One instruction obeys the discipline with these mutexes held; taking mutexes upwards without
   * exception is the strict discipline.  Instructions that go on to take mutexes name what they are run under.
   */
  predicate Allowed(strict: bool, held: set<Lock>, i: Instr) {
    && (Guard(i).Some? ==> Guard(i).value in held)
    && (i.Acquire? ==> MayAcquire(strict, held, i.lock))
    && (i.Release? ==> i.lock in held)
    && (i.Accept? ==> held == {Acceptor})
    && (i.StopAll? ==> held == {Connections})
    && (i.Receive? ==> held == {Socket(i.c)})
  }

  function HeldAfter(held: set<Lock>, i: Instr): set<Lock> {
    if i.Acquire? then held + {i.lock} else if i.Release? then held - {i.lock} else held
  }

  /**
   * The mutexes held at the end of a disciplined program; `None` for a program that is not.
   */
  function Leads(strict: bool, held: set<Lock>, p: Program): Option<set<Lock>>
    decreases |p|
  {
    if p == [] then Some(held)
    else if Allowed(strict, held, p[0]) then Leads(strict, HeldAfter(held, p[0]), p[1..])
    else None
  }

  predicate Disciplined(strict: bool, held: set<Lock>, p: Program) {
    Leads(strict, held, p) == Some({})
  }

  ghost function Held(s: Server, t: nat): set<Lock> {
    set l <- s.owner | s.owner[l] == t
  }

  /** Mutexes belong to threads, and every thread is on a disciplined way to its end. */
  ghost predicate LocksOk(strict: bool, s: Server) {
    && (forall l <- s.owner :: s.owner[l] < |s.threads|)
    && (forall t :: 0 <= t < |s.threads| ==> Disciplined(strict, Held(s, t), s.threads[t]))
  }

  // ---------------------------------------------------------------- every program is disciplined

  lemma {:induction false} LeadsAppend(strict: bool, held: set<Lock>, p: Program, q: Program)
    requires Leads(strict, held, p).Some?
    ensures Leads(strict, held, p + q) == Leads(strict, Leads(strict, held, p).value, q)
    decreases |p|
  {
    if p == [] {
      assert p + q == q;
    } else {
      assert (p + q)[1..] == p[1..] + q;
      LeadsAppend(strict, HeldAfter(held, p[0]), p[1..], q);
    }
  }

  lemma LeadsOne(strict: bool, held: set<Lock>, i: Instr)
    requires Allowed(strict, held, i)
    ensures Leads(strict, held, [i]) == Some(HeldAfter(held, i))
  {
    assert [i][1..] == [];
  }

  /** A guarded block leaves the mutexes as they were, if its body does. */
  lemma LeadsLocked(strict: bool, held: set<Lock>, l: Lock, body: Program)
    requires MayAcquire(strict, held, l)
    requires Leads(strict, held + {l}, body) == Some(held + {l})
    ensures Leads(strict, held, Locked(l, body)) == Some(held)
  {
    LeadsOne(strict, held, Acquire(l));
    LeadsAppend(strict, held, [Acquire(l)], body);
    LeadsOne(strict, held + {l}, Release(l));
    LeadsAppend(strict, held, [Acquire(l)] + body, [Release(l)]);
    assert held + {l} - {l} == held;
  }

  lemma LeadsBlock(strict: bool, held: set<Lock>, l: Lock, i: Instr)
    requires MayAcquire(strict, held, l) && Allowed(strict, held + {l}, i) && !i.Acquire? && !i.Release?
    ensures Leads(strict, held, Locked(l, [i])) == Some(held)
  {
    LeadsOne(strict, held + {l}, i);
    LeadsLocked(strict, held, l, [i]);
  }

  lemma StopEachLeads(strict: bool, held: set<Lock>, order: seq<nat>)
    requires held == {Connections}
    ensures Leads(strict, held, StopEach(order)) == Some(held)
  {
    if order == [] {
    } else {
      LeadsBlock(strict, held, Socket(order[0]), Close(order[0]));
      LeadsAppend(strict, held, Locked(Socket(order[0]), [Close(order[0])]), StopEach(order[1..]));
      StopEachLeads(strict, held, order[1..]);
    }
  }

  lemma EnterLeads(strict: bool, c: nat, error: ErrorCode, peer: nat, configured: bool)
    ensures Leads(strict, {}, EnterProgram(c, error, peer, configured)) == Some({})
  {
    var named, entered := Locked(Socket(c), [SetRemote(c, peer)]), Locked(Connections, [Insert(peer, c)]);
    LeadsBlock(strict, {}, Socket(c), SetRemote(c, peer));
    LeadsBlock(strict, {}, Connections, Insert(peer, c));
    LeadsBlock(strict, {}, Socket(c), Receive(c));
    LeadsAppend(strict, {}, named, entered);
    LeadsAppend(strict, {}, named + entered, ReceiveProgram(c));
  }

  lemma AcceptAgainLeads(strict: bool, error: ErrorCode)
    ensures Leads(strict, {}, AcceptAgainProgram(error)) == Some({})
  {
    LeadsBlock(strict, {}, Acceptor, Accept);
    LeadsOne(strict, {}, Schedule);
  }

  lemma StopLeads(strict: bool)
    ensures Leads(strict, {}, StopProgram()) == Some({})
  {
    LeadsBlock(strict, {}, Acceptor, CloseAcceptor);
    LeadsBlock(strict, {}, Connections, StopAll);
    LeadsAppend(strict, {}, Locked(Acceptor, [CloseAcceptor]), Locked(Connections, [StopAll]));
  }

  lemma SendLeads(strict: bool, c: nat)
    ensures Leads(strict, {}, SendProgram(c)) == Some({})
  {
    LeadsBlock(strict, {} + {Socket(c)}, Sent, SetSending(true));
    LeadsLocked(strict, {}, Socket(c), Locked(Sent, [SetSending(true)]));
  }

  lemma SendCbkLeads(strict: bool)
    ensures Leads(strict, {}, SendCbkProgram()) == Some({})
  {
    LeadsBlock(strict, {}, Sent, SetSending(false));
    LeadsLocked(strict, {}, Base, []);
    LeadsAppend(strict, {}, Locked(Sent, [SetSending(false)]), Locked(Base, []));
  }

  lemma StopAndRemoveLeads(strict: bool, c: nat)
    ensures Leads(strict, {}, StopAndRemoveProgram(c)) == Some({})
  {
    LeadsBlock(strict, {} + {Connections}, Socket(c), Close(c));
    LeadsLocked(strict, {}, Connections, Locked(Socket(c), [Close(c)]));
    LeadsBlock(strict, {}, Connections, Remove(c));
    LeadsAppend(strict, {}, Locked(Connections, Locked(Socket(c), [Close(c)])), Locked(Connections, [Remove(c)]));
  }

  /** Every handler, started with no mutex held, obeys the discipline. */
  lemma HandlerDisciplined(strict: bool, l: Label)
    ensures Disciplined(strict, {}, Handler(l))
  {
    match l
    case CallStart => AcceptAgainLeads(strict, NoError);
    case CallStop => StopLeads(strict);
    case CallSend(c) => SendLeads(strict, c);
    case SendDone => SendCbkLeads(strict);
    case WriteFails(c) => StopAndRemoveLeads(strict, c);
    case ReadDone(c) => LeadsBlock(strict, {}, Socket(c), Receive(c));
    case ReadEnds(c) =>
    case ReadTimesOut(c) => LeadsLocked(strict, {}, Socket(c), []);
    case AcceptDone(c, error, peer, configured) =>
      EnterLeads(strict, c, error, peer, configured);
      AcceptAgainLeads(strict, error);
      LeadsAppend(strict, {}, EnterProgram(c, error, peer, configured), AcceptAgainProgram(error));
    case TimerFires(error) => AcceptAgainLeads(strict, NoError);
    case Run(_, _, _, _) =>
  }

  // ---------------------------------------------------------------- every step keeps the discipline

  lemma SpawnKeepsLocks(strict: bool, s: Server, s': Server, p: Program)
    requires LocksOk(strict, s) && Disciplined(strict, {}, p)
    requires s'.owner == s.owner && s'.threads == s.threads + [p]
    ensures LocksOk(strict, s')
  {
    forall t | 0 <= t < |s'.threads| ensures Disciplined(strict, Held(s', t), s'.threads[t]) {
      if t < |s.threads| {
        assert Held(s', t) == Held(s, t);
      } else {
        assert Held(s', t) == {};
      }
    }
  }

  lemma RunKeepsLocks(strict: bool, s: Server, s': Server, t: nat)
    requires LocksOk(strict, s) && t < |s.threads| && s.threads[t] != []
    requires s.threads[t][0].Acquire? ==> s.threads[t][0].lock !in s.owner
    requires |s'.threads| == |s.threads| && s'.threads == s.threads[t := s'.threads[t]]
    requires s'.owner == OwnerAfter(s.owner, t, s.threads[t][0])
    requires Disciplined(strict, HeldAfter(Held(s, t), s.threads[t][0]), s'.threads[t])
    ensures LocksOk(strict, s')
  {
    var i := s.threads[t][0];
    assert Allowed(strict, Held(s, t), i);
    forall u | 0 <= u < |s'.threads| ensures Disciplined(strict, Held(s', u), s'.threads[u]) {
      if u == t {
        assert Held(s', t) == HeldAfter(Held(s, t), i);
      } else {
        assert Held(s', u) == Held(s, u);
      }
    }
  }

  lemma ExceptionLeads(c: nat)
    ensures Leads(false, {Socket(c)}, BufferExceptionProgram(c)) == Some({Socket(c)})
  {
    LeadsOne(false, {Socket(c)}, Close(c));
    LeadsBlock(false, {Socket(c)}, Connections, Remove(c));
    LeadsAppend(false, {Socket(c)}, [Close(c)], Locked(Connections, [Remove(c)]));
  }

  /** What a running instruction turns into is disciplined where it stands. */
  lemma ExpansionDisciplined(strict: bool, s: Server, t: nat, order: seq<nat>, key: nat, allocationFails: bool)
    requires LocksOk(strict, s) && CanRun(s, t, order, key)
    requires strict ==> !Fails(s.shared, s.threads[t][0], allocationFails)
    ensures var i, rest := s.threads[t][0], s.threads[t][1..];
            Disciplined(strict, HeldAfter(Held(s, t), i), ProgramAfter(s.shared, i, rest, order, allocationFails))
  {
    var i, rest, held := s.threads[t][0], s.threads[t][1..], Held(s, t);
    assert Allowed(strict, held, i) && Disciplined(strict, HeldAfter(held, i), rest);
    if i.Accept? && s.shared.acceptorOpen {
      var c := |s.shared.conns|;
      LeadsBlock(strict, held, Socket(c), ArmAccept(c));
      LeadsAppend(strict, held, Locked(Socket(c), [ArmAccept(c)]), rest);
    } else if i.StopAll? {
      StopEachLeads(strict, held, order);
      LeadsOne(strict, held, Clear);
      LeadsAppend(strict, held, StopEach(order), [Clear]);
      LeadsAppend(strict, held, StopEach(order) + [Clear], rest);
    } else if Fails(s.shared, i, allocationFails) {
      ExceptionLeads(i.c);
      LeadsAppend(strict, held, BufferExceptionProgram(i.c), rest);
    }
  }

  /** The step is one in which a read asks for memory and does not get it. */
  predicate FailsAt(s: Server, l: Label) {
    l.Run? && l.t < |s.threads| && s.threads[l.t] != [] && Fails(s.shared, s.threads[l.t][0], l.allocationFails)
  }

  lemma StepKeepsLocks(strict: bool, s: Server, l: Label)
    requires LocksOk(strict, s) && Enabled(s, l) && (strict ==> !FailsAt(s, l))
    ensures LocksOk(strict, After(s, l))
  {
    if l.Run? {
      ExpansionDisciplined(strict, s, l.t, l.order, l.key, l.allocationFails);
      RunKeepsLocks(strict, s, After(s, l), l.t);
    } else {
      HandlerDisciplined(strict, l);
      SpawnKeepsLocks(strict, s, After(s, l), Handler(l));
    }
  }

  /** No read of the execution failed to get its memory. */
  predicate NoneFails(labels: seq<Label>)
    decreases |labels|
  {
    if labels == [] then true
    else
      var front, last := labels[..|labels| - 1], labels[|labels| - 1];
      NoneFails(front) && (Execution(front).Some? ==> !FailsAt(Execution(front).value, last))
  }

  /** Every execution is disciplined, and strictly so as long as no allocation fails. */
  lemma {:induction false} ExecutionKeepsLocks(strict: bool, labels: seq<Label>)
    requires Execution(labels).Some?
    requires strict ==> NoneFails(labels)
    ensures LocksOk(strict, Execution(labels).value)
    decreases |labels|
  {
    if labels == [] {
    } else {
      var front := labels[..|labels| - 1];
      ExecutionKeepsLocks(strict, front);
      StepKeepsLocks(strict, Execution(front).value, labels[|labels| - 1]);
    }
  }

  lemma {:induction false} FromKeepsLocks(s: Server, more: seq<Label>)
    requires LocksOk(false, s) && From(Some(s), more).Some?
    ensures LocksOk(false, From(Some(s), more).value)
    decreases |more|
  {
    if more == [] {
    } else if Enabled(s, more[0]) {
      StepKeepsLocks(false, s, more[0]);
      FromKeepsLocks(After(s, more[0]), more[1..]);
    } else {
      NothingFollowsNone(more[1..]);
    }
  }

  // ---------------------------------------------------------------- executions in which none fails

  predicate NoReadDone(labels: seq<Label>) {
    forall l <- labels :: !l.ReadDone?
  }

  lemma StepFeedsNone(d: Shared, i: Instr, key: nat, allocationFails: bool)
    requires forall conn <- d.conns :: !conn.fed
    ensures forall conn <- SharedAfter(d, i, key, allocationFails).conns :: !conn.fed
  {
    assert forall c :: !ConnAt(d, c).fed;
  }

  lemma ArriveFeedsNone(d: Shared, l: Label)
    requires !l.ReadDone? && (l.TimerFires? ==> 0 < d.timers)
    requires forall conn <- d.conns :: !conn.fed
    ensures forall conn <- Arrive(d, l).conns :: !conn.fed
  {
    assert forall c :: !ConnAt(d, c).fed;
  }

  lemma NoneFed(s: Server, l: Label)
    requires forall conn <- s.shared.conns :: !conn.fed
    ensures !FailsAt(s, l)
    ensures Enabled(s, l) && !l.ReadDone? ==> forall conn <- After(s, l).shared.conns :: !conn.fed
  {
    assert forall c :: !ConnAt(s.shared, c).fed;
    if Enabled(s, l) && !l.ReadDone? {
      if l.Run? {
        StepFeedsNone(s.shared, s.threads[l.t][0], l.key, l.allocationFails);
      } else {
        ArriveFeedsNone(s.shared, l);
      }
    }
  }

  /**
   * As long as no read handler reads on, which is how it is compiled today, no allocation can fail: every
   * connection is armed once, into the buffer it was created with.
   */
  lemma {:induction false} NoneFailsWithoutReadDone(labels: seq<Label>)
    requires NoReadDone(labels)
    ensures NoneFails(labels)
    ensures Execution(labels).Some? ==> forall conn <- Execution(labels).value.shared.conns :: !conn.fed
    decreases |labels|
  {
    if labels == [] {
    } else {
      var front, last := labels[..|labels| - 1], labels[|labels| - 1];
      NoneFailsWithoutReadDone(front);
      assert last in labels;
      if Execution(front).Some? {
        NoneFed(Execution(front).value, last);
      }
    }
  }

  // ---------------------------------------------------------------- who can step, who touches what

  ghost predicate CanStep(s: Server, t: nat) {
    exists order: seq<nat>, key: nat, fails: bool :: Enabled(s, Run(t, order, key, fails))
  }

  lemma {:induction false} Enumerate(values: set<nat>) returns (order: seq<nat>)
    ensures forall c :: c in order <==> c in values
  {
    order := [];
    if values != {} {
      var c :| c in values;
      var others := Enumerate(values - {c});
      order := [c] + others;
    }
  }

  /** Only a mutex that is taken can keep an unfinished thread from its next instruction. */
  lemma UnblockedCanStep(s: Server, t: nat)
    requires t < |s.threads| && s.threads[t] != []
    requires s.threads[t][0].Acquire? ==> s.threads[t][0].lock !in s.owner
    ensures CanStep(s, t)
  {
    var i := s.threads[t][0];
    var order := Enumerate(s.shared.table.Values);
    var key: nat := 0;
    if i.Remove? && i.c in s.shared.table.Values {
      key :| key in s.shared.table && s.shared.table[key] == i.c;
    }
    assert Enabled(s, Run(t, order, key, false));
  }

  /**
   * The instruction a thread is about to perform touches shared state only while the thread owns its guard,
   * and a mutex is released by its owner only; in every execution.
   */
  lemma {:induction false} AccessIsGuarded(labels: seq<Label>, t: nat)
    requires Execution(labels).Some?
    requires t < |Execution(labels).value.threads| && Execution(labels).value.threads[t] != []
    ensures var s := Execution(labels).value;
            var i := s.threads[t][0];
            var guard := Guard(i);
            && (guard.Some? ==> guard.value in s.owner && s.owner[guard.value] == t)
            && (i.Release? ==> i.lock in s.owner && s.owner[i.lock] == t)
  {
    var s := Execution(labels).value;
    ExecutionKeepsLocks(false, labels);
    assert Allowed(false, Held(s, t), s.threads[t][0]);
  }
}
