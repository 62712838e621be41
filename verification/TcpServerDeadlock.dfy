/**
 * The exception to the order of the server's mutexes.  When a read cannot get memory, the connection is removed
 * with its socket's mutex held, while `stop` and a failed write take the two mutexes the other way round.  Each
 * such failure can end with two threads that block each other for good; so, where none has failed yet, the
 * server is safe exactly if none ever does.  An execution in which a read and `stop` block each other is given.
 */
module TcpServerDeadlock {
  import opened Common
  import opened TcpServerThreads
  import opened TcpServerLocks
  import opened TcpServerTable
  import opened TcpServerProgress
  import opened TcpServerRuns

  // ---------------------------------------------------------------- a failing read can block two threads

  /** With its socket's mutex held, a thread is about to take the table's to remove a connection. */
  predicate Failing(s: Server, t: nat, c: nat) {
    && t < |s.threads| && s.threads[t] != [] && s.threads[t][0] == Acquire(Connections)
    && Socket(c) in s.owner && s.owner[Socket(c)] == t
    && IsAccepted(s.shared, c)
  }

  lemma GoesWrong(s: Server, l: Label)
    requires Enabled(s, l) && !NeverStuck(After(s, l))
    ensures !NeverStuck(s)
  {
    if NeverStuck(s) {
      NeverStuckAfter(s, l);
    }
  }

  /** While the table's mutex is free, a write that fails now blocks the two. */
  lemma FailedWriteCollides(s: Server, t: nat, c: nat)
    requires Failing(s, t, c) && Connections !in s.owner
    ensures !NeverStuck(s)
  {
    var u := |s.threads|;
    var s1 := After(s, WriteFails(c));
    var next := Run(u, [], 0, false);
    assert s1.threads[u][0] == Acquire(Connections) && s1.threads[u][1] == Acquire(Socket(c));
    var s2 := After(s1, next);
    assert Stuck(s2, t, u);
    assert From(Some(s2), []) == Some(s2);
    GoesWrong(s1, next);
    GoesWrong(s, WriteFails(c));
  }

  lemma StaysFailing(s: Server, l: Label, t: nat, c: nat)
    requires LocksOk(false, s) && TableOk(s) && Failing(s, t, c) && Connections in s.owner && Enabled(s, l)
    ensures Failing(After(s, l), t, c)
  {
    StepKeepsTable(s, l);
    if l.Run? {
      assert Allowed(false, Held(s, l.t), s.threads[l.t][0]);
    }
  }

  /** If the thread ever gets the table's mutex, the mutex is free just before, and a failing write comes first. */
  lemma {:induction false} FailingCollides(s: Server, more: seq<Label>, t: nat, c: nat)
    requires LocksOk(false, s) && TableOk(s) && Failing(s, t, c)
    requires From(Some(s), more).Some? && AllDone(From(Some(s), more).value)
    ensures !NeverStuck(s)
    decreases |more|
  {
    if Connections !in s.owner {
      FailedWriteCollides(s, t, c);
    } else if more == [] {
      assert false;
    } else if Enabled(s, more[0]) {
      var l := more[0];
      StepKeepsLocks(false, s, l);
      StepKeepsTable(s, l);
      StaysFailing(s, l, t, c);
      FailingCollides(After(s, l), more[1..], t, c);
      GoesWrong(s, l);
    } else {
      NothingFollowsNone(more[1..]);
      assert false;
    }
  }

  /** A failing read closes its socket next, and then wants the table's mutex. */
  lemma FailureBegins(s: Server, l: Label)
    requires LocksOk(false, s) && TableOk(s) && Enabled(s, l) && FailsAt(s, l)
    ensures var s1, go := After(s, l), Run(l.t, [], 0, false);
            Enabled(s1, go) && Failing(After(s1, go), l.t, s.threads[l.t][0].c)
  {
    var t, c, rest := l.t, s.threads[l.t][0].c, s.threads[l.t][1..];
    HeadIsOk(s, t);
    assert Allowed(false, Held(s, t), Receive(c));
    assert Socket(c) in Held(s, t);
    var s1 := After(s, l);
    assert s1.threads[t] == BufferExceptionProgram(c) + rest;
    assert s1.threads[t][0] == Close(c) && s1.threads[t][1..][0] == Acquire(Connections);
  }

  /** Whatever mutexes are taken: when a read fails to get memory, two threads may come to block each other. */
  lemma FailureCanBlock(s: Server, l: Label)
    requires LocksOk(false, s) && TableOk(s) && Enabled(s, l) && FailsAt(s, l)
    ensures !NeverStuck(After(s, l))
  {
    var s1, go := After(s, l), Run(l.t, [], 0, false);
    FailureBegins(s, l);
    StepKeepsLocks(false, s, l);
    StepKeepsTable(s, l);
    StepKeepsLocks(false, s1, go);
    StepKeepsTable(s1, go);
    var s2 := After(s1, go);
    if NeverStuck(s1) {
      NeverStuckAfter(s1, go);
      Completes(false, s2);
      var more :| From(Some(s2), more).Some? && AllDone(From(Some(s2), more).value);
      FailingCollides(s2, more, l.t, s.threads[l.t][0].c);
    }
  }

  /** Two threads wait for each other, and go on doing so whatever the others do. */
  ghost predicate Deadlocked(labels: seq<Label>, t: nat, u: nat) {
    && Execution(labels).Some? && Stuck(Execution(labels).value, t, u)
    && forall more :: From(Execution(labels), more).Some? ==> Stuck(From(Execution(labels), more).value, t, u)
  }

  lemma {:induction false} StuckIsDeadlocked(labels: seq<Label>, t: nat, u: nat)
    requires Execution(labels).Some? && Stuck(Execution(labels).value, t, u)
    ensures Deadlocked(labels, t, u)
  {
    ExecutionKeepsLocks(false, labels);
    forall more | From(Execution(labels), more).Some? ensures Stuck(From(Execution(labels), more).value, t, u) {
      StuckForever(Execution(labels).value, more, t, u);
    }
  }

  /** Every execution in which a read fails to get memory can go on to one in which two threads block for good. */
  lemma {:induction false} FailingAllocationDeadlocks(labels: seq<Label>, s: Server, l: Label)
    requires Execution(labels) == Some(s) && Enabled(s, l) && FailsAt(s, l)
    ensures exists more: seq<Label>, t: nat, u: nat :: Deadlocked(labels + [l] + more, t, u)
  {
    ExecutionKeepsLocks(false, labels);
    ExecutionKeepsTable(labels);
    FailureCanBlock(s, l);
    assert (labels + [l])[..|labels + [l]| - 1] == labels;
    var s1 := After(s, l);
    var more, t: nat, u: nat :| From(Some(s1), more).Some? && Stuck(From(Some(s1), more).value, t, u);
    ExecutionContinues(labels + [l], more);
    StuckIsDeadlocked(labels + [l] + more, t, u);
  }

  // ---------------------------------------------------------------- exactly when the server is safe

  /** However the server goes on, no read fails to get memory. */
  ghost predicate NeverFails(s: Server) {
    forall more, l :: From(Some(s), more).Some? && Enabled(From(Some(s), more).value, l) ==>
      !FailsAt(From(Some(s), more).value, l)
  }

  lemma NeverFailsAfter(s: Server, l: Label)
    requires NeverFails(s) && Enabled(s, l)
    ensures NeverFails(After(s, l)) && !FailsAt(s, l)
  {
    assert From(Some(s), []) == Some(s);
    forall more, k | From(Some(After(s, l)), more).Some? && Enabled(From(Some(After(s, l)), more).value, k)
      ensures !FailsAt(From(Some(After(s, l)), more).value, k)
    {
      assert ([l] + more)[0] == l && ([l] + more)[1..] == more;
      assert From(Some(s), [l] + more) == From(Some(After(s, l)), more);
    }
  }

  lemma {:induction false} NeverFailsKeepsStrict(s: Server, more: seq<Label>)
    requires LocksOk(true, s) && NeverFails(s) && From(Some(s), more).Some?
    ensures LocksOk(true, From(Some(s), more).value)
    decreases |more|
  {
    if more == [] {
    } else if Enabled(s, more[0]) {
      NeverFailsAfter(s, more[0]);
      StepKeepsLocks(true, s, more[0]);
      NeverFailsKeepsStrict(After(s, more[0]), more[1..]);
    } else {
      NothingFollowsNone(more[1..]);
    }
  }

  lemma NeverFailsNeverStuck(s: Server)
    requires LocksOk(true, s) && NeverFails(s)
    ensures NeverStuck(s)
  {
    forall more, t, u | From(Some(s), more).Some? ensures !Stuck(From(Some(s), more).value, t, u) {
      NeverFailsKeepsStrict(s, more);
      StrictIsNotStuck(From(Some(s), more).value, t, u);
    }
  }

  lemma {:induction false} FromKeepsTable(s: Server, more: seq<Label>)
    requires TableOk(s) && From(Some(s), more).Some?
    ensures TableOk(From(Some(s), more).value)
    decreases |more|
  {
    if more == [] {
    } else if Enabled(s, more[0]) {
      StepKeepsTable(s, more[0]);
      FromKeepsTable(After(s, more[0]), more[1..]);
    } else {
      NothingFollowsNone(more[1..]);
    }
  }

  lemma NeverStuckNeverFails(s: Server)
    requires LocksOk(false, s) && TableOk(s) && NeverStuck(s)
    ensures NeverFails(s)
  {
    forall more, l | From(Some(s), more).Some? && Enabled(From(Some(s), more).value, l)
      ensures !FailsAt(From(Some(s), more).value, l)
    {
      var s' := From(Some(s), more).value;
      FromKeepsLocks(s, more);
      FromKeepsTable(s, more);
      NeverStuckLater(s, more);
      if FailsAt(s', l) {
        FailureCanBlock(s', l);
        GoesWrong(s', l);
      }
    }
  }

  /**
   * The exact condition, at the branch that fails: from every state that an execution without a failing read
   * reaches, no two threads ever come to wait for each other, and everything begun can always be finished,
   * exactly if no read ever fails to get memory.
   */
  lemma {:induction false} SafeIffNoneFails(labels: seq<Label>, s: Server)
    requires Execution(labels) == Some(s) && NoneFails(labels)
    ensures NeverStuck(s) <==> NeverFails(s)
    ensures AlwaysCompletes(s) <==> NeverFails(s)
  {
    ExecutionKeepsLocks(true, labels);
    ExecutionKeepsLocks(false, labels);
    ExecutionKeepsTable(labels);
    if NeverStuck(s) {
      NeverStuckNeverFails(s);
    }
    if NeverFails(s) {
      NeverFailsNeverStuck(s);
    }
    CompletesIff(labels);
  }

  // ---------------------------------------------------------------- it does happen

  lemma ReadFails(s: Server, before: seq<Program>, c: nat, rest: Program)
    requires s.threads == before + [[Receive(c)] + rest]
    requires ConnAt(s.shared, c).open && ConnAt(s.shared, c).fed
    ensures Step(Some(s), Run(|before|, [], 0, true))
         == Some(Server(s.shared, s.owner, before + [[Close(c)] + (Locked(Connections, [Remove(c)]) + rest)]))
  {
    var t, p := |before|, [Close(c)] + (Locked(Connections, [Remove(c)]) + rest);
    assert s.threads[t][0] == Receive(c) && s.threads[t][1..] == rest;
    assert BufferExceptionProgram(c) + rest == p;
    assert s.threads[t := p] == before + [p];
  }

  /** The read handler that reads on. */
  function Fed(d: Shared, c: nat): Shared {
    Arrive(d, ReadDone(c))
  }

  lemma ReadAboutToFail(labels: seq<Label>, s: Server, c: nat) returns (more: seq<Label>)
    requires Execution(labels) == Some(s) && IsAccepted(s.shared, c) && s.shared.conns[c].reading
    requires Socket(c) !in s.owner
    ensures Execution(more) == Some(Server(Fed(s.shared, c), s.owner[Socket(c) := |s.threads|],
                                           s.threads + [[Receive(c)] + [Release(Socket(c))]]))
  {
    more := Go(labels, ReadDone(c));
    assert ReceiveProgram(c) == [Acquire(Socket(c))] + ([Receive(c)] + [Release(Socket(c))]);
    var s1 := Server(Fed(s.shared, c), s.owner, s.threads + [ReceiveProgram(c)]);
    more := GoOn(more, s1, s.threads, Acquire(Socket(c)), [Receive(c)] + [Release(Socket(c))]);
  }

  /** The removal under the socket's mutex, once the socket is closed. */
  function RemoveUnderSocket(c: nat): Program {
    Locked(Connections, [Remove(c)]) + [Release(Socket(c))]
  }

  lemma ReadHasFailed(labels: seq<Label>, s: Server, c: nat) returns (more: seq<Label>)
    requires Execution(labels) == Some(s) && IsAccepted(s.shared, c)
    requires s.shared.conns[c].reading && s.shared.conns[c].open && Socket(c) !in s.owner
    ensures Execution(more) == Some(Server(SharedAfter(Fed(s.shared, c), Close(c), 0, false),
                                           s.owner[Socket(c) := |s.threads|],
                                           s.threads + [RemoveUnderSocket(c)]))
  {
    var owner := s.owner[Socket(c) := |s.threads|];
    more := ReadAboutToFail(labels, s, c);
    var s1 := Server(Fed(s.shared, c), owner, s.threads + [[Receive(c)] + [Release(Socket(c))]]);
    ReadFails(s1, s.threads, c, [Release(Socket(c))]);
    more := Go(more, Run(|s.threads|, [], 0, true));
    var s2 := Server(Fed(s.shared, c), owner, s.threads + [[Close(c)] + RemoveUnderSocket(c)]);
    more := GoOn(more, s2, s.threads, Close(c), RemoveUnderSocket(c));
  }

  lemma SameTableAfterClose(d: Shared, c: nat)
    ensures SharedAfter(Fed(d, c), Close(c), 0, false).table == d.table
  {
  }

  /** A failing read and `stop` block each other. */
  lemma StopMeetsFailure(labels: seq<Label>, s: Server, peer: nat, c: nat) returns (more: seq<Label>)
    requires Execution(labels) == Some(s) && IsAccepted(s.shared, c) && s.owner == map[]
    requires s.shared.conns[c].reading && s.shared.conns[c].open && s.shared.table == map[peer := c]
    ensures Deadlocked(more, |s.threads|, |s.threads| + 1)
  {
    var t, owner := |s.threads|, s.owner[Socket(c) := |s.threads|];
    var d1 := SharedAfter(Fed(s.shared, c), Close(c), 0, false);
    more := ReadHasFailed(labels, s, c);
    SameTableAfterClose(s.shared, c);
    var s1 := Server(d1, owner, s.threads + [RemoveUnderSocket(c)]);
    more := AboutToClear(more, s1, peer, c);
    var s2 := Server(SharedAfter(d1, CloseAcceptor, 0, false), owner[Connections := t + 1],
                     s1.threads + [ClearTable(c)]);
    assert s2.threads[t] == RemoveUnderSocket(c) && s2.threads[t + 1] == ClearTable(c);
    assert Stuck(s2, t, t + 1);
    StuckIsDeadlocked(more, t, t + 1);
  }

  /**
   * So with the read handler that reads on the server can deadlock: the first connection's second read fails
   * to get memory while `stop` runs.
   */
  lemma DeadlockHappens()
    ensures exists labels: seq<Label>, t: nat, u: nat :: Deadlocked(labels, t, u)
  {
    var labels := OneConnection();
    labels := StopMeetsFailure(labels, Server(Reading(Listening(STARTED), 0, 7), map[], [[]] + [StartProgram()]), 7, 0);
  }
}
