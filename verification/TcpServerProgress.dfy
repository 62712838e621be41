/**
 * When the TCP server can go on.  In every execution, failing allocations included, an unfinished thread means
 * that some thread can step, or that two threads wait for each other's mutex; such a pair waits for good.  So a
 * server can always be run to completion exactly if it never comes to such a pair, and it never does as long as
 * no allocation fails.
 */
module TcpServerProgress {
  import opened Common
  import opened LockOrder
  import opened TcpServerThreads
  import opened TcpServerCounting
  import opened TcpServerLocks

  // ---------------------------------------------------------------- stuck pairs

  /** Each of two threads waits for a mutex that the other owns. */
  predicate Stuck(s: Server, t: nat, u: nat) {
    t != u && WaitsFor(s, t, u) && WaitsFor(s, u, t)
  }

  predicate WaitsFor(s: Server, t: nat, u: nat) {
    && t < |s.threads| && s.threads[t] != [] && s.threads[t][0].Acquire?
    && s.threads[t][0].lock in s.owner && s.owner[s.threads[t][0].lock] == u
  }

  lemma StaysStuck(s: Server, l: Label, t: nat, u: nat)
    requires LocksOk(false, s) && Stuck(s, t, u) && Enabled(s, l)
    ensures Stuck(After(s, l), t, u)
  {
    if l.Run? {
      assert Allowed(false, Held(s, l.t), s.threads[l.t][0]);
      assert l.t != t && l.t != u;
    }
  }

  /** Two such threads never go on, whatever the others do. */
  lemma {:induction false} StuckForever(s: Server, more: seq<Label>, t: nat, u: nat)
    requires LocksOk(false, s) && Stuck(s, t, u) && From(Some(s), more).Some?
    ensures Stuck(From(Some(s), more).value, t, u)
    decreases |more|
  {
    if more == [] {
    } else if Enabled(s, more[0]) {
      StepKeepsLocks(false, s, more[0]);
      StaysStuck(s, more[0], t, u);
      StuckForever(After(s, more[0]), more[1..], t, u);
    } else {
      NothingFollowsNone(more[1..]);
    }
  }

  /** A thread with a connection's mutex waits for the table's, whose owner waits for that connection's. */
  predicate Collides(s: Server, t: nat, u: nat) {
    && WaitsFor(s, t, u) && s.threads[t][0].lock == Connections
    && WaitsFor(s, u, t) && s.threads[u][0].lock.Socket?
  }

  /** Every stuck pair is one removal under a socket's mutex meeting one under the table's. */
  lemma {:induction false} StuckIsCollision(labels: seq<Label>, t: nat, u: nat)
    requires Execution(labels).Some?
    ensures var s := Execution(labels).value;
            Stuck(s, t, u) <==> t != u && (Collides(s, t, u) || Collides(s, u, t))
  {
    var s := Execution(labels).value;
    ExecutionKeepsLocks(false, labels);
    if Stuck(s, t, u) {
      StuckTakesOutOfOrder(s, t, u);
    }
  }

  lemma StuckTakesOutOfOrder(s: Server, t: nat, u: nat)
    requires LocksOk(false, s) && Stuck(s, t, u)
    ensures Collides(s, t, u) || Collides(s, u, t)
  {
    var l, m := s.threads[t][0].lock, s.threads[u][0].lock;
    assert Allowed(false, Held(s, t), Acquire(l)) && Allowed(false, Held(s, u), Acquire(m));
    assert m in Held(s, t) && l in Held(s, u);
  }

  lemma StrictlyUpwards(s: Server, t: nat, m: Lock)
    requires LocksOk(true, s) && m in s.owner && s.owner[m] == t
    requires t < |s.threads| && s.threads[t] != [] && s.threads[t][0].Acquire?
    ensures Rank(m) < Rank(s.threads[t][0].lock)
  {
    assert Allowed(true, Held(s, t), s.threads[t][0]);
    assert m in Held(s, t);
  }

  lemma StrictIsNotStuck(s: Server, t: nat, u: nat)
    requires LocksOk(true, s)
    ensures !Stuck(s, t, u)
  {
    if Stuck(s, t, u) {
      StrictlyUpwards(s, t, s.threads[u][0].lock);
      StrictlyUpwards(s, u, s.threads[t][0].lock);
    }
  }

  // ---------------------------------------------------------------- a step or a stuck pair

  predicate Unfinished(s: Server, t: nat) {
    t < |s.threads| && s.threads[t] != []
  }

  predicate Blocked(s: Server, t: nat) {
    Unfinished(s, t) && s.threads[t][0].Acquire? && s.threads[t][0].lock in s.owner
  }

  /** The thread waits for a mutex against the order. */
  ghost predicate Backwards(s: Server, t: nat) {
    Unfinished(s, t) && s.threads[t][0].Acquire? && !Below(Held(s, t), s.threads[t][0].lock)
  }

  /** What a thread intends, with those that wait against the order taken to run. */
  ghost function IntentOf(s: Server, t: nat): Intent<Lock> {
    if !Unfinished(s, t) then Finished
    else if s.threads[t][0].Acquire? && !Backwards(s, t) then Acquires(s.threads[t][0].lock)
    else Runs
  }

  lemma OwnerIsUnfinished(s: Server, l: Lock)
    requires LocksOk(false, s) && l in s.owner
    ensures Unfinished(s, s.owner[l]) && l in Held(s, s.owner[l])
    ensures s.threads[s.owner[l]][0].Acquire? && (!l.Socket? || !Backwards(s, s.owner[l])) ==>
              Rank(l) < Rank(s.threads[s.owner[l]][0].lock)
  {
    var t := s.owner[l];
    assert l in Held(s, t) && Disciplined(false, Held(s, t), s.threads[t]);
    assert Allowed(false, Held(s, t), s.threads[t][0]);
  }

  /** Following the owners upwards ends at a thread that can step, or at one that waits against the order. */
  lemma Climb(s: Server, t: nat) returns (u: nat)
    requires LocksOk(false, s) && Unfinished(s, t)
    ensures Unfinished(s, u) && (!Blocked(s, u) || Backwards(s, u))
  {
    var intents := seq(|s.threads|, x requires 0 <= x < |s.threads| => IntentOf(s, x));
    forall l <- s.owner
      ensures s.owner[l] < |intents| && !intents[s.owner[l]].Finished?
      ensures intents[s.owner[l]].Acquires? ==> Rank(l) < Rank(intents[s.owner[l]].lock)
    {
      OwnerIsUnfinished(s, l);
    }
    u := SomeThreadGoesOn(s.owner, intents, Rank, 4, t);
  }

  /** Above the sockets nobody waits against the order. */
  lemma {:induction false} ClimbHigh(s: Server, l: Lock) returns (u: nat)
    requires LocksOk(false, s) && l in s.owner && Rank(l) > 2
    ensures Unfinished(s, u) && !Blocked(s, u)
    decreases 4 - Rank(l)
  {
    OwnerIsUnfinished(s, l);
    u := s.owner[l];
    if Blocked(s, u) {
      u := ClimbHigh(s, s.threads[u][0].lock);
    }
  }

  /** The owner of the table's mutex leads to a thread that can step, unless it is one of a stuck pair. */
  lemma ClimbFromTable(s: Server) returns (u: nat)
    requires LocksOk(false, s) && Connections in s.owner
    requires forall x, y :: !Stuck(s, x, y)
    ensures Unfinished(s, u) && !Blocked(s, u)
  {
    OwnerIsUnfinished(s, Connections);
    var y := s.owner[Connections];
    u := y;
    if Blocked(s, y) {
      var l := s.threads[y][0].lock;
      OwnerIsUnfinished(s, l);
      var z := s.owner[l];
      u := z;
      if Blocked(s, z) {
        assert Allowed(false, Held(s, z), s.threads[z][0]);
        if Backwards(s, z) {
          assert WaitsFor(s, z, y) && WaitsFor(s, y, z);
          assert Connections in Held(s, y) && Connections !in Held(s, z);
          assert Stuck(s, y, z);
          assert false;
        }
        u := ClimbHigh(s, s.threads[z][0].lock);
      }
    }
  }

  lemma SomeStepOrStuck(s: Server, t: nat)
    requires LocksOk(false, s) && Unfinished(s, t)
    requires forall x, y :: !Stuck(s, x, y)
    ensures exists u: nat :: CanStep(s, u)
  {
    var u := Climb(s, t);
    if Blocked(s, u) {
      assert Allowed(false, Held(s, u), s.threads[u][0]);
      u := ClimbFromTable(s);
    }
    UnblockedCanStep(s, u);
  }

  /**
   * In every execution, with any allocations failing: as long as some thread is unfinished, some thread can
   * take its next step, or two threads wait for each other.
   */
  lemma {:induction false} StepOrStuck(labels: seq<Label>, t: nat)
    requires Execution(labels).Some? && Unfinished(Execution(labels).value, t)
    ensures var s := Execution(labels).value;
            (exists u: nat :: CanStep(s, u)) || (exists x, y :: Stuck(s, x, y))
  {
    ExecutionKeepsLocks(false, labels);
    var s := Execution(labels).value;
    if forall x, y :: !Stuck(s, x, y) {
      SomeStepOrStuck(s, t);
    }
  }

  /** Deadlock freedom: as long as no allocation has failed and some thread is unfinished, some thread can step. */
  lemma {:induction false} NoDeadlock(labels: seq<Label>, s: Server, t: nat)
    requires Execution(labels) == Some(s) && NoneFails(labels) && Unfinished(s, t)
    ensures exists u: nat :: CanStep(s, u)
  {
    ExecutionKeepsLocks(true, labels);
    forall x, y ensures !Stuck(s, x, y) {
      StrictIsNotStuck(s, x, y);
    }
    StepOrStuck(labels, t);
  }

  // ---------------------------------------------------------------- running to completion

  predicate AllDone(s: Server) {
    forall t :: 0 <= t < |s.threads| ==> s.threads[t] == []
  }

  /** Some way of going on finishes every thread. */
  ghost predicate CanComplete(s: Server) {
    exists more :: From(Some(s), more).Some? && AllDone(From(Some(s), more).value)
  }

  /** No way of going on leads to two threads that wait for each other. */
  ghost predicate NeverStuck(s: Server) {
    forall more, t, u :: From(Some(s), more).Some? ==> !Stuck(From(Some(s), more).value, t, u)
  }

  /** An instruction that puts others in its place. */
  function Expands(i: Instr): nat {
    if i.Accept? || i.StopAll? then 1 else 0
  }

  function One(i: Instr): nat {
    1
  }

  /** An instruction that gets its memory leaves less to expand, or as much to expand and less to do. */
  lemma RunDecreases(s: Server, l: Label)
    requires l.Run? && Enabled(s, l) && !FailsAt(s, l)
    ensures var s' := After(s, l);
            || Total(s'.threads, Expands) < Total(s.threads, Expands)
            || (Total(s'.threads, Expands) == Total(s.threads, Expands)
                && Total(s'.threads, One) < Total(s.threads, One))
  {
    var i, rest := s.threads[l.t][0], s.threads[l.t][1..];
    var p := ProgramAfter(s.shared, i, rest, l.order, l.allocationFails);
    ProgramAfterWeight(Expands, s.shared, i, rest, l.order, l.allocationFails);
    TotalUpdate(s.threads, l.t, p, Expands);
    TotalUpdate(s.threads, l.t, p, One);
  }

  lemma NeverStuckAfter(s: Server, l: Label)
    requires NeverStuck(s) && Enabled(s, l)
    ensures NeverStuck(After(s, l))
  {
    forall more, t, u | From(Some(After(s, l)), more).Some?
      ensures !Stuck(From(Some(After(s, l)), more).value, t, u)
    {
      assert ([l] + more)[0] == l && ([l] + more)[1..] == more;
      assert From(Some(s), [l] + more) == From(Some(After(s, l)), more);
    }
  }

  lemma CanCompleteBefore(s: Server, l: Label)
    requires Enabled(s, l) && CanComplete(After(s, l))
    ensures CanComplete(s)
  {
    var more :| From(Some(After(s, l)), more).Some? && AllDone(From(Some(After(s, l)), more).value);
    assert ([l] + more)[0] == l && ([l] + more)[1..] == more;
    assert From(Some(s), [l] + more) == From(Some(After(s, l)), more);
  }

  /** Some thread can perform an instruction that gets its memory. */
  lemma SomeStep(strict: bool, s: Server) returns (l: Label)
    requires LocksOk(strict, s) && LocksOk(false, s) && (strict || NeverStuck(s)) && !AllDone(s)
    ensures l.Run? && Enabled(s, l) && !FailsAt(s, l)
  {
    var t :| 0 <= t < |s.threads| && s.threads[t] != [];
    forall x, y ensures !Stuck(s, x, y) {
      if strict {
        StrictIsNotStuck(s, x, y);
      } else {
        assert From(Some(s), []) == Some(s);
      }
    }
    SomeStepOrStuck(s, t);
    var u: nat :| CanStep(s, u);
    var order, key, fails :| Enabled(s, Run(u, order, key, fails));
    l := Run(u, order, key, false);
  }

  /** A server that never comes to a stuck pair, or that is strictly disciplined, can finish what it has begun. */
  lemma {:induction false} Completes(strict: bool, s: Server)
    requires LocksOk(strict, s) && LocksOk(false, s) && (strict || NeverStuck(s))
    ensures CanComplete(s)
    decreases Total(s.threads, Expands), Total(s.threads, One)
  {
    if AllDone(s) {
      assert From(Some(s), []) == Some(s);
    } else {
      var l := SomeStep(strict, s);
      StepKeepsLocks(strict, s, l);
      StepKeepsLocks(false, s, l);
      RunDecreases(s, l);
      if !strict {
        NeverStuckAfter(s, l);
      }
      Completes(strict, After(s, l));
      CanCompleteBefore(s, l);
    }
  }

  lemma StuckCannotComplete(s: Server, t: nat, u: nat)
    requires LocksOk(false, s) && Stuck(s, t, u)
    ensures !CanComplete(s)
  {
    forall more | From(Some(s), more).Some? ensures !AllDone(From(Some(s), more).value) {
      StuckForever(s, more, t, u);
    }
  }

  lemma NeverStuckLater(s: Server, more: seq<Label>)
    requires NeverStuck(s) && From(Some(s), more).Some?
    ensures NeverStuck(From(Some(s), more).value)
  {
    var s' := From(Some(s), more).value;
    forall further, t, u | From(Some(s'), further).Some? ensures !Stuck(From(Some(s'), further).value, t, u) {
      FromAppend(Some(s), more, further);
    }
  }

  /** Everything begun can always still be finished, however the server goes on. */
  ghost predicate AlwaysCompletes(s: Server) {
    forall more :: From(Some(s), more).Some? ==> CanComplete(From(Some(s), more).value)
  }

  lemma NeverStuckCompletes(s: Server)
    requires LocksOk(false, s) && NeverStuck(s)
    ensures AlwaysCompletes(s)
  {
    forall more | From(Some(s), more).Some? ensures CanComplete(From(Some(s), more).value) {
      FromKeepsLocks(s, more);
      NeverStuckLater(s, more);
      Completes(false, From(Some(s), more).value);
    }
  }

  lemma CompletingIsNeverStuck(s: Server)
    requires LocksOk(false, s) && AlwaysCompletes(s)
    ensures NeverStuck(s)
  {
    forall more, t, u | From(Some(s), more).Some? ensures !Stuck(From(Some(s), more).value, t, u) {
      FromKeepsLocks(s, more);
      if Stuck(From(Some(s), more).value, t, u) {
        StuckCannotComplete(From(Some(s), more).value, t, u);
      }
    }
  }

  /**
   * The exact condition: from a reachable state everything begun can always still be finished exactly if the
   * server never comes to two threads that wait for each other.
   */
  lemma {:induction false} CompletesIff(labels: seq<Label>)
    requires Execution(labels).Some?
    ensures AlwaysCompletes(Execution(labels).value) <==> NeverStuck(Execution(labels).value)
  {
    var s := Execution(labels).value;
    ExecutionKeepsLocks(false, labels);
    if NeverStuck(s) {
      NeverStuckCompletes(s);
    }
    if AlwaysCompletes(s) {
      CompletingIsNeverStuck(s);
    }
  }

  /** As long as no allocation has failed, everything begun can be finished. */
  lemma {:induction false} CompletesUnlessOneFails(labels: seq<Label>)
    requires Execution(labels).Some? && NoneFails(labels)
    ensures CanComplete(Execution(labels).value)
  {
    ExecutionKeepsLocks(true, labels);
    ExecutionKeepsLocks(false, labels);
    Completes(true, Execution(labels).value);
  }

  /** The server as compiled today, whose read handler does not read on, is always able to finish. */
  lemma {:induction false} CompletesWithoutReadDone(labels: seq<Label>)
    requires Execution(labels).Some? && NoReadDone(labels)
    ensures CanComplete(Execution(labels).value)
    ensures forall t, u :: !Stuck(Execution(labels).value, t, u)
  {
    NoneFailsWithoutReadDone(labels);
    CompletesUnlessOneFails(labels);
    ExecutionKeepsLocks(true, labels);
    forall t, u ensures !Stuck(Execution(labels).value, t, u) {
      StrictIsNotStuck(Execution(labels).value, t, u);
    }
  }
}
