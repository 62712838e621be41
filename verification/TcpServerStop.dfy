/** `stop` closes every connection of the table before it empties it, whatever other threads do meanwhile. */
module TcpServerStop {
  import opened Common
  import opened TcpServerThreads
  import opened TcpServerLocks
  import opened TcpServerTable

  predicate HasClear(p: Program)
    decreases |p|
  {
    p != [] && (p[0].Clear? || HasClear(p[1..]))
  }

  /** Up to its only `Clear`, the program does nothing but close connections. */
  predicate ClearsSoon(p: Program)
    decreases |p|
  {
    && p != []
    && match p[0]
       case Clear => !HasClear(p[1..])
       case Acquire(l) => l.Socket? && ClearsSoon(p[1..])
       case Release(l) => l.Socket? && ClearsSoon(p[1..])
       case Close(_) => ClearsSoon(p[1..])
       case _ => false
  }

  /** The connections that the program closes before its `Clear`. */
  function ToClose(p: Program): set<nat>
    decreases |p|
  {
    if p == [] || p[0].Clear? then {}
    else (if p[0].Close? then {p[0].c} else {}) + ToClose(p[1..])
  }

  /** A thread on its way to `Clear` owns the table; what it has not closed yet it is going to, and nothing else. */
  ghost predicate Stopping(s: Server, t: nat)
    requires t < |s.threads|
  {
    && ClearsSoon(s.threads[t])
    && Connections in s.owner && s.owner[Connections] == t
    && ToClose(s.threads[t]) <= s.shared.table.Values
    && forall peer <- s.shared.table :: s.shared.table[peer] in Shut(s.shared.conns) + ToClose(s.threads[t])
  }

  ghost predicate StopOk(s: Server) {
    forall t :: 0 <= t < |s.threads| && HasClear(s.threads[t]) ==> Stopping(s, t)
  }

  lemma {:induction false} HasClearAppend(p: Program, q: Program)
    ensures HasClear(p + q) <==> HasClear(p) || HasClear(q)
    decreases |p|
  {
    if p == [] {
      assert p + q == q;
    } else {
      assert (p + q)[1..] == p[1..] + q && (p + q)[0] == p[0];
      HasClearAppend(p[1..], q);
    }
  }

  lemma BlockHasNoClear(l: Lock, i: Instr)
    requires !i.Clear?
    ensures !HasClear(Locked(l, [i]))
  {
    HasClearAppend([Acquire(l)], [i]);
    HasClearAppend([Acquire(l)] + [i], [Release(l)]);
  }

  lemma HandlerHasNoClear(l: Label)
    ensures !HasClear(Handler(l))
  {
    match l
    case CallStart => BlockHasNoClear(Acceptor, Accept);
    case CallStop =>
      BlockHasNoClear(Acceptor, CloseAcceptor);
      BlockHasNoClear(Connections, StopAll);
      HasClearAppend(Locked(Acceptor, [CloseAcceptor]), Locked(Connections, [StopAll]));
    case CallSend(c) =>
      BlockHasNoClear(Sent, SetSending(true));
      HasClearAppend([Acquire(Socket(c))], Locked(Sent, [SetSending(true)]));
      HasClearAppend([Acquire(Socket(c))] + Locked(Sent, [SetSending(true)]), [Release(Socket(c))]);
    case SendDone =>
      BlockHasNoClear(Sent, SetSending(false));
      HasClearAppend(Locked(Sent, [SetSending(false)]), Locked(Base, []));
    case WriteFails(c) =>
      var close := Locked(Socket(c), [Close(c)]);
      BlockHasNoClear(Socket(c), Close(c));
      HasClearAppend([Acquire(Connections)], close);
      HasClearAppend([Acquire(Connections)] + close, [Release(Connections)]);
      BlockHasNoClear(Connections, Remove(c));
      HasClearAppend(Locked(Connections, close), Locked(Connections, [Remove(c)]));
    case ReadDone(c) => BlockHasNoClear(Socket(c), Receive(c));
    case ReadEnds(c) =>
    case ReadTimesOut(c) => HasClearAppend([Acquire(Socket(c))] + [], [Release(Socket(c))]);
    case AcceptDone(c, error, peer, configured) =>
      EnterHasNoClear(c, error, peer, configured);
      BlockHasNoClear(Acceptor, Accept);
      HasClearAppend(EnterProgram(c, error, peer, configured), AcceptAgainProgram(error));
    case TimerFires(error) => BlockHasNoClear(Acceptor, Accept);
    case Run(_, _, _, _) =>
  }

  lemma EnterHasNoClear(c: nat, error: ErrorCode, peer: nat, configured: bool)
    ensures !HasClear(EnterProgram(c, error, peer, configured))
  {
    var named, entered := Locked(Socket(c), [SetRemote(c, peer)]), Locked(Connections, [Insert(peer, c)]);
    BlockHasNoClear(Socket(c), SetRemote(c, peer));
    BlockHasNoClear(Connections, Insert(peer, c));
    BlockHasNoClear(Socket(c), Receive(c));
    HasClearAppend(named, entered);
    HasClearAppend(named + entered, ReceiveProgram(c));
  }

  lemma OneMoreToClose(c: nat, q: Program)
    ensures var p := [Acquire(Socket(c)), Close(c), Release(Socket(c))] + q;
            && ClearsSoon(p) == ClearsSoon(q) && HasClear(p) == HasClear(q)
            && ToClose(p) == {c} + ToClose(q)
  {
    var p := [Acquire(Socket(c)), Close(c), Release(Socket(c))] + q;
    var p1, p2 := [Close(c), Release(Socket(c))] + q, [Release(Socket(c))] + q;
    assert p[1..] == p1 && p1[1..] == p2 && p2[1..] == q;
    assert ClearsSoon(p2) == ClearsSoon(q) && HasClear(p2) == HasClear(q) && ToClose(p2) == ToClose(q);
  }

  /** The loop of `stop` is about to close exactly the connections it iterates over. */
  lemma {:induction false} StopEachClearsSoon(order: seq<nat>, rest: Program)
    requires !HasClear(rest)
    ensures var p := StopEach(order) + [Clear] + rest;
            ClearsSoon(p) && HasClear(p) && ToClose(p) == set c | c in order
    decreases |order|
  {
    var p := StopEach(order) + [Clear] + rest;
    if order == [] {
      assert p == [Clear] + rest && p[1..] == rest;
    } else {
      var c := order[0];
      var q := StopEach(order[1..]) + [Clear] + rest;
      StopEachClearsSoon(order[1..], rest);
      assert p == [Acquire(Socket(c)), Close(c), Release(Socket(c))] + q;
      OneMoreToClose(c, q);
    }
  }

  // ---------------------------------------------------------------- every step keeps the invariant

  /** A thread that owns the table keeps it, and the table stays the same, while another thread runs. */
  lemma TableIsOwned(s: Server, l: Label, t: nat)
    requires LocksOk(false, s) && l.Run? && Enabled(s, l) && t != l.t
    requires Connections in s.owner && s.owner[Connections] == t
    ensures After(s, l).shared.table == s.shared.table
    ensures Connections in After(s, l).owner && After(s, l).owner[Connections] == t
  {
    assert Allowed(false, Held(s, l.t), s.threads[l.t][0]);
    assert Connections !in Held(s, l.t);
  }

  /** The table and its owner stay the same while thread `t` is about to clear and does not run. */
  lemma TableStays(s: Server, l: Label, t: nat)
    requires LocksOk(false, s) && Enabled(s, l)
    requires t < |s.threads| && Connections in s.owner && s.owner[Connections] == t && (l.Run? ==> t != l.t)
    ensures After(s, l).shared.table == s.shared.table
    ensures Connections in After(s, l).owner && After(s, l).owner[Connections] == t
    ensures t < |After(s, l).threads| && After(s, l).threads[t] == s.threads[t]
  {
    if l.Run? {
      TableIsOwned(s, l, t);
    }
  }

  lemma OthersKeepStopping(s: Server, l: Label, t: nat)
    requires LocksOk(false, s) && TableOk(s) && Enabled(s, l)
    requires t < |s.threads| && Stopping(s, t) && (l.Run? ==> t != l.t)
    ensures t < |After(s, l).threads| && Stopping(After(s, l), t)
  {
    TableStays(s, l, t);
    ShutGrows(s, l);
  }

  lemma ShutGrows(s: Server, l: Label)
    requires TableOk(s) && Enabled(s, l)
    ensures Shut(s.shared.conns) <= Shut(After(s, l).shared.conns)
  {
    StepKeepsTable(s, l);
    GrowsMeans(s.shared.conns, After(s, l).shared.conns);
  }

  /** A thread on its way to `Clear` closes one more connection, or does not touch anything. */
  lemma KeepsClosing(s: Server, l: Label)
    requires LocksOk(false, s) && TableOk(s) && l.Run? && Enabled(s, l)
    requires Stopping(s, l.t) && !s.threads[l.t][0].Clear?
    ensures Stopping(After(s, l), l.t)
  {
    var p, i := s.threads[l.t], s.threads[l.t][0];
    var conns, conns' := s.shared.conns, After(s, l).shared.conns;
    StepKeepsTable(s, l);
    GrowsMeans(conns, conns');
    HeadIsOk(s, l.t);
    assert After(s, l).threads[l.t] == p[1..];
    assert Shut(conns) + ToClose(p) <= Shut(conns') + ToClose(p[1..]);
  }

  lemma BeginsClosing(s: Server, l: Label)
    requires LocksOk(false, s) && StopOk(s) && l.Run? && Enabled(s, l) && s.threads[l.t][0].StopAll?
    ensures Stopping(After(s, l), l.t)
  {
    var rest := s.threads[l.t][1..];
    assert Allowed(false, Held(s, l.t), s.threads[l.t][0]);
    assert Connections in Held(s, l.t);
    assert !HasClear(rest);
    StopEachClearsSoon(l.order, rest);
    forall peer <- s.shared.table ensures s.shared.table[peer] in l.order {
      assert s.shared.table[peer] in s.shared.table.Values;
    }
  }

  lemma NoClearAppears(d: Shared, i: Instr, rest: Program, order: seq<nat>, allocationFails: bool)
    requires !HasClear(rest) && !i.StopAll?
    ensures !HasClear(ProgramAfter(d, i, rest, order, allocationFails))
  {
    if i.Accept? && d.acceptorOpen {
      BlockHasNoClear(Socket(|d.conns|), ArmAccept(|d.conns|));
      HasClearAppend(Locked(Socket(|d.conns|), [ArmAccept(|d.conns|)]), rest);
    } else if Fails(d, i, allocationFails) {
      BlockHasNoClear(Connections, Remove(i.c));
      HasClearAppend([Close(i.c)], Locked(Connections, [Remove(i.c)]));
      HasClearAppend(BufferExceptionProgram(i.c), rest);
    }
  }

  lemma StepKeepsStop(s: Server, l: Label)
    requires LocksOk(false, s) && TableOk(s) && StopOk(s) && Enabled(s, l)
    ensures StopOk(After(s, l))
  {
    var s' := After(s, l);
    forall t | 0 <= t < |s'.threads| && HasClear(s'.threads[t]) ensures Stopping(s', t) {
      if l.Run? && t == l.t {
        var p := s.threads[t];
        if p[0].StopAll? {
          BeginsClosing(s, l);
        } else if HasClear(p) && !p[0].Clear? {
          KeepsClosing(s, l);
        } else {
          NoClearAppears(s.shared, p[0], p[1..], l.order, l.allocationFails);
        }
      } else {
        if t == |s.threads| {
          HandlerHasNoClear(l);
        }
        OthersKeepStopping(s, l, t);
      }
    }
  }

  lemma {:induction false} ExecutionKeepsStop(labels: seq<Label>)
    requires Execution(labels).Some?
    ensures StopOk(Execution(labels).value)
    decreases |labels|
  {
    if labels == [] {
    } else {
      var front := labels[..|labels| - 1];
      ExecutionKeepsStop(front);
      ExecutionKeepsLocks(false, front);
      ExecutionKeepsTable(front);
      StepKeepsStop(Execution(front).value, labels[|labels| - 1]);
    }
  }

  /**
   * When `stop` is about to empty the table, every connection in it has been closed, in every interleaving
   * with other handlers and even with failing allocations; afterwards the table is empty.
   */
  lemma {:induction false} StopClosesAll(labels: seq<Label>, l: Label)
    requires Execution(labels).Some? && l.Run? && Enabled(Execution(labels).value, l)
    requires Execution(labels).value.threads[l.t][0].Clear?
    ensures var d, d' := Execution(labels).value.shared, After(Execution(labels).value, l).shared;
            && (forall peer <- d.table :: IsAccepted(d, d.table[peer]) && !d.conns[d.table[peer]].open)
            && d'.table == map[]
  {
    ExecutionKeepsStop(labels);
    var s := Execution(labels).value;
    assert HasClear(s.threads[l.t]);
    assert Stopping(s, l.t);
  }
}
