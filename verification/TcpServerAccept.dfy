/**
 * The accept chain of the TCP server: each external start sets off one chain of accepts, retries and re-arms
 * that neither multiplies nor disappears, except where it finds the acceptor closed or ends with an error.
 */
module TcpServerAccept {
  import opened Common
  import opened TcpServerThreads
  import opened TcpServerCounting

  // ---------------------------------------------------------------- tokens

  /** Every hop of an accept chain counts for one. */
  function Hop(i: Instr): nat {
    if IsHop(i) then 1 else 0
  }

  /** Where accept chains are: in handlers yet to re-arm, in pending accepts, in retry timers. */
  function Tokens(s: Server): nat {
    Total(s.threads, Hop) + |s.shared.pending| + s.shared.timers
  }

  /** Conservation: every external start is accounted for. */
  predicate ChainsOk(s: Server) {
    && Tokens(s) + s.shared.lostToClose + s.shared.lostToError == s.shared.starts
    && (s.shared.lostToClose != 0 ==> !s.shared.acceptorOpen)
  }

  /** The part of the account that is kept in the shared state. */
  function Account(d: Shared): nat {
    |d.pending| + d.timers + d.lostToClose + d.lostToError
  }

  lemma RunAccount(d: Shared, i: Instr, key: nat, allocationFails: bool)
    ensures var d' := SharedAfter(d, i, key, allocationFails);
            && Account(d') + (if i.Accept? && d.acceptorOpen then 1 else 0) == Account(d) + Hop(i)
            && d'.starts == d.starts && d'.lostToError == d.lostToError
            && ((d.lostToClose != 0 ==> !d.acceptorOpen) ==> d'.lostToClose != 0 ==> !d'.acceptorOpen)
  {
  }

  /** What happens when a handler starts, entered in the account. */
  ghost predicate Accounts(d: Shared, l: Label, d': Shared) {
    && Account(d') + WeightOf(Hop, l) == Account(d) + (if l.CallStart? then 1 else 0)
    && d'.starts == d.starts + (if l.CallStart? then 1 else 0)
    && d'.lostToError == d.lostToError + (if EndsChain(l) then 1 else 0)
    && d'.lostToClose == d.lostToClose && d'.acceptorOpen == d.acceptorOpen
  }

  lemma ArriveAccount(d: Shared, l: Label)
    requires l.AcceptDone? ==> l.c in d.pending
    requires l.TimerFires? ==> 0 < d.timers
    requires !l.Run?
    ensures Accounts(d, l, Arrive(d, l))
  {
    assert forall k: Lock :: LockWeight(Hop, k) == 0;
    if l.AcceptDone? {
      AcceptAccount(d, l);
    }
  }

  lemma AcceptAccount(d: Shared, l: Label)
    requires l.AcceptDone? && l.c in d.pending
    ensures Accounts(d, l, Arrive(d, l))
  {
    assert |d.pending - multiset{l.c}| == |d.pending| - 1;
  }

  lemma RunPassesHops(s: Server, l: Label)
    requires Enabled(s, l) && l.Run?
    ensures Total(After(s, l).threads, Hop) + Hop(s.threads[l.t][0])
         == Total(s.threads, Hop) + if s.threads[l.t][0].Accept? && s.shared.acceptorOpen then 1 else 0
  {
    var i, rest := s.threads[l.t][0], s.threads[l.t][1..];
    ProgramAfterWeight(Hop, s.shared, i, rest, l.order, l.allocationFails);
    TotalUpdate(s.threads, l.t, ProgramAfter(s.shared, i, rest, l.order, l.allocationFails), Hop);
  }

  lemma StepKeepsChains(s: Server, l: Label)
    requires ChainsOk(s) && Enabled(s, l)
    ensures ChainsOk(After(s, l))
  {
    if l.Run? {
      RunAccount(s.shared, s.threads[l.t][0], l.key, l.allocationFails);
      RunPassesHops(s, l);
    } else {
      ArriveAccount(s.shared, l);
      HandlerWeight(Hop, l);
      TotalAppend(s.threads, Handler(l), Hop);
    }
  }

  lemma StepBookkeeping(s: Server, l: Label)
    requires Enabled(s, l)
    ensures var d, d' := s.shared, After(s, l).shared;
            && d'.starts == d.starts + (if l.CallStart? then 1 else 0)
            && d'.lostToError == d.lostToError + (if EndsChain(l) then 1 else 0)
  {
    if l.Run? {
      RunAccount(s.shared, s.threads[l.t][0], l.key, l.allocationFails);
    } else {
      ArriveAccount(s.shared, l);
    }
  }

  lemma {:induction false} ExecutionKeepsChains(labels: seq<Label>)
    requires Execution(labels).Some?
    ensures ChainsOk(Execution(labels).value)
    decreases |labels|
  {
    if labels == [] {
    } else {
      var front := labels[..|labels| - 1];
      ExecutionKeepsChains(front);
      StepKeepsChains(Execution(front).value, labels[|labels| - 1]);
    }
  }

  function CountStarts(labels: seq<Label>): nat {
    if labels == [] then 0
    else CountStarts(labels[..|labels| - 1]) + if labels[|labels| - 1].CallStart? then 1 else 0
  }

  /** No accept or timer ended with an error that ends a chain. */
  predicate NoneEndsChain(labels: seq<Label>) {
    forall l <- labels :: !EndsChain(l)
  }

  lemma NoneEndsSnoc(labels: seq<Label>, front: seq<Label>, last: Label)
    requires labels != [] && front == labels[..|labels| - 1] && last == labels[|labels| - 1]
    ensures NoneEndsChain(labels) <==> NoneEndsChain(front) && !EndsChain(last)
  {
    assert labels == front + [last];
  }

  lemma {:induction false} Bookkeeping(labels: seq<Label>)
    requires Execution(labels).Some?
    ensures Execution(labels).value.shared.starts == CountStarts(labels)
    ensures Execution(labels).value.shared.lostToError == 0 <==> NoneEndsChain(labels)
    decreases |labels|
  {
    if labels == [] {
    } else {
      var front, last := labels[..|labels| - 1], labels[|labels| - 1];
      Bookkeeping(front);
      StepBookkeeping(Execution(front).value, last);
      NoneEndsSnoc(labels, front, last);
    }
  }

  /** Chains never multiply, and none is lost unless the acceptor is closed or an error ends it. */
  lemma {:induction false} TokensAreConserved(labels: seq<Label>)
    requires Execution(labels).Some?
    ensures var s := Execution(labels).value;
            && Tokens(s) <= CountStarts(labels)
            && (s.shared.acceptorOpen && NoneEndsChain(labels) ==> Tokens(s) == CountStarts(labels))
  {
    ExecutionKeepsChains(labels);
    Bookkeeping(labels);
  }

  /**
   * The single accept token.  In every execution with one external start there is at most one of: a pending
   * accept, a pending retry timer, a handler that has yet to re-arm.  While the acceptor is open and no accept
   * or timer has ended with a fatal error there is exactly one.
   */
  lemma {:induction false} SingleAcceptToken(labels: seq<Label>)
    requires Execution(labels).Some? && CountStarts(labels) == 1
    ensures var s := Execution(labels).value;
            && |s.shared.pending| + s.shared.timers <= Tokens(s) <= 1
            && (s.shared.acceptorOpen && NoneEndsChain(labels) ==> Tokens(s) == 1)
  {
    TokensAreConserved(labels);
  }

  // ---------------------------------------------------------------- one connection at a time

  /** The instruction is part of taking in an accepted connection. */
  predicate TakesIn(i: Instr) {
    i.SetRemote? || i.Insert?
  }

  /** What takes a connection in comes before the hop by which its program accepts again. */
  predicate KeepsToken(p: Program)
    decreases |p|
  {
    p == [] || (KeepsToken(p[1..]) && (TakesIn(p[0]) ==> Weight(p[1..], Hop) >= 1))
  }

  predicate TokensKept(s: Server) {
    forall p <- s.threads :: KeepsToken(p)
  }

  lemma {:induction false} KeepsTokenAppend(p: Program, q: Program)
    requires KeepsToken(q) && forall i <- p :: !TakesIn(i)
    ensures KeepsToken(p + q)
    decreases |p|
  {
    if p == [] {
      assert p + q == q;
    } else {
      assert (p + q)[1..] == p[1..] + q;
      KeepsTokenAppend(p[1..], q);
    }
  }

  lemma {:induction false} TakesNothingIn(p: Program)
    requires forall i <- p :: !TakesIn(i)
    ensures KeepsToken(p)
    decreases |p|
  {
    if p == [] {
    } else {
      TakesNothingIn(p[1..]);
    }
  }

  /** A program that goes on to accept may take connections in before. */
  lemma {:induction false} KeepsTokenBefore(p: Program, q: Program)
    requires KeepsToken(q) && Weight(q, Hop) >= 1
    ensures KeepsToken(p + q)
    decreases |p|
  {
    if p == [] {
      assert p + q == q;
    } else {
      assert (p + q)[1..] == p[1..] + q;
      KeepsTokenBefore(p[1..], q);
      WeightAppend(p[1..], q, Hop);
    }
  }

  lemma AcceptedKeepsToken(c: nat, error: ErrorCode, peer: nat, configured: bool)
    ensures KeepsToken(AcceptedProgram(c, error, peer, configured))
  {
    TakesNothingIn(AcceptAgainProgram(error));
    AcceptAgainWeight(Hop, error);
    if error == NoError {
      KeepsTokenBefore(EnterProgram(c, error, peer, configured), AcceptAgainProgram(error));
    } else {
      assert AcceptedProgram(c, error, peer, configured) == AcceptAgainProgram(error);
    }
  }

  lemma HandlerKeepsToken(l: Label)
    ensures KeepsToken(Handler(l))
  {
    if l.AcceptDone? {
      AcceptedKeepsToken(l.c, l.error, l.peer, l.configured);
    } else {
      TakesNothingIn(Handler(l));
    }
  }

  lemma {:induction false} StopEachTakesNothingIn(order: seq<nat>)
    ensures forall i <- StopEach(order) :: !TakesIn(i)
  {
    if order == [] {
    } else {
      StopEachTakesNothingIn(order[1..]);
    }
  }

  lemma ExpansionKeepsToken(d: Shared, i: Instr, rest: Program, order: seq<nat>, allocationFails: bool)
    requires KeepsToken(rest)
    ensures KeepsToken(ProgramAfter(d, i, rest, order, allocationFails))
  {
    if i.Accept? && d.acceptorOpen {
      KeepsTokenAppend(Locked(Socket(|d.conns|), [ArmAccept(|d.conns|)]), rest);
    } else if i.StopAll? {
      StopEachTakesNothingIn(order);
      KeepsTokenAppend(StopEach(order) + [Clear], rest);
    } else if Fails(d, i, allocationFails) {
      KeepsTokenAppend(BufferExceptionProgram(i.c), rest);
    }
  }

  lemma {:induction false} ExecutionKeepsTokens(labels: seq<Label>)
    requires Execution(labels).Some?
    ensures TokensKept(Execution(labels).value)
    decreases |labels|
  {
    if labels == [] {
    } else {
      var front, l := labels[..|labels| - 1], labels[|labels| - 1];
      ExecutionKeepsTokens(front);
      var s := Execution(front).value;
      if l.Run? {
        assert s.threads[l.t] in s.threads;
        ExpansionKeepsToken(s.shared, s.threads[l.t][0], s.threads[l.t][1..], l.order, l.allocationFails);
      } else {
        HandlerKeepsToken(l);
      }
    }
  }

  lemma {:induction false} TakesInWeighs(p: Program, i: Instr)
    requires KeepsToken(p) && i in p && TakesIn(i)
    ensures Weight(p, Hop) >= 1
    decreases |p|
  {
    if p[0] == i {
    } else {
      TakesInWeighs(p[1..], i);
    }
  }

  /**
   * With one external start connections are taken in one at a time: while a thread has a connection still to name
   * or to enter, no accept is pending, no retry timer runs, and no other thread has one.
   */
  lemma {:induction false} OneAtATime(labels: seq<Label>, t: nat, i: Instr)
    requires Execution(labels).Some? && CountStarts(labels) == 1
    requires t < |Execution(labels).value.threads| && i in Execution(labels).value.threads[t] && TakesIn(i)
    ensures var s := Execution(labels).value;
            && s.shared.pending == multiset{} && s.shared.timers == 0
            && forall u, j :: 0 <= u < |s.threads| && u != t && j in s.threads[u] ==> !TakesIn(j)
  {
    var s := Execution(labels).value;
    SingleAcceptToken(labels);
    ExecutionKeepsTokens(labels);
    TakesInWeighs(s.threads[t], i);
    TotalUpdate(s.threads, t, [], Hop);
    forall u, j | 0 <= u < |s.threads| && u != t && j in s.threads[u] ensures !TakesIn(j) {
      if TakesIn(j) {
        TakesInWeighs(s.threads[u], j);
        TotalUpdate(s.threads[t := []], u, [], Hop);
      }
    }
  }
}
