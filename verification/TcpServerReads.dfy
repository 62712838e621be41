/**
 * Reads under way.  Every read that was armed has either completed or is outstanding, so a read completes once; a
 * connection reads only after it was entered into the table, and never begins to once it is closed; and `stop`
 * reaches the table only when the acceptor is closed.
 */
module TcpServerReads {
  import opened Common
  import opened TcpServerThreads
  import opened TcpServerCounting
  import opened TcpServerLocks
  import opened TcpServerTable
  import opened TcpServerEntries

  // ---------------------------------------------------------------- armed, completed and outstanding reads

  /** A read of connection `c` is armed: on an open socket, with the memory it needs. */
  predicate ArmsRead(s: Server, l: Label, c: nat) {
    && l.Run? && l.t < |s.threads| && s.threads[l.t] != [] && s.threads[l.t][0] == Receive(c)
    && IsAccepted(s.shared, c) && s.shared.conns[c].open && !FailsAt(s, l)
  }

  /** The handler of a read of connection `c` runs, however the read ended. */
  predicate EndsRead(l: Label, c: nat) {
    l == ReadDone(c) || l == ReadEnds(c) || l == ReadTimesOut(c)
  }

  function Armed(labels: seq<Label>, c: nat): nat
    decreases |labels|
  {
    if labels == [] then 0
    else
      var front, last := labels[..|labels| - 1], labels[|labels| - 1];
      Armed(front, c) + if Execution(front).Some? && ArmsRead(Execution(front).value, last, c) then 1 else 0
  }

  function Ended(labels: seq<Label>, c: nat): nat {
    if labels == [] then 0
    else Ended(labels[..|labels| - 1], c) + if EndsRead(labels[|labels| - 1], c) then 1 else 0
  }

  /** The reads whose handler read on. */
  function ReadOn(labels: seq<Label>, c: nat): nat {
    if labels == [] then 0
    else ReadOn(labels[..|labels| - 1], c) + if labels[|labels| - 1] == ReadDone(c) then 1 else 0
  }

  function Outstanding(d: Shared, c: nat): nat {
    if ConnAt(d, c).reading then 1 else 0
  }

  lemma RunChangesReading(d: Shared, i: Instr, key: nat, allocationFails: bool, c: nat)
    requires HeadOk(d.conns, i)
    ensures ConnAt(SharedAfter(d, i, key, allocationFails), c).reading
        <==> || ConnAt(d, c).reading
             || (i == Receive(c) && IsAccepted(d, c) && d.conns[c].open && !Fails(d, i, allocationFails))
  {
  }

  lemma ArriveChangesReading(s: Server, l: Label, c: nat)
    requires Enabled(s, l) && !l.Run?
    ensures ConnAt(Arrive(s.shared, l), c).reading <==> ConnAt(s.shared, c).reading && !EndsRead(l, c)
    ensures EndsRead(l, c) ==> ConnAt(s.shared, c).reading
  {
  }

  lemma StepConservesReads(s: Server, l: Label, c: nat)
    requires TableOk(s) && Budgeted(s, c) && Enabled(s, l)
    ensures Outstanding(After(s, l).shared, c) + (if EndsRead(l, c) then 1 else 0)
         == Outstanding(s.shared, c) + (if ArmsRead(s, l, c) then 1 else 0)
  {
    if l.Run? {
      HeadIsOk(s, l.t);
      RunChangesReading(s.shared, s.threads[l.t][0], l.key, l.allocationFails, c);
      RunSpends(s, l, Reads(c));
    } else {
      ArriveChangesReading(s, l, c);
    }
  }

  /**
   * Conservation: in every execution each read of a connection that was armed has had its handler, once, or is
   * outstanding.
   */
  lemma {:induction false} ReadsAreConserved(labels: seq<Label>, c: nat)
    requires Execution(labels).Some?
    ensures Ended(labels, c) + Outstanding(Execution(labels).value.shared, c) == Armed(labels, c)
    decreases |labels|
  {
    if labels == [] {
    } else {
      var front, last := labels[..|labels| - 1], labels[|labels| - 1];
      ReadsAreConserved(front, c);
      ExecutionKeepsTrack(front);
      assert Budgeted(Execution(front).value, c);
      StepConservesReads(Execution(front).value, last, c);
    }
  }

  /** Reads are armed by the accept handler, once, and by each handler that reads on. */
  ghost predicate ArmedInBudget(labels: seq<Label>, s: Server, c: nat) {
    Total(s.threads, Reads(c)) + Armed(labels, c) <= (if IsAccepted(s.shared, c) then 1 else 0) + ReadOn(labels, c)
  }

  lemma StepKeepsArmedInBudget(s: Server, l: Label, c: nat)
    requires TableOk(s) && Enabled(s, l)
    ensures Total(After(s, l).threads, Reads(c)) + (if ArmsRead(s, l, c) then 1 else 0)
            + (if IsAccepted(s.shared, c) then 1 else 0)
         <= Total(s.threads, Reads(c)) + (if IsAccepted(After(s, l).shared, c) then 1 else 0)
            + (if l == ReadDone(c) then 1 else 0)
  {
    StepKeepsTable(s, l);
    GrowsMeans(s.shared.conns, After(s, l).shared.conns);
    if l.Run? {
      RunKeepsArmedInBudget(s, l, c);
    } else {
      ArriveKeepsArmedInBudget(s, l, c);
    }
  }

  lemma RunKeepsArmedInBudget(s: Server, l: Label, c: nat)
    requires Enabled(s, l) && l.Run?
    ensures Total(After(s, l).threads, Reads(c)) + (if ArmsRead(s, l, c) then 1 else 0) <= Total(s.threads, Reads(c))
  {
    RunSpends(s, l, Reads(c));
  }

  lemma ArriveKeepsArmedInBudget(s: Server, l: Label, c: nat)
    requires TableOk(s) && Enabled(s, l) && !l.Run?
    ensures Total(After(s, l).threads, Reads(c)) + (if IsAccepted(s.shared, c) then 1 else 0)
         <= Total(s.threads, Reads(c)) + (if IsAccepted(After(s, l).shared, c) then 1 else 0)
            + (if l == ReadDone(c) then 1 else 0)
  {
    BroughtByHandlers(l, c);
    HandlerBrings(s, l, Reads(c));
    NotAcceptedYet(s, l);
    if l.AcceptDone? {
      AcceptGivesBudget(s.shared, l, c);
    } else {
      ArriveUsesBudget(s.shared, l, c);
    }
  }

  lemma {:induction false} ExecutionKeepsArmedInBudget(labels: seq<Label>, c: nat)
    requires Execution(labels).Some?
    ensures ArmedInBudget(labels, Execution(labels).value, c)
    decreases |labels|
  {
    if labels == [] {
    } else {
      var front, last := labels[..|labels| - 1], labels[|labels| - 1];
      ExecutionKeepsArmedInBudget(front, c);
      ExecutionKeepsTable(front);
      StepKeepsArmedInBudget(Execution(front).value, last, c);
    }
  }

  /**
   * In every execution at most one read of a connection ends without its handler reading on, and then none is
   * outstanding; so with the handler compiled today at most one read of a connection ever completes.
   */
  lemma {:induction false} OneReadEnds(labels: seq<Label>, c: nat)
    requires Execution(labels).Some?
    ensures Ended(labels, c) + Outstanding(Execution(labels).value.shared, c) <= 1 + ReadOn(labels, c)
    ensures NoReadDone(labels) ==> Ended(labels, c) + Outstanding(Execution(labels).value.shared, c) <= 1
  {
    ReadsAreConserved(labels, c);
    ExecutionKeepsArmedInBudget(labels, c);
    if NoReadDone(labels) {
      NoneReadsOn(labels, c);
    }
  }

  lemma {:induction false} NoneReadsOn(labels: seq<Label>, c: nat)
    requires NoReadDone(labels)
    ensures ReadOn(labels, c) == 0
  {
    if labels == [] {
    } else {
      assert labels[|labels| - 1] in labels;
      NoneReadsOn(labels[..|labels| - 1], c);
    }
  }

  // ---------------------------------------------------------------- closed connections do not read

  /** A connection that is closed and not reading never reads again. */
  lemma {:induction false} ClosedNeverReads(s: Server, more: seq<Label>, c: nat)
    requires TableOk(s) && c in Shut(s.shared.conns) && !s.shared.conns[c].reading
    requires From(Some(s), more).Some?
    ensures !ConnAt(From(Some(s), more).value.shared, c).reading
    decreases |more|
  {
    if more == [] {
    } else if Enabled(s, more[0]) {
      StepKeepsTable(s, more[0]);
      if more[0].Run? {
        HeadIsOk(s, more[0].t);
        RunChangesReading(s.shared, s.threads[more[0].t][0], more[0].key, more[0].allocationFails, c);
      } else {
        ArriveChangesReading(s, more[0], c);
      }
      ClosedNeverReads(After(s, more[0]), more[1..], c);
    } else {
      NothingFollowsNone(more[1..]);
    }
  }

  // ---------------------------------------------------------------- what comes first in a program

  /** Before the first `first` the program has no `later`. */
  predicate Precedes(p: Program, first: Instr -> bool, later: Instr -> bool)
    decreases |p|
  {
    p == [] || first(p[0]) || (!later(p[0]) && Precedes(p[1..], first, later))
  }

  ghost predicate AllPrecede(s: Server, first: Instr -> bool, later: Instr -> bool) {
    forall t :: 0 <= t < |s.threads| ==> Precedes(s.threads[t], first, later)
  }

  lemma {:induction false} PrecedesAppend(p: Program, q: Program, first: Instr -> bool, later: Instr -> bool)
    requires Precedes(p, first, later) && (Precedes(q, first, later) || exists i <- p :: first(i))
    ensures Precedes(p + q, first, later)
    decreases |p|
  {
    if p == [] {
      assert p + q == q;
    } else {
      assert (p + q)[0] == p[0] && (p + q)[1..] == p[1..] + q;
      if !first(p[0]) {
        PrecedesAppend(p[1..], q, first, later);
      }
    }
  }

  lemma {:induction false} NoneLater(p: Program, first: Instr -> bool, later: Instr -> bool)
    requires forall i <- p :: !later(i)
    ensures Precedes(p, first, later)
    decreases |p|
  {
    if p == [] {
    } else {
      NoneLater(p[1..], first, later);
    }
  }

  /** What instructions expand to is not `later`, except that a loop over the table may end with it. */
  ghost predicate Expandable(later: Instr -> bool) {
    && (forall i: Instr :: i.Acquire? || i.Release? || i.ArmAccept? || i.Close? || i.Remove? ==> !later(i))
    && (later(Clear) ==> later(StopAll))
  }

  lemma {:induction false} StopEachNotLater(order: seq<nat>, later: Instr -> bool)
    requires Expandable(later)
    ensures forall i <- StopEach(order) :: !later(i)
  {
    if order == [] {
    } else {
      StopEachNotLater(order[1..], later);
    }
  }

  lemma ExpansionPrecedes(d: Shared, i: Instr, rest: Program, order: seq<nat>, allocationFails: bool,
                          first: Instr -> bool, later: Instr -> bool)
    requires Expandable(later) && !later(i) && Precedes(rest, first, later)
    ensures Precedes(ProgramAfter(d, i, rest, order, allocationFails), first, later)
  {
    if i.Accept? && d.acceptorOpen {
      NoneLater(Locked(Socket(|d.conns|), [ArmAccept(|d.conns|)]), first, later);
      PrecedesAppend(Locked(Socket(|d.conns|), [ArmAccept(|d.conns|)]), rest, first, later);
    } else if i.StopAll? {
      StopEachNotLater(order, later);
      NoneLater(StopEach(order) + [Clear], first, later);
      PrecedesAppend(StopEach(order) + [Clear], rest, first, later);
    } else if Fails(d, i, allocationFails) {
      NoneLater(BufferExceptionProgram(i.c), first, later);
      PrecedesAppend(BufferExceptionProgram(i.c), rest, first, later);
    }
  }

  /** A step that is not `first` keeps the order, and is not `later`. */
  lemma RunKeepsOrder(s: Server, l: Label, first: Instr -> bool, later: Instr -> bool)
    requires AllPrecede(s, first, later) && Expandable(later) && l.Run? && Enabled(s, l)
    requires !first(s.threads[l.t][0])
    ensures AllPrecede(After(s, l), first, later) && !later(s.threads[l.t][0])
  {
    var i, rest := s.threads[l.t][0], s.threads[l.t][1..];
    assert Precedes(s.threads[l.t], first, later);
    ExpansionPrecedes(s.shared, i, rest, l.order, l.allocationFails, first, later);
  }

  // ---------------------------------------------------------------- entered before it reads

  function EntersConn(c: nat): Instr -> bool {
    (i: Instr) => i.Insert? && i.c == c
  }

  function ReadsConn(c: nat): Instr -> bool {
    (i: Instr) => i == Receive(c)
  }

  /** A connection that was not entered has no read, past or present, and none before its entry. */
  ghost predicate ReadsAfterEntry(s: Server, c: nat) {
    c !in s.shared.entered ==>
      && !ConnAt(s.shared, c).reading && !ConnAt(s.shared, c).fed
      && AllPrecede(s, EntersConn(c), ReadsConn(c))
  }

  lemma AcceptReadsAfterEntry(c: nat, peer: nat)
    ensures Precedes(AcceptedProgram(c, NoError, peer, true), EntersConn(c), ReadsConn(c))
  {
    var begin := Locked(Socket(c), [SetRemote(c, peer)]) + Locked(Connections, [Insert(peer, c)]);
    NoneLater(begin, EntersConn(c), ReadsConn(c));
    assert Insert(peer, c) in begin && EntersConn(c)(Insert(peer, c));
    PrecedesAppend(begin, ReceiveProgram(c) + StartProgram(), EntersConn(c), ReadsConn(c));
    assert AcceptedProgram(c, NoError, peer, true) == begin + (ReceiveProgram(c) + StartProgram());
  }

  /** What no handler brings is not in its program. */
  lemma HandlerReadsNot(l: Label, c: nat)
    requires !EntersByAccept(l, c) && l != ReadDone(c)
    ensures Receive(c) !in Handler(l)
  {
    if !l.Run? && Receive(c) in Handler(l) {
      HandlerWeight(Reads(c), l);
      ReadsBrought(l, c);
      PresentWeighs(Handler(l), Receive(c), Reads(c));
    }
  }

  lemma HandlerReadsAfterEntry(l: Label, c: nat)
    requires l != ReadDone(c)
    ensures Precedes(Handler(l), EntersConn(c), ReadsConn(c))
  {
    if EntersByAccept(l, c) {
      AcceptReadsAfterEntry(c, l.peer);
    } else {
      HandlerReadsNot(l, c);
      NoneLater(Handler(l), EntersConn(c), ReadsConn(c));
    }
  }

  lemma FedWasReading(s: Server, l: Label, c: nat)
    requires Enabled(s, l) && TableOk(s)
    ensures ConnAt(After(s, l).shared, c).fed <==> ConnAt(s.shared, c).fed || l == ReadDone(c)
  {
    if l.Run? {
      HeadIsOk(s, l.t);
      RunLeavesFed(s.shared, s.threads[l.t][0], l.key, l.allocationFails, c);
    }
  }

  lemma RunLeavesFed(d: Shared, i: Instr, key: nat, allocationFails: bool, c: nat)
    ensures ConnAt(SharedAfter(d, i, key, allocationFails), c).fed == ConnAt(d, c).fed
  {
  }

  lemma StepKeepsReadsAfterEntry(s: Server, l: Label, c: nat)
    requires TableOk(s) && ReadsAfterEntry(s, c) && Enabled(s, l)
    ensures ReadsAfterEntry(After(s, l), c)
  {
    FedWasReading(s, l, c);
    StepKeepsDisplaced(s, l);
    if c !in After(s, l).shared.entered {
      if l.Run? {
        RunReadsAfterEntry(s, l, c);
      } else {
        ArriveChangesReading(s, l, c);
        HandlerReadsAfterEntry(l, c);
      }
    }
  }

  lemma RunReadsAfterEntry(s: Server, l: Label, c: nat)
    requires TableOk(s) && ReadsAfterEntry(s, c) && Enabled(s, l) && l.Run?
    requires c !in s.shared.entered && c !in After(s, l).shared.entered
    ensures !ConnAt(After(s, l).shared, c).reading && AllPrecede(After(s, l), EntersConn(c), ReadsConn(c))
  {
    HeadIsOk(s, l.t);
    RunKeepsOrder(s, l, EntersConn(c), ReadsConn(c));
    RunChangesReading(s.shared, s.threads[l.t][0], l.key, l.allocationFails, c);
  }

  lemma {:induction false} ExecutionReadsAfterEntry(labels: seq<Label>, c: nat)
    requires Execution(labels).Some?
    ensures ReadsAfterEntry(Execution(labels).value, c)
    decreases |labels|
  {
    if labels == [] {
    } else {
      var front := labels[..|labels| - 1];
      ExecutionReadsAfterEntry(front, c);
      ExecutionKeepsTable(front);
      StepKeepsReadsAfterEntry(Execution(front).value, labels[|labels| - 1], c);
    }
  }

  /** In every execution a connection reads, and has ever completed a read, only after it was entered into the table. */
  lemma {:induction false} ReadsOnlyWhenEntered(labels: seq<Label>, c: nat)
    requires Execution(labels).Some?
    requires var conn := ConnAt(Execution(labels).value.shared, c); conn.reading || conn.fed
    ensures c in Execution(labels).value.shared.entered
  {
    ExecutionReadsAfterEntry(labels, c);
  }

  // ---------------------------------------------------------------- the acceptor is closed first

  function ClosesAcceptor(): Instr -> bool {
    (i: Instr) => i.CloseAcceptor?
  }

  function StopsTable(): Instr -> bool {
    (i: Instr) => i.StopAll? || i.Clear?
  }

  ghost predicate StopsInOrder(s: Server) {
    s.shared.acceptorOpen ==> AllPrecede(s, ClosesAcceptor(), StopsTable())
  }

  lemma HandlerStopsInOrder(l: Label)
    ensures Precedes(Handler(l), ClosesAcceptor(), StopsTable())
  {
    if l.CallStop? {
      var close := Locked(Acceptor, [CloseAcceptor]);
      NoneLater(close, ClosesAcceptor(), StopsTable());
      assert CloseAcceptor in close && ClosesAcceptor()(CloseAcceptor);
      PrecedesAppend(close, Locked(Connections, [StopAll]), ClosesAcceptor(), StopsTable());
    } else {
      NoneLater(Handler(l), ClosesAcceptor(), StopsTable());
    }
  }

  lemma {:induction false} ExecutionStopsInOrder(labels: seq<Label>)
    requires Execution(labels).Some?
    ensures StopsInOrder(Execution(labels).value)
    decreases |labels|
  {
    if labels == [] {
    } else {
      var front, l := labels[..|labels| - 1], labels[|labels| - 1];
      ExecutionStopsInOrder(front);
      var s := Execution(front).value;
      if s.shared.acceptorOpen && !(l.Run? && s.threads[l.t][0].CloseAcceptor?) {
        if l.Run? {
          RunKeepsOrder(s, l, ClosesAcceptor(), StopsTable());
        } else {
          HandlerStopsInOrder(l);
        }
      }
    }
  }

  /** In every execution `stop` reaches the table, and empties it, only when the acceptor is closed. */
  lemma {:induction false} StopFindsAcceptorClosed(labels: seq<Label>, t: nat)
    requires Execution(labels).Some? && t < |Execution(labels).value.threads|
    requires var p := Execution(labels).value.threads[t]; p != [] && (p[0].StopAll? || p[0].Clear?)
    ensures !Execution(labels).value.shared.acceptorOpen
  {
    ExecutionStopsInOrder(labels);
    assert Execution(labels).value.shared.acceptorOpen ==>
        Precedes(Execution(labels).value.threads[t], ClosesAcceptor(), StopsTable());
  }
}
