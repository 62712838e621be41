/**
 * How a connection ends after a failed write.  When the handler has finished, the connection is closed and out
 * of the table, unless its accept handler had not entered it yet; and it stays out exactly if that handler has
 * no entry left to make.
 */
module TcpServerRemoval {
  import opened Common
  import opened TcpServerThreads
  import opened TcpServerCounting
  import opened TcpServerLocks
  import opened TcpServerTable
  import opened TcpServerProgress
  import opened TcpServerEntries
  import opened TcpServerReads
  import opened TcpServerRuns

  predicate EntersNot(p: Program, c: nat) {
    forall i <- p :: !(i.Insert? && i.c == c)
  }

  /** No thread has the connection still to enter. */
  ghost predicate NoEntryPending(s: Server, c: nat) {
    forall t :: 0 <= t < |s.threads| ==> EntersNot(s.threads[t], c)
  }

  predicate Tabled(d: Shared, c: nat) {
    c in d.table.Values
  }

  // ---------------------------------------------------------------- who has an entry to make

  lemma {:induction false} WeighsNothingIff(p: Program, c: nat)
    ensures Weight(p, Enters(c)) == 0 <==> EntersNot(p, c)
    decreases |p|
  {
    if p == [] {
    } else {
      WeighsNothingIff(p[1..], c);
      assert p == [p[0]] + p[1..];
    }
  }

  lemma {:induction false} TotalNothingIff(threads: seq<Program>, c: nat)
    ensures Total(threads, Enters(c)) == 0 <==> forall p <- threads :: EntersNot(p, c)
    decreases |threads|
  {
    if threads == [] {
    } else {
      WeighsNothingIff(threads[0], c);
      TotalNothingIff(threads[1..], c);
      assert threads == [threads[0]] + threads[1..];
    }
  }

  lemma PendingIff(s: Server, c: nat)
    ensures NoEntryPending(s, c) <==> Total(s.threads, Enters(c)) == 0
  {
    TotalNothingIff(s.threads, c);
  }

  /** A connection is entered once, so one that has been is not about to be. */
  lemma {:induction false} EnteredIsNotPending(labels: seq<Label>, c: nat)
    requires Execution(labels).Some? && c in Execution(labels).value.shared.entered
    ensures NoEntryPending(Execution(labels).value, c)
  {
    var s := Execution(labels).value;
    ExecutionKeepsTrack(labels);
    assert Budgeted(s, c);
    PendingIff(s, c);
  }

  // ---------------------------------------------------------------- no entry appears

  lemma HandlerEntersNot(l: Label, c: nat)
    requires l.AcceptDone? ==> l.c != c
    ensures EntersNot(Handler(l), c)
  {
    if !l.Run? {
      HandlerWeight(Enters(c), l);
      BroughtByHandlers(l, c);
      WeighsNothingIff(Handler(l), c);
    }
  }

  lemma {:induction false} StopEachEntersNot(order: seq<nat>, c: nat)
    ensures EntersNot(StopEach(order), c)
  {
    if order == [] {
    } else {
      StopEachEntersNot(order[1..], c);
    }
  }

  lemma ProgramAfterEntersNot(d: Shared, i: Instr, rest: Program, order: seq<nat>, allocationFails: bool, c: nat)
    requires EntersNot(rest, c)
    ensures EntersNot(ProgramAfter(d, i, rest, order, allocationFails), c)
  {
    StopEachEntersNot(order, c);
  }

  lemma NoEntryAppears(s: Server, l: Label, c: nat)
    requires TableOk(s) && IsAccepted(s.shared, c) && NoEntryPending(s, c) && Enabled(s, l)
    ensures NoEntryPending(After(s, l), c)
  {
    NotAcceptedYet(s, l);
    if l.Run? {
      var p := s.threads[l.t];
      assert EntersNot(p, c);
      ProgramAfterEntersNot(s.shared, p[0], p[1..], l.order, l.allocationFails, c);
    } else {
      HandlerEntersNot(l, c);
    }
  }

  lemma StaysOutOneStep(s: Server, l: Label, c: nat)
    requires NoEntryPending(s, c) && !Tabled(s.shared, c) && Enabled(s, l)
    ensures !Tabled(After(s, l).shared, c)
  {
    if l.Run? {
      assert EntersNot(s.threads[l.t], c) && s.threads[l.t][0] in s.threads[l.t];
    } else {
      ArriveLeavesTable(s.shared, l);
    }
  }

  // ---------------------------------------------------------------- gone for good

  /** A connection is closed, out of the table, and its accept handler has no entry left to make. */
  ghost predicate Gone(s: Server, c: nat) {
    c in Shut(s.shared.conns) && !Tabled(s.shared, c) && NoEntryPending(s, c)
  }

  /** Once a connection is gone, no handler brings it back. */
  lemma {:induction false} GoneForGood(s: Server, more: seq<Label>, c: nat)
    requires TableOk(s) && Gone(s, c) && From(Some(s), more).Some?
    ensures Gone(From(Some(s), more).value, c)
    decreases |more|
  {
    if more == [] {
    } else if Enabled(s, more[0]) {
      StepKeepsTable(s, more[0]);
      NoEntryAppears(s, more[0], c);
      StaysOutOneStep(s, more[0], c);
      GoneForGood(After(s, more[0]), more[1..], c);
    } else {
      NothingFollowsNone(more[1..]);
    }
  }

  /** Thread `t` has `k` instructions of the handler of a failed write behind it. */
  ghost predicate Ending(s: Server, t: nat, c: nat, k: nat) {
    && t < |s.threads| && k <= |StopAndRemoveProgram(c)| && s.threads[t] == StopAndRemoveProgram(c)[k..]
    && IsAccepted(s.shared, c) && NoEntryPending(s, c)
    && (k >= 3 ==> c in Shut(s.shared.conns))
    && (k >= 7 ==> !Tabled(s.shared, c))
  }

  lemma EndingGoesOn(s: Server, l: Label, t: nat, c: nat, k: nat)
    requires TableOk(s) && Ending(s, t, c, k) && Enabled(s, l)
    ensures TableOk(After(s, l))
    ensures Ending(After(s, l), t, c, if l.Run? && l.t == t then k + 1 else k)
  {
    StepKeepsTable(s, l);
    NoEntryAppears(s, l, c);
    GrowsMeans(s.shared.conns, After(s, l).shared.conns);
    if k >= 7 {
      StaysOutOneStep(s, l, c);
    }
    if l.Run? && l.t == t {
      EndingProceeds(s, l, c, k);
    }
  }

  lemma StopAndRemoveSteps(c: nat, k: nat)
    requires k < |StopAndRemoveProgram(c)|
    ensures var p := StopAndRemoveProgram(c);
            && |p| == 8 && p[k..][0] == p[k] && p[k..][1..] == p[k + 1..]
            && (if k == 2 then p[k] == Close(c) else if k == 6 then p[k] == Remove(c)
                else p[k].Acquire? || p[k].Release?)
  {
    assert StopAndRemoveProgram(c) == [Acquire(Connections), Acquire(Socket(c)), Close(c), Release(Socket(c)),
                                       Release(Connections), Acquire(Connections), Remove(c), Release(Connections)];
  }

  /** The handler's own steps close the connection and take it out of the table. */
  lemma EndingProceeds(s: Server, l: Label, c: nat, k: nat)
    requires TableOk(s) && l.Run? && Enabled(s, l) && Ending(s, l.t, c, k)
    ensures k < |StopAndRemoveProgram(c)| && After(s, l).threads[l.t] == StopAndRemoveProgram(c)[k + 1..]
    ensures k == 2 ==> c in Shut(After(s, l).shared.conns)
    ensures k == 6 ==> !Tabled(After(s, l).shared, c)
  {
    StopAndRemoveSteps(c, k);
    if k == 6 {
      RemoveIsComplete(s, l);
    }
  }

  lemma {:induction false} EndingEnds(s: Server, more: seq<Label>, t: nat, c: nat, k: nat)
    requires TableOk(s) && Ending(s, t, c, k) && From(Some(s), more).Some?
    requires t < |From(Some(s), more).value.threads| && From(Some(s), more).value.threads[t] == []
    ensures Gone(From(Some(s), more).value, c)
    decreases |more|
  {
    if more == [] {
    } else if Enabled(s, more[0]) {
      EndingGoesOn(s, more[0], t, c, k);
      EndingEnds(After(s, more[0]), more[1..], t, c, if more[0].Run? && more[0].t == t then k + 1 else k);
    } else {
      NothingFollowsNone(more[1..]);
    }
  }

  /**
   * A failed write ends a connection with no entry pending, as one that has been entered, in every execution:
   * when its handler has finished, whatever ran meanwhile and runs later, the connection is closed, out of the
   * table and will not come back.
   */
  lemma {:induction false} FailedWriteEnds(labels: seq<Label>, s: Server, c: nat, more: seq<Label>, s': Server,
                                           later: seq<Label>)
    requires Execution(labels) == Some(s) && Enabled(s, WriteFails(c)) && NoEntryPending(s, c)
    requires From(Some(After(s, WriteFails(c))), more) == Some(s')
    requires |s.threads| < |s'.threads| && s'.threads[|s.threads|] == []
    requires From(Some(s'), later).Some?
    ensures Gone(s', c) && Gone(From(Some(s'), later).value, c)
  {
    var s1 := After(s, WriteFails(c));
    ExecutionKeepsTrack(labels);
    StepKeepsTrack(s, WriteFails(c));
    NoEntryAppears(s, WriteFails(c), c);
    EndingEnds(s1, more, |s.threads|, c, 0);
    TrackGoesOn(s1, more);
    GoneForGood(s', later, c);
  }

  // ---------------------------------------------------------------- a read that fails

  /** Thread `t` has `k` of the instructions behind it that shut a connection down after a failing read. */
  ghost predicate ShuttingDown(s: Server, t: nat, c: nat, rest: Program, k: nat) {
    && t < |s.threads| && k < 3 && s.threads[t] == BufferExceptionProgram(c)[k..] + rest
    && IsAccepted(s.shared, c) && NoEntryPending(s, c)
    && (k >= 1 ==> c in Shut(s.shared.conns))
  }

  lemma ShutdownSteps(c: nat, rest: Program, k: nat)
    requires k < 3
    ensures var p := BufferExceptionProgram(c)[k..] + rest;
            && |p| == |rest| + 4 - k && p[1..] == BufferExceptionProgram(c)[k + 1..] + rest
            && p[0] == if k == 0 then Close(c) else if k == 1 then Acquire(Connections) else Remove(c)
  {
    assert BufferExceptionProgram(c) == [Close(c), Acquire(Connections), Remove(c), Release(Connections)];
  }

  lemma ShutdownGoesOn(s: Server, l: Label, t: nat, c: nat, rest: Program, k: nat)
    requires TableOk(s) && ShuttingDown(s, t, c, rest, k) && Enabled(s, l)
    ensures var k' := if l.Run? && l.t == t then k + 1 else k;
            if k' < 3 then ShuttingDown(After(s, l), t, c, rest, k') else Gone(After(s, l), c)
  {
    StepKeepsTable(s, l);
    NoEntryAppears(s, l, c);
    GrowsMeans(s.shared.conns, After(s, l).shared.conns);
    ShutdownSteps(c, rest, k);
    if l.Run? && l.t == t && k == 2 {
      RemoveIsComplete(s, l);
    }
  }

  lemma {:induction false} ShutdownEnds(s: Server, more: seq<Label>, t: nat, c: nat, rest: Program, k: nat)
    requires TableOk(s) && ShuttingDown(s, t, c, rest, k) && From(Some(s), more).Some?
    requires t < |From(Some(s), more).value.threads| && |From(Some(s), more).value.threads[t]| < |rest| + 2
    ensures Gone(From(Some(s), more).value, c)
    decreases |more|
  {
    if more == [] {
      ShutdownSteps(c, rest, k);
      assert false;
    } else if Enabled(s, more[0]) {
      var k' := if more[0].Run? && more[0].t == t then k + 1 else k;
      StepKeepsTable(s, more[0]);
      ShutdownGoesOn(s, more[0], t, c, rest, k);
      if k' < 3 {
        ShutdownEnds(After(s, more[0]), more[1..], t, c, rest, k');
      } else {
        GoneForGood(After(s, more[0]), more[1..], c);
      }
    } else {
      NothingFollowsNone(more[1..]);
      assert false;
    }
  }

  /**
   * A read that fails to get memory is one of an open connection that was entered, and ends it, in every
   * execution: when its thread has no more to do than before, whatever ran meanwhile, the connection is closed and
   * out of the table for good.
   */
  lemma {:induction false} FailedReadEnds(labels: seq<Label>, s: Server, l: Label, more: seq<Label>, s': Server)
    requires Execution(labels) == Some(s) && Enabled(s, l) && FailsAt(s, l)
    requires From(Some(After(s, l)), more) == Some(s')
    requires l.t < |s'.threads| && |s'.threads[l.t]| <= |s.threads[l.t]|
    ensures var c := s.threads[l.t][0].c;
            && c in s.shared.entered && s.shared.conns[c].open
            && Gone(s', c)
  {
    var c, rest := s.threads[l.t][0].c, s.threads[l.t][1..];
    ExecutionKeepsTable(labels);
    ReadsOnlyWhenEntered(labels, c);
    EnteredIsNotPending(labels, c);
    HeadIsOk(s, l.t);
    StepKeepsTable(s, l);
    NoEntryAppears(s, l, c);
    assert BufferExceptionProgram(c)[0..] == BufferExceptionProgram(c);
    ShutdownEnds(After(s, l), more, l.t, c, rest, 0);
  }

  // ---------------------------------------------------------------- exactly when it stays out

  /** However the server goes on, the connection is not in the table. */
  ghost predicate StaysOut(s: Server, c: nat) {
    forall more :: From(Some(s), more).Some? ==> !Tabled(From(Some(s), more).value.shared, c)
  }

  lemma {:induction false} NotPendingStaysOut(s: Server, more: seq<Label>, c: nat)
    requires TableOk(s) && IsAccepted(s.shared, c) && NoEntryPending(s, c) && !Tabled(s.shared, c)
    requires From(Some(s), more).Some?
    ensures !Tabled(From(Some(s), more).value.shared, c)
    decreases |more|
  {
    if more == [] {
    } else if Enabled(s, more[0]) {
      StepKeepsTable(s, more[0]);
      NoEntryAppears(s, more[0], c);
      StaysOutOneStep(s, more[0], c);
      NotPendingStaysOut(After(s, more[0]), more[1..], c);
    } else {
      NothingFollowsNone(more[1..]);
    }
  }

  /** An entry still to be made is made before its thread ends, and then the connection is in the table. */
  lemma {:induction false} PendingComesIn(s: Server, more: seq<Label>, c: nat) returns (k: nat)
    requires TableOk(s) && !NoEntryPending(s, c)
    requires From(Some(s), more).Some? && AllDone(From(Some(s), more).value)
    ensures k <= |more| && From(Some(s), more[..k]).Some? && Tabled(From(Some(s), more[..k]).value.shared, c)
    decreases |more|
  {
    if more == [] {
      assert false;
    } else if Enabled(s, more[0]) {
      var l, s1 := more[0], After(s, more[0]);
      StepKeepsTable(s, l);
      if l.Run? && s.threads[l.t][0].Insert? && s.threads[l.t][0].c == c {
        k := 1;
        assert more[..1][0] == l && more[..1][1..] == [];
        assert From(Some(s), more[..1]) == From(Some(s1), []);
        var peer := s.threads[l.t][0].peer;
        assert s1.shared.table[peer] == c && c in s1.shared.table.Values;
      } else {
        StaysPending(s, l, c);
        k := PendingComesIn(s1, more[1..], c);
        assert more[..k + 1][0] == l && more[..k + 1][1..] == more[1..][..k];
        k := k + 1;
      }
    } else {
      NothingFollowsNone(more[1..]);
      assert false;
    }
  }

  lemma StaysPending(s: Server, l: Label, c: nat)
    requires Enabled(s, l) && !NoEntryPending(s, c)
    requires l.Run? ==> !(s.threads[l.t][0].Insert? && s.threads[l.t][0].c == c)
    ensures !NoEntryPending(After(s, l), c)
  {
    PendingIff(s, c);
    PendingIff(After(s, l), c);
    if l.Run? {
      RunSpends(s, l, Enters(c));
    } else {
      HandlerBrings(s, l, Enters(c));
    }
  }

  /**
   * A connection that is out of the table, because a failed write removed it or because it was not entered yet,
   * stays out however the server goes on exactly if no thread has it still to enter.  The condition that the
   * server can finish what it has begun is met as long as no allocation has failed.
   */
  lemma {:induction false} StaysOutIff(labels: seq<Label>, s: Server, c: nat)
    requires Execution(labels) == Some(s) && CanComplete(s)
    requires IsAccepted(s.shared, c) && !Tabled(s.shared, c)
    ensures StaysOut(s, c) <==> NoEntryPending(s, c)
  {
    ExecutionKeepsTable(labels);
    if NoEntryPending(s, c) {
      forall more | From(Some(s), more).Some? ensures !Tabled(From(Some(s), more).value.shared, c) {
        NotPendingStaysOut(s, more, c);
      }
    } else {
      var more :| From(Some(s), more).Some? && AllDone(From(Some(s), more).value);
      var k := PendingComesIn(s, more, c);
      assert Tabled(From(Some(s), more[..k]).value.shared, c);
    }
  }

  /** So a removal that overtakes the accept handler is in vain: the closed connection comes back into the table. */
  lemma {:induction false} ClosedConnectionComesBack(labels: seq<Label>, s: Server, c: nat)
    requires Execution(labels) == Some(s) && CanComplete(s)
    requires c in Shut(s.shared.conns) && !Tabled(s.shared, c) && !NoEntryPending(s, c)
    ensures exists more :: var s' := From(Some(s), more);
              s'.Some? && c in Shut(s'.value.shared.conns) && Tabled(s'.value.shared, c)
  {
    ExecutionKeepsTable(labels);
    StaysOutIff(labels, s, c);
    var more :| From(Some(s), more).Some? && Tabled(From(Some(s), more).value.shared, c);
    ClosedForGood(s, more, c);
  }

  // ---------------------------------------------------------------- it does happen

  /** The handler of a failed write from where it has closed the connection. */
  function AfterClosing(c: nat): Program {
    [Release(Connections)] + RemoveAtLast(c)
  }

  function RemoveAtLast(c: nat): Program {
    [Acquire(Connections)] + ([Remove(c)] + [Release(Connections)])
  }

  lemma FailedWriteProgram(c: nat)
    ensures StopAndRemoveProgram(c) == [Acquire(Connections)] + (Locked(Socket(c), [Close(c)]) + AfterClosing(c))
  {
  }

  lemma FailedWriteCloses(labels: seq<Label>, s: Server, c: nat) returns (more: seq<Label>)
    requires Execution(labels) == Some(s) && IsAccepted(s.shared, c) && s.owner == map[]
    ensures Execution(more) == Some(Server(SharedAfter(s.shared, Close(c), 0, false), map[Connections := |s.threads|],
                                           s.threads + [AfterClosing(c)]))
  {
    var rest, owner := Locked(Socket(c), [Close(c)]) + AfterClosing(c), map[Connections := |s.threads|];
    FailedWriteProgram(c);
    more := Go(labels, WriteFails(c));
    more := GoOn(more, Server(s.shared, map[], s.threads + [[Acquire(Connections)] + rest]), s.threads,
                 Acquire(Connections), rest);
    more := GoThrough(more, Server(s.shared, owner, s.threads + [rest]), s.threads, Socket(c), Close(c),
                      AfterClosing(c));
  }

  lemma RemovesNothing(s: Server, before: seq<Program>, c: nat, rest: Program)
    requires s.threads == before + [[Remove(c)] + rest] && !Tabled(s.shared, c)
    ensures Step(Some(s), Run(|before|, [], 0, false)) == Some(Server(s.shared, s.owner, before + [rest]))
  {
    var t := |before|;
    assert s.threads[t][0] == Remove(c) && s.threads[t][1..] == rest;
    assert s.threads[t := rest] == before + [rest];
  }

  lemma FailedWriteRemoves(labels: seq<Label>, s: Server, before: seq<Program>, c: nat) returns (more: seq<Label>)
    requires Execution(labels) == Some(s) && s.owner == map[] && !Tabled(s.shared, c)
    requires s.threads == before + [RemoveAtLast(c)]
    ensures Execution(more) == Some(Server(s.shared, map[], before + [[]]))
  {
    var owner := map[Connections := |before|];
    more := GoOn(labels, s, before, Acquire(Connections), [Remove(c)] + [Release(Connections)]);
    var s1 := Server(s.shared, owner, before + [[Remove(c)] + [Release(Connections)]]);
    RemovesNothing(s1, before, c, [Release(Connections)]);
    more := Go(more, Run(|before|, [], 0, false));
    assert [Release(Connections)] + [] == [Release(Connections)];
    var s2 := Server(s.shared, owner, before + [[Release(Connections)] + []]);
    more := GoOn(more, s2, before, Release(Connections), []);
    assert owner - {Connections} == map[];
  }

  lemma FailedWriteFinishes(labels: seq<Label>, d: Shared, before: seq<Program>, c: nat) returns (more: seq<Label>)
    requires Execution(labels) == Some(Server(d, map[Connections := |before|], before + [AfterClosing(c)]))
    requires !Tabled(d, c)
    ensures Execution(more) == Some(Server(d, map[], before + [[]]))
  {
    var owner := map[Connections := |before|];
    more := GoOn(labels, Server(d, owner, before + [AfterClosing(c)]), before, Release(Connections), RemoveAtLast(c));
    assert owner - {Connections} == map[];
    more := FailedWriteRemoves(more, Server(d, map[], before + [RemoveAtLast(c)]), before, c);
  }

  lemma ClosingLeavesTable(d: Shared, c: nat)
    ensures SharedAfter(d, Close(c), 0, false).table == d.table
  {
  }

  /** A write fails on an accepted connection that is not in the table: its handler runs from start to end. */
  lemma FailedWriteRuns(labels: seq<Label>, s: Server, c: nat) returns (more: seq<Label>)
    requires Execution(labels) == Some(s) && IsAccepted(s.shared, c) && s.owner == map[] && !Tabled(s.shared, c)
    ensures Execution(more) == Some(Server(SharedAfter(s.shared, Close(c), 0, false), map[], s.threads + [[]]))
  {
    more := FailedWriteCloses(labels, s, c);
    ClosingLeavesTable(s.shared, c);
    more := FailedWriteFinishes(more, SharedAfter(s.shared, Close(c), 0, false), s.threads, c);
  }

  /** With no mutex taken and every thread at a handler's beginning or end, all can finish. */
  lemma IdleCompletes(s: Server)
    requires s.owner == map[] && forall p <- s.threads :: Disciplined(true, {}, p) && Disciplined(false, {}, p)
    ensures CanComplete(s)
  {
    forall strict: bool ensures LocksOk(strict, s) {
      forall t | 0 <= t < |s.threads| ensures Disciplined(strict, Held(s, t), s.threads[t]) {
        assert Held(s, t) == {} && s.threads[t] in s.threads;
      }
    }
    Completes(true, s);
  }

  lemma EnterTableDisciplined(strict: bool, c: nat, peer: nat)
    ensures Disciplined(strict, {}, EnterTable(c, peer))
  {
    LeadsBlock(strict, {}, Connections, Insert(peer, c));
    LeadsBlock(strict, {}, Socket(c), Receive(c));
    AcceptAgainLeads(strict, NoError);
    LeadsAppend(strict, {}, Locked(Socket(c), [Receive(c)]), StartProgram());
    LeadsAppend(strict, {}, Locked(Connections, [Insert(peer, c)]), BeginReading(c));
  }

  /** The first connection, accepted from peer 7 and not yet entered. */
  function Unentered(): Shared {
    SharedAfter(Accepted(Listening(STARTED), 0, 7), SetRemote(0, 7), 0, false)
  }

  lemma FirstAccepted()
    ensures Listening(STARTED).conns == [FRESH] && 0 in Listening(STARTED).pending
    ensures Unentered().conns == [Conn(Some(7), Some(7), true, false, false)] && Unentered().table == map[]
  {
    var d := Listening(STARTED);
    assert d.conns == [FRESH] && d.pending == multiset{0};
    assert Accepted(d, 0, 7).conns == [Conn(Some(7), None, true, false, false)];
  }

  lemma FirstClosed()
    ensures 0 in Shut(SharedAfter(Unentered(), Close(0), 0, false).conns)
    ensures !Tabled(SharedAfter(Unentered(), Close(0), 0, false), 0)
  {
    FirstAccepted();
    ClosingLeavesTable(Unentered(), 0);
    assert SharedAfter(Unentered(), Close(0), 0, false).conns == [Conn(Some(7), Some(7), false, false, false)];
  }

  lemma BeforeEntering() returns (labels: seq<Label>)
    ensures Execution(labels) == Some(Server(Unentered(), map[], [[], EnterTable(0, 7)]))
  {
    var idle: seq<Program> := [] + [[]];
    FirstAccepted();
    labels := Waiting();
    labels := AboutToEnter(labels, Server(Listening(STARTED), map[], idle), 0, 7);
    assert idle + [EnterTable(0, 7)] == [[], EnterTable(0, 7)];
  }

  lemma HalfEnteredCompletes(s: Server)
    requires s.owner == map[] && s.threads == [[], EnterTable(0, 7), []]
    ensures CanComplete(s) && !NoEntryPending(s, 0)
  {
    EnterTableDisciplined(true, 0, 7);
    EnterTableDisciplined(false, 0, 7);
    IdleCompletes(s);
    assert s.threads[1][1] == Insert(7, 0);
    assert !EntersNot(s.threads[1], 0);
  }

  /** It is closed by a failed write, whose handler has finished, while its entry is still to be made. */
  lemma ClosedBeforeEntered() returns (labels: seq<Label>, s: Server)
    ensures Execution(labels) == Some(s) && CanComplete(s)
    ensures 0 in Shut(s.shared.conns) && !Tabled(s.shared, 0) && !NoEntryPending(s, 0)
  {
    var half := Server(Unentered(), map[], [[], EnterTable(0, 7)]);
    FirstAccepted();
    labels := BeforeEntering();
    labels := FailedWriteRuns(labels, half, 0);
    assert half.threads + [[]] == [[], EnterTable(0, 7), []];
    s := Server(SharedAfter(Unentered(), Close(0), 0, false), map[], [[], EnterTable(0, 7), []]);
    HalfEnteredCompletes(s);
    FirstClosed();
  }

  /** So an execution exists that ends with a closed connection in the table. */
  lemma ClosedConnectionTabled()
    ensures exists labels: seq<Label> ::
              && Execution(labels).Some?
              && var d := Execution(labels).value.shared;
                 0 in Shut(d.conns) && Tabled(d, 0)
  {
    var labels, s := ClosedBeforeEntered();
    ClosedConnectionComesBack(labels, s, 0);
    var more :| var s' := From(Some(s), more);
                s'.Some? && 0 in Shut(s'.value.shared.conns) && Tabled(s'.value.shared, 0);
    ExecutionContinues(labels, more);
  }
}
