/**
 * Which connections are in the table.  A connection is entered at most once, and leaves the table when it is
 * removed, when `stop` empties it, or when another one is entered under the same remote endpoint.  In the last
 * case it stays open, reads on, and no later `stop` reaches it: these are exactly the connections that `stop`
 * leaves open.  The same counting shows that a connection never has two reads under way.
 */
module TcpServerEntries {
  import opened Common
  import opened TcpServerThreads
  import opened TcpServerCounting
  import opened TcpServerLocks
  import opened TcpServerTable
  import opened TcpServerStop
  import opened TcpServerRuns

  // ---------------------------------------------------------------- one entry and one read each

  /** Counts the entries of connection `c` still to be made. */
  function Enters(c: nat): Instr -> nat {
    (i: Instr) => if i.Insert? && i.c == c then 1 else 0
  }

  /** Counts the reads of connection `c` still to be armed. */
  function Reads(c: nat): Instr -> nat {
    (i: Instr) => if i == Receive(c) then 1 else 0
  }

  /** Once accepted, a connection has one entry to make and one read to arm or outstanding, before that none. */
  ghost predicate Budgeted(s: Server, c: nat) {
    var budget := if IsAccepted(s.shared, c) then 1 else 0;
    && Total(s.threads, Enters(c)) + (if c in s.shared.entered then 1 else 0) <= budget
    && Total(s.threads, Reads(c)) + (if ConnAt(s.shared, c).reading then 1 else 0) <= budget
  }

  ghost predicate BudgetsOk(s: Server) {
    forall c: nat :: Budgeted(s, c)
  }

  lemma RunSpends(s: Server, l: Label, w: Instr -> nat)
    requires CountsSteps(w) && (forall i: Instr :: IsHop(i) ==> w(i) == 0)
    requires l.Run? && Enabled(s, l)
    ensures Total(After(s, l).threads, w) == Total(s.threads, w) - w(s.threads[l.t][0])
  {
    var i, rest := s.threads[l.t][0], s.threads[l.t][1..];
    var p := ProgramAfter(s.shared, i, rest, l.order, l.allocationFails);
    ProgramAfterWeight(w, s.shared, i, rest, l.order, l.allocationFails);
    TotalUpdate(s.threads, l.t, p, w);
    assert Weight(s.threads[l.t], w) == w(i) + Weight(rest, w);
  }

  lemma RunUsesBudget(d: Shared, i: Instr, key: nat, allocationFails: bool, c: nat)
    requires HeadOk(d.conns, i)
    ensures var d' := SharedAfter(d, i, key, allocationFails);
            && (c in d'.entered <==> c in d.entered || Enters(c)(i) == 1)
            && (IsAccepted(d, c) ==> IsAccepted(d', c))
  {
    RunGrows(d, i, key, allocationFails);
  }

  lemma RunUsesReads(d: Shared, i: Instr, key: nat, allocationFails: bool, c: nat)
    ensures ConnAt(SharedAfter(d, i, key, allocationFails), c).reading ==> ConnAt(d, c).reading || Reads(c)(i) == 1
  {
  }

  lemma RunKeepsBudget(s: Server, l: Label, c: nat)
    requires TableOk(s) && Budgeted(s, c) && l.Run? && Enabled(s, l)
    ensures Budgeted(After(s, l), c)
  {
    HeadIsOk(s, l.t);
    RunSpends(s, l, Enters(c));
    RunSpends(s, l, Reads(c));
    RunUsesBudget(s.shared, s.threads[l.t][0], l.key, l.allocationFails, c);
    RunUsesReads(s.shared, s.threads[l.t][0], l.key, l.allocationFails, c);
  }

  /** An accept gives a budget, a completed or timed out read gives one back. */
  lemma ArriveUsesBudget(d: Shared, l: Label, c: nat)
    requires !l.AcceptDone? && (l.TimerFires? ==> 0 < d.timers)
    ensures var d' := Arrive(d, l);
            && d'.entered == d.entered && (IsAccepted(d', c) <==> IsAccepted(d, c))
            && (ConnAt(d', c).reading ==> ConnAt(d, c).reading && l != ReadDone(c))
  {
  }

  lemma AcceptGivesBudget(d: Shared, l: Label, c: nat)
    requires l.AcceptDone? && l.c < |d.conns| && !IsAccepted(d, l.c)
    ensures var d' := Arrive(d, l);
            && d'.entered == d.entered && ConnAt(d', c).reading == ConnAt(d, c).reading
            && (IsAccepted(d', c) <==> IsAccepted(d, c) || (l.c == c && l.error == NoError))
  {
  }

  lemma HandlerBrings(s: Server, l: Label, w: Instr -> nat)
    requires CountsSteps(w) && !l.Run? && Enabled(s, l)
    ensures Total(After(s, l).threads, w) == Total(s.threads, w) + WeightOf(w, l)
  {
    HandlerWeight(w, l);
    TotalAppend(s.threads, Handler(l), w);
  }

  predicate EntersByAccept(l: Label, c: nat) {
    l.AcceptDone? && l.c == c && l.error == NoError && l.configured
  }

  lemma BroughtByHandlers(l: Label, c: nat)
    requires !l.Run?
    ensures WeightOf(Enters(c), l) == if EntersByAccept(l, c) then 1 else 0
    ensures WeightOf(Reads(c), l) == if EntersByAccept(l, c) || l == ReadDone(c) then 1 else 0
  {
    EntriesBrought(l, c);
    ReadsBrought(l, c);
  }

  lemma EntriesBrought(l: Label, c: nat)
    requires !l.Run?
    ensures WeightOf(Enters(c), l) == if EntersByAccept(l, c) then 1 else 0
  {
    assert forall k: Lock :: LockWeight(Enters(c), k) == 0;
    if l.AcceptDone? {
      assert AgainWeight(Enters(c), l.error) == 0;
    }
  }

  lemma ReadsBrought(l: Label, c: nat)
    requires !l.Run?
    ensures WeightOf(Reads(c), l) == if EntersByAccept(l, c) || l == ReadDone(c) then 1 else 0
  {
    match l
    case AcceptDone(a, error, peer, configured) => AcceptBringsRead(a, error, peer, configured, c);
    case ReadDone(d) => assert LockWeight(Reads(c), Socket(d)) == 0;
    case CallStart => StartReadsNothing(c);
    case TimerFires(_) => StartReadsNothing(c);
    case _ => OthersReadNothing(l, c);
  }

  lemma StartReadsNothing(c: nat)
    ensures StartWeight(Reads(c)) == 0
  {
  }

  lemma OthersReadNothing(l: Label, c: nat)
    requires !l.AcceptDone? && !l.ReadDone? && !l.CallStart? && !l.TimerFires?
    ensures WeightOf(Reads(c), l) == 0
  {
    assert forall k: Lock :: LockWeight(Reads(c), k) == 0;
  }

  lemma AcceptBringsRead(a: nat, error: ErrorCode, peer: nat, configured: bool, c: nat)
    ensures EntryWeight(Reads(c), a, error, peer, configured)
         == if a == c && error == NoError && configured then 1 else 0
    ensures AgainWeight(Reads(c), error) == 0
  {
  }

  lemma ArriveKeepsBudget(s: Server, l: Label, c: nat)
    requires TableOk(s) && Budgeted(s, c) && !l.Run? && Enabled(s, l)
    ensures Budgeted(After(s, l), c)
  {
    BroughtByHandlers(l, c);
    HandlerBrings(s, l, Enters(c));
    HandlerBrings(s, l, Reads(c));
    NotAcceptedYet(s, l);
    if l.AcceptDone? {
      AcceptGivesBudget(s.shared, l, c);
    } else {
      ArriveUsesBudget(s.shared, l, c);
    }
  }

  lemma StepKeepsBudgets(s: Server, l: Label)
    requires TableOk(s) && BudgetsOk(s) && Enabled(s, l)
    ensures BudgetsOk(After(s, l))
  {
    forall c: nat ensures Budgeted(After(s, l), c) {
      if l.Run? {
        RunKeepsBudget(s, l, c);
      } else {
        ArriveKeepsBudget(s, l, c);
      }
    }
  }

  // ---------------------------------------------------------------- tabled, displaced or closed

  /** Every connection that was entered is in the table, displaced, or closed, and not both of the first two. */
  predicate EntriesOk(d: Shared) {
    && d.table.Values + d.displaced <= d.entered
    && d.table.Values !! d.displaced
    && forall c <- d.entered :: c in d.table.Values || c in d.displaced || c in Shut(d.conns)
  }

  lemma InsertKeepsEntries(d: Shared, peer: nat, c: nat)
    requires EntriesOk(d) && KeysOk(d) && c !in d.entered
    ensures EntriesOk(SharedAfter(d, Insert(peer, c), 0, false))
    ensures peer in d.table ==> d.table[peer] !in SharedAfter(d, Insert(peer, c), 0, false).table.Values
  {
    var d' := SharedAfter(d, Insert(peer, c), 0, false);
    forall o <- d'.table.Values ensures o == c || (o in d.table.Values && (peer in d.table ==> o != d.table[peer])) {
      var k :| k in d'.table && d'.table[k] == o;
    }
    forall o <- d.table.Values ensures o in d'.table.Values || (peer in d.table && o == d.table[peer]) {
      var k :| k in d.table && d.table[k] == o;
      if k != peer {
        assert k in d'.table && d'.table[k] == o;
      }
    }
    assert peer in d'.table && d'.table[peer] == c;
  }

  lemma RemoveKeepsEntries(d: Shared, c: nat, key: nat)
    requires EntriesOk(d) && c in Shut(d.conns)
    requires c in d.table.Values ==> key in d.table && d.table[key] == c
    ensures EntriesOk(SharedAfter(d, Remove(c), key, false))
  {
    var d' := SharedAfter(d, Remove(c), key, false);
    forall o <- d.table.Values ensures o in d'.table.Values || o == c {
      var k :| k in d.table && d.table[k] == o;
      if k != key {
        assert k in d'.table && d'.table[k] == o;
      }
    }
  }

  predicate SameEntries(d: Shared, d': Shared) {
    d'.table == d.table && d'.entered == d.entered && d'.displaced == d.displaced
  }

  /** What does not touch the table keeps its entries, for no connection is opened again. */
  lemma ClosingKeepsEntries(d: Shared, d': Shared)
    requires EntriesOk(d) && Grows(d.conns, d'.conns)
    requires SameEntries(d, d')
    ensures EntriesOk(d')
  {
    GrowsMeans(d.conns, d'.conns);
  }

  lemma ClearKeepsEntries(d: Shared)
    requires EntriesOk(d) && forall peer <- d.table :: d.table[peer] in Shut(d.conns)
    ensures EntriesOk(SharedAfter(d, Clear, 0, false))
  {
  }

  lemma OnlyTableUpdates(d: Shared, i: Instr, key: nat, allocationFails: bool)
    requires !i.Insert? && !i.Clear? && !i.Remove?
    ensures SameEntries(d, SharedAfter(d, i, key, allocationFails))
  {
  }

  lemma RunKeepsEntries(s: Server, l: Label)
    requires TableOk(s) && BudgetsOk(s) && StopOk(s) && EntriesOk(s.shared) && l.Run? && Enabled(s, l)
    ensures EntriesOk(After(s, l).shared)
  {
    var i := s.threads[l.t][0];
    HeadIsOk(s, l.t);
    if i.Insert? {
      RunSpends(s, l, Enters(i.c));
      assert Budgeted(s, i.c);
      InsertKeepsEntries(s.shared, i.peer, i.c);
    } else if i.Clear? {
      assert HasClear(s.threads[l.t]) && Stopping(s, l.t);
      ClearKeepsEntries(s.shared);
    } else if i.Remove? {
      RemoveKeepsEntries(s.shared, i.c, l.key);
    } else {
      RunGrows(s.shared, i, l.key, l.allocationFails);
      OnlyTableUpdates(s.shared, i, l.key, l.allocationFails);
      ClosingKeepsEntries(s.shared, After(s, l).shared);
    }
  }

  lemma ArriveKeepsEntries(s: Server, l: Label)
    requires TableOk(s) && EntriesOk(s.shared) && !l.Run? && Enabled(s, l)
    ensures EntriesOk(After(s, l).shared)
  {
    StepKeepsTable(s, l);
    ArriveLeavesTable(s.shared, l);
    ClosingKeepsEntries(s.shared, After(s, l).shared);
  }

  lemma ArriveLeavesTable(d: Shared, l: Label)
    requires l.TimerFires? ==> 0 < d.timers
    ensures SameEntries(d, Arrive(d, l))
  {
  }

  /** What holds of the table, of `stop` and of the entries in every execution. */
  ghost predicate TrackOk(s: Server) {
    LocksOk(false, s) && TableOk(s) && StopOk(s) && BudgetsOk(s) && EntriesOk(s.shared)
  }

  lemma StepKeepsTrack(s: Server, l: Label)
    requires TrackOk(s) && Enabled(s, l)
    ensures TrackOk(After(s, l)) && Grows(s.shared.conns, After(s, l).shared.conns)
  {
    StepKeepsLocks(false, s, l);
    StepKeepsTable(s, l);
    StepKeepsStop(s, l);
    StepKeepsBudgets(s, l);
    if l.Run? {
      RunKeepsEntries(s, l);
    } else {
      ArriveKeepsEntries(s, l);
    }
  }

  lemma {:induction false} ExecutionKeepsTrack(labels: seq<Label>)
    requires Execution(labels).Some?
    ensures TrackOk(Execution(labels).value)
    decreases |labels|
  {
    if labels == [] {
    } else {
      var front := labels[..|labels| - 1];
      ExecutionKeepsTrack(front);
      StepKeepsTrack(Execution(front).value, labels[|labels| - 1]);
    }
  }

  // ---------------------------------------------------------------- what follows for every execution

  /**
   * In every execution a connection has at most one read under way: outstanding, or about to be armed by at
   * most one thread.
   */
  lemma {:induction false} OneReadAtATime(labels: seq<Label>, c: nat)
    requires Execution(labels).Some?
    ensures var s := Execution(labels).value;
            Total(s.threads, Reads(c)) + (if ConnAt(s.shared, c).reading then 1 else 0) <= 1
    ensures var s := Execution(labels).value;
            forall t, u :: 0 <= t < u < |s.threads| && Receive(c) in s.threads[t] ==>
              Receive(c) !in s.threads[u] && !ConnAt(s.shared, c).reading
  {
    ExecutionKeepsTrack(labels);
    var s := Execution(labels).value;
    assert Budgeted(s, c);
    forall t, u | 0 <= t < u < |s.threads| && Receive(c) in s.threads[t]
      ensures Receive(c) !in s.threads[u] && !ConnAt(s.shared, c).reading
    {
      PresentWeighs(s.threads[t], Receive(c), Reads(c));
      TwoWeigh(s.threads, t, u, Reads(c));
      if Receive(c) in s.threads[u] {
        PresentWeighs(s.threads[u], Receive(c), Reads(c));
      }
    }
  }

  lemma {:induction false} PresentWeighs(p: Program, i: Instr, w: Instr -> nat)
    requires i in p
    ensures Weight(p, w) >= w(i)
    decreases |p|
  {
    if p[0] == i {
    } else {
      PresentWeighs(p[1..], i, w);
    }
  }

  lemma TwoWeigh(threads: seq<Program>, t: nat, u: nat, w: Instr -> nat)
    requires t < u < |threads|
    ensures Weight(threads[t], w) + Weight(threads[u], w) <= Total(threads, w)
  {
    TotalUpdate(threads, t, [], w);
    TotalUpdate(threads[t := []], u, [], w);
  }

  /**
   * A connection entered under an occupied key displaces another one: that one is out of the table, and
   * nothing about it or any other connection changes, so it stays open and reads on if it did.
   */
  lemma {:induction false} InsertDisplaces(labels: seq<Label>, l: Label)
    requires Execution(labels).Some? && l.Run? && Enabled(Execution(labels).value, l)
    requires var s := Execution(labels).value;
             s.threads[l.t][0].Insert? && s.threads[l.t][0].peer in s.shared.table
    ensures var s := Execution(labels).value;
            var d, d', i := s.shared, After(s, l).shared, s.threads[l.t][0];
            var o := d.table[i.peer];
            && o != i.c && o !in d'.table.Values && o in d'.displaced
            && d'.table == d.table[i.peer := i.c]
            && d'.conns == d.conns
  {
    ExecutionKeepsTrack(labels);
    var s := Execution(labels).value;
    var i := s.threads[l.t][0];
    RunSpends(s, l, Enters(i.c));
    assert Budgeted(s, i.c);
    assert s.shared.table[i.peer] in s.shared.table.Values;
    InsertKeepsEntries(s.shared, i.peer, i.c);
  }

  /** In every execution an open connection that was entered is either in the table or displaced, and never both. */
  lemma {:induction false} OpenIsTabledOrDisplaced(labels: seq<Label>, c: nat)
    requires Execution(labels).Some?
    requires c in Execution(labels).value.shared.entered && ConnAt(Execution(labels).value.shared, c).open
    ensures var d := Execution(labels).value.shared;
            c in d.table.Values <==> c !in d.displaced
  {
    ExecutionKeepsTrack(labels);
    assert c in Execution(labels).value.shared.table.Values || c in Execution(labels).value.shared.displaced;
  }

  /** What is displaced stays so. */
  lemma StepKeepsDisplaced(s: Server, l: Label)
    requires Enabled(s, l)
    ensures s.shared.displaced <= After(s, l).shared.displaced && s.shared.entered <= After(s, l).shared.entered
  {
    if l.Run? {
      var i := s.threads[l.t][0];
      if !i.Insert? && !i.Clear? && !i.Remove? {
        OnlyTableUpdates(s.shared, i, l.key, l.allocationFails);
      }
    } else {
      ArriveLeavesTable(s.shared, l);
    }
  }

  /** Neither the entries nor the closing of a connection is ever undone. */
  lemma {:induction false} TrackGoesOn(s: Server, more: seq<Label>)
    requires TrackOk(s) && From(Some(s), more).Some?
    ensures var s' := From(Some(s), more).value;
            && TrackOk(s')
            && s.shared.displaced <= s'.shared.displaced && s.shared.entered <= s'.shared.entered
            && Shut(s.shared.conns) <= Shut(s'.shared.conns)
    decreases |more|
  {
    if more == [] {
    } else if Enabled(s, more[0]) {
      StepKeepsTrack(s, more[0]);
      StepKeepsDisplaced(s, more[0]);
      GrowsMeans(s.shared.conns, After(s, more[0]).shared.conns);
      TrackGoesOn(After(s, more[0]), more[1..]);
    } else {
      NothingFollowsNone(more[1..]);
    }
  }

  /** A displaced connection is never found in the table again. */
  lemma {:induction false} DisplacedForGood(labels: seq<Label>, more: seq<Label>, c: nat)
    requires Execution(labels).Some? && From(Execution(labels), more).Some?
    requires c in Execution(labels).value.shared.displaced
    ensures var d := From(Execution(labels), more).value.shared;
            c in d.displaced && c !in d.table.Values
  {
    ExecutionKeepsTrack(labels);
    TrackGoesOn(Execution(labels).value, more);
  }

  /** `stop` closes only what it found in the table: a displaced connection is not among it. */
  lemma {:induction false} StopSparesDisplaced(labels: seq<Label>, t: nat)
    requires Execution(labels).Some? && t < |Execution(labels).value.threads|
    requires HasClear(Execution(labels).value.threads[t])
    ensures var s := Execution(labels).value;
            ToClose(s.threads[t]) <= s.shared.table.Values && ToClose(s.threads[t]) !! s.shared.displaced
  {
    ExecutionKeepsTrack(labels);
    assert Stopping(Execution(labels).value, t);
  }

  /**
   * Which connections `stop` leaves open: at any time after it emptied the table, an entered connection that is
   * open was displaced before, or entered after.
   */
  lemma {:induction false} StopLeavesOpen(labels: seq<Label>, l: Label, more: seq<Label>, c: nat)
    requires Execution(labels).Some? && l.Run? && Enabled(Execution(labels).value, l)
    requires Execution(labels).value.threads[l.t][0].Clear?
    requires From(Some(After(Execution(labels).value, l)), more).Some?
    requires var d := From(Some(After(Execution(labels).value, l)), more).value.shared;
             c in d.entered && ConnAt(d, c).open
    ensures c in Execution(labels).value.shared.displaced || c !in Execution(labels).value.shared.entered
  {
    var s := Execution(labels).value;
    var s' := After(s, l);
    ExecutionKeepsTrack(labels);
    StepKeepsTrack(s, l);
    TrackGoesOn(s', more);
  }

  // ---------------------------------------------------------------- it does happen

  /** Two connections from the same peer: the second has taken the place of the first, which reads on. */
  lemma SamePeerTwice() returns (labels: seq<Label>)
    ensures var d := Reading(Listening(Reading(Listening(STARTED), 0, 7)), 1, 7);
            && Execution(labels) == Some(Server(d, map[], [[], []] + [StartProgram()]))
            && d.table == map[7 := 1] && d.displaced == {0} && |d.conns| == 2
            && d.conns[0] == Conn(Some(7), Some(7), true, true, false)
  {
    labels := OneConnection();
    var d := Reading(Listening(STARTED), 0, 7);
    labels := Listen(labels, Server(d, map[], [[]] + [StartProgram()]), [[]]);
    var idle: seq<Program> := [[]] + [[]];
    assert idle == [[], []];
    SecondPending(d);
    SecondEntry(d);
    labels := Connect(labels, Server(Listening(d), map[], idle), 1, 7);
  }

  lemma SecondPending(d: Shared)
    requires |d.conns| == 1 && d.pending == multiset{}
    ensures Listening(d).conns == [d.conns[0], FRESH] && 1 in Listening(d).pending
  {
  }

  lemma SecondEntry(d: Shared)
    requires d.conns == [Conn(Some(7), Some(7), true, true, false)] && d.table == map[7 := 0]
    requires d.displaced == {} && d.pending == multiset{}
    ensures var d' := Reading(Listening(d), 1, 7);
            d'.table == map[7 := 1] && d'.displaced == {0} && |d'.conns| == 2 && d'.conns[0] == d.conns[0]
  {
    SecondPending(d);
    var d1 := Accepted(Listening(d), 1, 7);
    assert d1.conns == [d.conns[0], Conn(Some(7), None, true, false, false)] && d1.table == d.table;
    SecondEntered(d1);
  }

  lemma SecondEntered(d: Shared)
    requires d.conns == [Conn(Some(7), Some(7), true, true, false), Conn(Some(7), None, true, false, false)]
    requires d.table == map[7 := 0] && d.displaced == {}
    ensures var d1 := SharedAfter(SharedAfter(d, SetRemote(1, 7), 0, false), Insert(7, 1), 0, false);
            var d' := SharedAfter(d1, Receive(1), 0, false);
            d'.table == map[7 := 1] && d'.displaced == {0} && |d'.conns| == 2 && d'.conns[0] == d.conns[0]
  {
    var d1 := SharedAfter(d, SetRemote(1, 7), 0, false);
    assert d1.conns == [d.conns[0], Conn(Some(7), Some(7), true, false, false)];
  }

  lemma StoppedSparesFirst(d: Shared)
    requires |d.conns| == 2 && d.conns[0].open && d.conns[0].reading
    ensures var d' := Stopped(d, 1);
            && !d'.acceptorOpen && d'.table == map[] && d'.displaced == d.displaced
            && |d'.conns| == 2 && d'.conns[0] == d.conns[0]
  {
  }

  /** So `stop` can finish and leave a displaced connection open and reading. */
  lemma StopLeavesOneOpen()
    ensures exists labels: seq<Label> ::
              && Execution(labels).Some?
              && var s := Execution(labels).value;
              && s.owner == map[] && !s.shared.acceptorOpen && s.shared.table == map[]
              && 0 in s.shared.displaced && ConnAt(s.shared, 0).open && ConnAt(s.shared, 0).reading
  {
    var labels := SamePeerTwice();
    var s := Execution(labels).value;
    labels := StopOne(labels, s, 7, 1);
    StoppedSparesFirst(s.shared);
  }
}
