/** Executions of the TCP server built handler by handler: started, with its first connections accepted, stopped. */
module TcpServerRuns {
  import opened Common
  import opened TcpServerThreads

  lemma Go(labels: seq<Label>, l: Label) returns (more: seq<Label>)
    ensures Execution(more) == Step(Execution(labels), l)
  {
    more := labels + [l];
    assert more[..|more| - 1] == labels;
  }

  lemma OneStep(s: Server, before: seq<Program>, i: Instr, rest: Program)
    requires s.threads == before + [[i] + rest]
    requires (i.Acquire? ==> i.lock !in s.owner) && !i.StopAll? && !i.Remove?
    ensures var go := Run(|before|, [], 0, false);
            && Enabled(s, go)
            && After(s, go) == Server(SharedAfter(s.shared, i, 0, false), OwnerAfter(s.owner, |before|, i),
                                      before + [ProgramAfter(s.shared, i, rest, [], false)])
  {
    var t, p := |before|, ProgramAfter(s.shared, i, rest, [], false);
    assert s.threads[t][0] == i && s.threads[t][1..] == rest;
    assert s.threads[t := p] == before + [p];
  }

  /** The last thread performs one instruction. */
  lemma GoOn(labels: seq<Label>, s: Server, before: seq<Program>, i: Instr, rest: Program) returns (more: seq<Label>)
    requires Execution(labels) == Some(s) && s.threads == before + [[i] + rest]
    requires (i.Acquire? ==> i.lock !in s.owner) && !i.StopAll? && !i.Remove?
    ensures Execution(more) == Some(Server(SharedAfter(s.shared, i, 0, false), OwnerAfter(s.owner, |before|, i),
                                           before + [ProgramAfter(s.shared, i, rest, [], false)]))
  {
    OneStep(s, before, i, rest);
    more := Go(labels, Run(|before|, [], 0, false));
  }

  lemma BlockSteps(s: Server, before: seq<Program>, l: Lock, i: Instr, rest: Program)
    requires s.threads == before + [Locked(l, [i]) + rest]
    requires l !in s.owner && !i.Acquire? && !i.Release? && !i.StopAll? && !i.Remove? && !i.Accept?
    ensures var go := Run(|before|, [], 0, false);
            var s' := Server(SharedAfter(s.shared, i, 0, false), s.owner, before + [rest]);
            Step(Step(Step(Some(s), go), go), go) == Some(s')
  {
    var s1 := Server(s.shared, s.owner[l := |before|], before + [[i] + ([Release(l)] + rest)]);
    var s2 := Server(SharedAfter(s.shared, i, 0, false), s1.owner, before + [[Release(l)] + rest]);
    assert Locked(l, [i]) + rest == [Acquire(l)] + ([i] + ([Release(l)] + rest));
    OneStep(s, before, Acquire(l), [i] + ([Release(l)] + rest));
    OneStep(s1, before, i, [Release(l)] + rest);
    OneStep(s2, before, Release(l), rest);
    assert s.owner[l := |before|] - {l} == s.owner;
  }

  /** The last thread performs a guarded block around an instruction that expands to nothing. */
  lemma GoThrough(labels: seq<Label>, s: Server, before: seq<Program>, l: Lock, i: Instr, rest: Program)
    returns (more: seq<Label>)
    requires Execution(labels) == Some(s) && s.threads == before + [Locked(l, [i]) + rest]
    requires l !in s.owner && !i.Acquire? && !i.Release? && !i.StopAll? && !i.Remove? && !i.Accept?
    ensures Execution(more) == Some(Server(SharedAfter(s.shared, i, 0, false), s.owner, before + [rest]))
  {
    BlockSteps(s, before, l, i, rest);
    more := Go(labels, Run(|before|, [], 0, false));
    more := Go(more, Run(|before|, [], 0, false));
    more := Go(more, Run(|before|, [], 0, false));
  }

  // ---------------------------------------------------------------- listening

  /** A fresh connection is pending. */
  function Listening(d: Shared): Shared {
    d.(conns := d.conns + [FRESH], pending := d.pending + multiset{|d.conns|})
  }

  lemma AcceptorTaken(labels: seq<Label>, s: Server, before: seq<Program>) returns (more: seq<Label>)
    requires Execution(labels) == Some(s) && s.threads == before + [StartProgram()] && s.owner == map[]
    ensures Execution(more) == Some(Server(s.shared, map[Acceptor := |before|],
                                           before + [[Accept] + [Release(Acceptor)]]))
  {
    assert StartProgram() == [Acquire(Acceptor)] + ([Accept] + [Release(Acceptor)]);
    more := GoOn(labels, s, before, Acquire(Acceptor), [Accept] + [Release(Acceptor)]);
  }

  lemma ConnectionCreated(labels: seq<Label>, s: Server, before: seq<Program>) returns (more: seq<Label>)
    requires Execution(labels) == Some(s) && s.threads == before + [StartProgram()] && s.owner == map[]
    requires s.shared.acceptorOpen
    ensures var n := |s.shared.conns|;
            Execution(more) == Some(Server(s.shared.(conns := s.shared.conns + [FRESH]), map[Acceptor := |before|],
                                           before + [Locked(Socket(n), [ArmAccept(n)]) + [Release(Acceptor)]]))
  {
    more := AcceptorTaken(labels, s, before);
    var s1 := Server(s.shared, map[Acceptor := |before|], before + [[Accept] + [Release(Acceptor)]]);
    more := GoOn(more, s1, before, Accept, [Release(Acceptor)]);
  }

  lemma AcceptArmed(labels: seq<Label>, s: Server, before: seq<Program>) returns (more: seq<Label>)
    requires Execution(labels) == Some(s) && s.threads == before + [StartProgram()] && s.owner == map[]
    requires s.shared.acceptorOpen
    ensures Execution(more) == Some(Server(Listening(s.shared), map[Acceptor := |before|],
                                           before + [[Release(Acceptor)] + []]))
  {
    var n := |s.shared.conns|;
    more := ConnectionCreated(labels, s, before);
    var s1 := Server(s.shared.(conns := s.shared.conns + [FRESH]), map[Acceptor := |before|],
                     before + [Locked(Socket(n), [ArmAccept(n)]) + [Release(Acceptor)]]);
    assert [Release(Acceptor)] + [] == [Release(Acceptor)];
    more := GoThrough(more, s1, before, Socket(n), ArmAccept(n), [Release(Acceptor)]);
  }

  /** A thread that is to start accepting does so, with no mutex taken before or after. */
  lemma Listen(labels: seq<Label>, s: Server, before: seq<Program>) returns (more: seq<Label>)
    requires Execution(labels) == Some(s) && s.threads == before + [StartProgram()] && s.owner == map[]
    requires s.shared.acceptorOpen
    ensures Execution(more) == Some(Server(Listening(s.shared), map[], before + [[]]))
  {
    more := AcceptArmed(labels, s, before);
    var s1 := Server(Listening(s.shared), map[Acceptor := |before|], before + [[Release(Acceptor)] + []]);
    more := GoOn(more, s1, before, Release(Acceptor), []);
    assert map[Acceptor := |before|] - {Acceptor} == map[];
  }

  // ---------------------------------------------------------------- connecting

  /** Connection `c` was accepted from `peer`. */
  function Accepted(d: Shared, c: nat, peer: nat): Shared {
    d.(pending := d.pending - multiset{c}, conns := WithConn(d.conns, c, Conn(Some(peer), None, true, false, false)))
  }

  /** It has its remote endpoint and is entered under it. */
  function Entered(d: Shared, c: nat, peer: nat): Shared {
    SharedAfter(SharedAfter(Accepted(d, c, peer), SetRemote(c, peer), 0, false), Insert(peer, c), 0, false)
  }

  /** And it reads. */
  function Reading(d: Shared, c: nat, peer: nat): Shared {
    SharedAfter(Entered(d, c, peer), Receive(c), 0, false)
  }

  function EnterTable(c: nat, peer: nat): Program {
    Locked(Connections, [Insert(peer, c)]) + BeginReading(c)
  }

  function BeginReading(c: nat): Program {
    Locked(Socket(c), [Receive(c)]) + StartProgram()
  }

  lemma AcceptHandlerProgram(c: nat, peer: nat)
    ensures AcceptedProgram(c, NoError, peer, true) == Locked(Socket(c), [SetRemote(c, peer)]) + EnterTable(c, peer)
  {
  }

  lemma AcceptHandlerBegins(labels: seq<Label>, s: Server, c: nat, peer: nat) returns (more: seq<Label>)
    requires Execution(labels) == Some(s) && c in s.shared.pending
    requires c < |s.shared.conns| && s.shared.conns[c] == FRESH
    ensures Execution(more) == Some(Server(Accepted(s.shared, c, peer), s.owner,
                                           s.threads + [Locked(Socket(c), [SetRemote(c, peer)]) + EnterTable(c, peer)]))
  {
    more := Go(labels, AcceptDone(c, NoError, peer, true));
    AcceptHandlerProgram(c, peer);
  }

  /** The accept handler of a pending connection runs until it is about to enter the connection. */
  lemma AboutToEnter(labels: seq<Label>, s: Server, c: nat, peer: nat) returns (more: seq<Label>)
    requires Execution(labels) == Some(s) && c in s.shared.pending && s.owner == map[]
    requires c < |s.shared.conns| && s.shared.conns[c] == FRESH
    ensures Execution(more) == Some(Server(SharedAfter(Accepted(s.shared, c, peer), SetRemote(c, peer), 0, false),
                                           map[], s.threads + [EnterTable(c, peer)]))
  {
    more := AcceptHandlerBegins(labels, s, c, peer);
    var s1 := Server(Accepted(s.shared, c, peer), map[],
                     s.threads + [Locked(Socket(c), [SetRemote(c, peer)]) + EnterTable(c, peer)]);
    more := GoThrough(more, s1, s.threads, Socket(c), SetRemote(c, peer), EnterTable(c, peer));
  }

  lemma Enter(labels: seq<Label>, s: Server, c: nat, peer: nat) returns (more: seq<Label>)
    requires Execution(labels) == Some(s) && c in s.shared.pending && s.owner == map[]
    requires c < |s.shared.conns| && s.shared.conns[c] == FRESH
    ensures Execution(more) == Some(Server(Entered(s.shared, c, peer), map[], s.threads + [BeginReading(c)]))
  {
    more := AboutToEnter(labels, s, c, peer);
    var s1 := Server(SharedAfter(Accepted(s.shared, c, peer), SetRemote(c, peer), 0, false), map[],
                     s.threads + [EnterTable(c, peer)]);
    more := GoThrough(more, s1, s.threads, Connections, Insert(peer, c), BeginReading(c));
  }

  /** The whole accept handler up to where it accepts again. */
  lemma Connect(labels: seq<Label>, s: Server, c: nat, peer: nat) returns (more: seq<Label>)
    requires Execution(labels) == Some(s) && c in s.shared.pending && s.owner == map[]
    requires c < |s.shared.conns| && s.shared.conns[c] == FRESH
    ensures Execution(more) == Some(Server(Reading(s.shared, c, peer), map[], s.threads + [StartProgram()]))
  {
    more := Enter(labels, s, c, peer);
    var s1 := Server(Entered(s.shared, c, peer), map[], s.threads + [BeginReading(c)]);
    more := GoThrough(more, s1, s.threads, Socket(c), Receive(c), StartProgram());
  }

  // ---------------------------------------------------------------- the first connection

  const STARTED: Shared := INITIAL.shared.(starts := 1)

  lemma Called() returns (labels: seq<Label>)
    ensures Execution(labels) == Some(Server(STARTED, map[], [] + [StartProgram()]))
  {
    labels := [CallStart];
    assert labels[..0] == [];
    assert Execution([]) == Some(INITIAL);
  }

  /** The server is started and waits for its first connection. */
  lemma Waiting() returns (labels: seq<Label>)
    ensures Execution(labels) == Some(Server(Listening(STARTED), map[], [] + [[]]))
  {
    labels := Called();
    labels := Listen(labels, Server(STARTED, map[], [] + [StartProgram()]), []);
  }

  /** The first connection, from peer 7, is entered and reading. */
  lemma OneConnection() returns (labels: seq<Label>)
    ensures var d := Reading(Listening(STARTED), 0, 7);
            && Execution(labels) == Some(Server(d, map[], [[]] + [StartProgram()]))
            && d.acceptorOpen && d.table == map[7 := 0] && d.entered == {0} && d.displaced == {}
            && d.conns == [Conn(Some(7), Some(7), true, true, false)] && d.pending == multiset{}
  {
    labels := Waiting();
    var s := Server(Listening(STARTED), map[], [] + [[]]);
    var idle: seq<Program> := [[]];
    assert [] + idle == idle;
    labels := Connect(labels, s, 0, 7);
    FirstConnection();
  }

  lemma FirstConnection()
    ensures var d := Reading(Listening(STARTED), 0, 7);
            && d.acceptorOpen && d.table == map[7 := 0] && d.entered == {0} && d.displaced == {}
            && d.conns == [Conn(Some(7), Some(7), true, true, false)] && d.pending == multiset{}
  {
    var d := Listening(STARTED);
    assert d.conns == [FRESH] && d.pending == multiset{0};
    var d1 := Accepted(d, 0, 7);
    assert d1.conns == [Conn(Some(7), None, true, false, false)];
    var d2 := SharedAfter(d1, SetRemote(0, 7), 0, false);
    assert d2.conns == [Conn(Some(7), Some(7), true, false, false)];
    assert Entered(d, 0, 7).conns == d2.conns;
  }

  // ---------------------------------------------------------------- stopping

  /** The state after `stop` has run over a table with one connection. */
  function Stopped(d: Shared, c: nat): Shared {
    SharedAfter(SharedAfter(SharedAfter(d, CloseAcceptor, 0, false), Close(c), 0, false), Clear, 0, false)
  }

  function ClearTable(c: nat): Program {
    Locked(Socket(c), [Close(c)]) + ([Clear] + [Release(Connections)])
  }

  lemma AboutToStopAll(labels: seq<Label>, s: Server) returns (more: seq<Label>)
    requires Execution(labels) == Some(s) && Acceptor !in s.owner && Connections !in s.owner
    ensures Execution(more) == Some(Server(SharedAfter(s.shared, CloseAcceptor, 0, false),
                                           s.owner[Connections := |s.threads|],
                                           s.threads + [[StopAll] + [Release(Connections)]]))
  {
    var loop: Program := [StopAll] + [Release(Connections)];
    more := Go(labels, CallStop);
    more := GoThrough(more, Server(s.shared, s.owner, s.threads + [StopProgram()]), s.threads,
                      Acceptor, CloseAcceptor, Locked(Connections, [StopAll]));
    var s1 := Server(SharedAfter(s.shared, CloseAcceptor, 0, false), s.owner,
                     s.threads + [[Acquire(Connections)] + loop]);
    assert Locked(Connections, [StopAll]) == [Acquire(Connections)] + loop;
    more := GoOn(more, s1, s.threads, Acquire(Connections), loop);
  }

  lemma LoopExpands(s: Server, before: seq<Program>, peer: nat, c: nat)
    requires s.threads == before + [[StopAll] + [Release(Connections)]] && s.shared.table == map[peer := c]
    ensures Step(Some(s), Run(|before|, [c], 0, false)) == Some(Server(s.shared, s.owner, before + [ClearTable(c)]))
  {
    var t := |before|;
    assert s.threads[t][0] == StopAll && s.threads[t][1..] == [Release(Connections)];
    assert s.shared.table[peer] == c && c in s.shared.table.Values;
    assert [c][1..] == [] && StopEach([c]) == Locked(Socket(c), [Close(c)]) + [];
    assert StopEach([c]) + [Clear] + [Release(Connections)] == ClearTable(c);
    assert s.threads[t := ClearTable(c)] == before + [ClearTable(c)];
  }

  lemma AboutToClear(labels: seq<Label>, s: Server, peer: nat, c: nat) returns (more: seq<Label>)
    requires Execution(labels) == Some(s) && Acceptor !in s.owner && Connections !in s.owner
    requires s.shared.table == map[peer := c]
    ensures Execution(more) == Some(Server(SharedAfter(s.shared, CloseAcceptor, 0, false),
                                           s.owner[Connections := |s.threads|], s.threads + [ClearTable(c)]))
  {
    more := AboutToStopAll(labels, s);
    var s1 := Server(SharedAfter(s.shared, CloseAcceptor, 0, false), s.owner[Connections := |s.threads|],
                     s.threads + [[StopAll] + [Release(Connections)]]);
    LoopExpands(s1, s.threads, peer, c);
    more := Go(more, Run(|s.threads|, [c], 0, false));
  }

  /** The thread that holds the table's mutex empties the table and is done. */
  lemma Cleared(labels: seq<Label>, s: Server, before: seq<Program>) returns (more: seq<Label>)
    requires Execution(labels) == Some(s) && s.owner == map[Connections := |before|]
    requires s.threads == before + [[Clear] + [Release(Connections)]]
    ensures Execution(more) == Some(Server(SharedAfter(s.shared, Clear, 0, false), map[], before + [[]]))
  {
    more := GoOn(labels, s, before, Clear, [Release(Connections)]);
    assert [Release(Connections)] + [] == [Release(Connections)];
    var s1 := Server(SharedAfter(s.shared, Clear, 0, false), s.owner, before + [[Release(Connections)] + []]);
    more := GoOn(more, s1, before, Release(Connections), []);
    assert s.owner - {Connections} == map[];
  }

  lemma StopOne(labels: seq<Label>, s: Server, peer: nat, c: nat) returns (more: seq<Label>)
    requires Execution(labels) == Some(s) && s.owner == map[] && s.shared.table == map[peer := c]
    ensures Execution(more) == Some(Server(Stopped(s.shared, c), map[], s.threads + [[]]))
  {
    var owner := map[Connections := |s.threads|];
    var d1 := SharedAfter(s.shared, CloseAcceptor, 0, false);
    more := AboutToClear(labels, s, peer, c);
    more := GoThrough(more, Server(d1, owner, s.threads + [ClearTable(c)]), s.threads,
                      Socket(c), Close(c), [Clear] + [Release(Connections)]);
    var s2 := Server(SharedAfter(d1, Close(c), 0, false), owner, s.threads + [[Clear] + [Release(Connections)]]);
    more := Cleared(more, s2, s.threads);
  }
}
