/**
 * The connection table of the TCP server under concurrency.  In every interleaving each key is its
 * connection's `remote_`, so no connection has two keys and the scan that stops at the first match removes a
 * connection completely; `stop` has closed every tabled connection when it empties the table; and a
 * connection that was closed stays closed.
 */
module TcpServerTable {
  import opened Common
  import opened TcpServerThreads
  import opened TcpServerCounting

  // ---------------------------------------------------------------- what programs rely on

  function Named(conns: seq<Conn>): set<nat> {
    set c: nat | c < |conns| && conns[c].remote.Some?
  }

  /** Accepted once and closed since. */
  function Shut(conns: seq<Conn>): set<nat> {
    set c: nat | c < |conns| && conns[c].accepted.Some? && !conns[c].open
  }

  predicate AcceptedAs(conns: seq<Conn>, c: nat, peer: nat) {
    c < |conns| && conns[c].accepted == Some(peer)
  }

  /**
   * A program is sound when the connections in `named` have their `remote_` and those in `shut` are closed:
   * it enters a connection under the peer it was accepted from and only after setting `remote_` to that peer,
   * and removes a connection only after closing it.
   */
  predicate Sound(conns: seq<Conn>, p: Program, named: set<nat>, shut: set<nat>)
    decreases |p|
  {
    if p == [] then true
    else
      match p[0]
      case ArmAccept(c) => c < |conns| && Sound(conns, p[1..], named, shut)
      case SetRemote(c, peer) => AcceptedAs(conns, c, peer) && Sound(conns, p[1..], named + {c}, shut)
      case Insert(peer, c) => AcceptedAs(conns, c, peer) && c in named && Sound(conns, p[1..], named, shut)
      case Close(c) => c < |conns| && conns[c].accepted.Some? && Sound(conns, p[1..], named, shut + {c})
      case Remove(c) => c in shut && Sound(conns, p[1..], named, shut)
      case Receive(c) => c < |conns| && conns[c].accepted.Some? && Sound(conns, p[1..], named, shut)
      case _ => Sound(conns, p[1..], named, shut)
  }

  /** Connections are only added, and keep the peer they were accepted from. */
  predicate Extends(conns: seq<Conn>, conns': seq<Conn>) {
    && |conns| <= |conns'|
    && forall c :: 0 <= c < |conns| && conns[c].accepted.Some? ==> conns'[c].accepted == conns[c].accepted
  }

  lemma {:induction false} SoundMonotone(conns: seq<Conn>, conns': seq<Conn>, p: Program,
                                         named: set<nat>, named': set<nat>, shut: set<nat>, shut': set<nat>)
    requires Sound(conns, p, named, shut)
    requires Extends(conns, conns') && named <= named' && shut <= shut'
    ensures Sound(conns', p, named', shut')
    decreases |p|
  {
    if p == [] {
    } else {
      match p[0]
      case SetRemote(c, _) => SoundMonotone(conns, conns', p[1..], named + {c}, named' + {c}, shut, shut');
      case Close(c) => SoundMonotone(conns, conns', p[1..], named, named', shut + {c}, shut' + {c});
      case _ => SoundMonotone(conns, conns', p[1..], named, named', shut, shut');
    }
  }

  lemma {:induction false} SoundAppend(conns: seq<Conn>, p: Program, q: Program, named: set<nat>, shut: set<nat>)
    requires Sound(conns, p, named, shut) && Sound(conns, q, named, shut)
    ensures Sound(conns, p + q, named, shut)
    decreases |p|
  {
    if p == [] {
      assert p + q == q;
    } else {
      assert (p + q)[1..] == p[1..] + q && (p + q)[0] == p[0];
      match p[0]
      case SetRemote(c, _) =>
        SoundMonotone(conns, conns, q, named, named + {c}, shut, shut);
        SoundAppend(conns, p[1..], q, named + {c}, shut);
      case Close(c) =>
        SoundMonotone(conns, conns, q, named, named, shut, shut + {c});
        SoundAppend(conns, p[1..], q, named, shut + {c});
      case _ => SoundAppend(conns, p[1..], q, named, shut);
    }
  }

  // ---------------------------------------------------------------- accepting at most once

  /** Counts the instructions that arm an accept into connection `c`. */
  function Arms(c: nat): Instr -> nat {
    (i: Instr) => if i == ArmAccept(c) then 1 else 0
  }

  function SharedUses(d: Shared, c: nat): nat {
    d.pending[c] + if IsAccepted(d, c) then 1 else 0
  }

  /** How often connection `c` is about to be, or has been, accepted into. */
  function Uses(s: Server, c: nat): nat {
    Total(s.threads, Arms(c)) + SharedUses(s.shared, c)
  }

  /** Every connection that exists is accepted into at most once. */
  ghost predicate AcceptedOnce(s: Server) {
    forall c: nat :: Uses(s, c) <= if c < |s.shared.conns| then 1 else 0
  }

  lemma RunUses(d: Shared, i: Instr, key: nat, allocationFails: bool, c: nat)
    ensures SharedUses(SharedAfter(d, i, key, allocationFails), c) == SharedUses(d, c) + Arms(c)(i)
  {
  }

  lemma ArriveUses(d: Shared, l: Label, c: nat)
    requires l.AcceptDone? ==> l.c in d.pending
    requires l.TimerFires? ==> 0 < d.timers
    ensures SharedUses(Arrive(d, l), c) <= SharedUses(d, c)
    ensures |Arrive(d, l).conns| == |d.conns|
  {
  }

  lemma RunAcceptsOnce(s: Server, l: Label, c: nat)
    requires Enabled(s, l) && l.Run?
    ensures Uses(After(s, l), c)
         == Uses(s, c) + if s.threads[l.t][0].Accept? && s.shared.acceptorOpen && c == |s.shared.conns| then 1 else 0
  {
    var i, rest := s.threads[l.t][0], s.threads[l.t][1..];
    var p := ProgramAfter(s.shared, i, rest, l.order, l.allocationFails);
    ProgramAfterWeight(Arms(c), s.shared, i, rest, l.order, l.allocationFails);
    TotalUpdate(s.threads, l.t, p, Arms(c));
    RunUses(s.shared, i, l.key, l.allocationFails, c);
    assert Weight(s.threads[l.t], Arms(c)) == Arms(c)(i) + Weight(rest, Arms(c));
  }

  lemma RunConnections(d: Shared, i: Instr, key: nat, allocationFails: bool)
    ensures |SharedAfter(d, i, key, allocationFails).conns|
         == |d.conns| + if i.Accept? && d.acceptorOpen then 1 else 0
  {
  }

  lemma HandlersArmNothing(l: Label, c: nat)
    ensures WeightOf(Arms(c), l) == 0
  {
    assert forall k: Lock :: LockWeight(Arms(c), k) == 0;
    if l.AcceptDone? {
      assert EntryWeight(Arms(c), l.c, l.error, l.peer, l.configured) == 0;
    }
  }

  lemma ArriveAcceptsOnce(s: Server, l: Label, c: nat)
    requires Enabled(s, l) && !l.Run?
    ensures Uses(After(s, l), c) <= Uses(s, c) && |After(s, l).shared.conns| == |s.shared.conns|
  {
    HandlerWeight(Arms(c), l);
    HandlersArmNothing(l, c);
    TotalAppend(s.threads, Handler(l), Arms(c));
    ArriveUses(s.shared, l, c);
  }

  lemma StepAcceptsOnce(s: Server, l: Label)
    requires Enabled(s, l) && AcceptedOnce(s)
    ensures AcceptedOnce(After(s, l))
  {
    forall c: nat ensures Uses(After(s, l), c) <= if c < |After(s, l).shared.conns| then 1 else 0 {
      assert Uses(s, c) <= if c < |s.shared.conns| then 1 else 0;
      if l.Run? {
        RunAcceptsOnce(s, l, c);
        RunConnections(s.shared, s.threads[l.t][0], l.key, l.allocationFails);
      } else {
        ArriveAcceptsOnce(s, l, c);
      }
    }
  }

  // ---------------------------------------------------------------- the invariant

  /** `remote_`, once set, is the peer the connection was accepted from. */
  predicate RemotesOk(d: Shared) {
    forall c :: 0 <= c < |d.conns| && d.conns[c].remote.Some? ==> d.conns[c].remote == d.conns[c].accepted
  }

  /** Each key of the table is its connection's `remote_`. */
  predicate KeysOk(d: Shared) {
    forall peer <- d.table :: d.table[peer] < |d.conns| && d.conns[d.table[peer]].remote == Some(peer)
  }

  ghost predicate ProgramsOk(s: Server) {
    var conns := s.shared.conns;
    forall t :: 0 <= t < |s.threads| ==> Sound(conns, s.threads[t], Named(conns), Shut(conns))
  }

  ghost predicate TableOk(s: Server) {
    AcceptedOnce(s) && RemotesOk(s.shared) && KeysOk(s.shared) && ProgramsOk(s)
  }

  /** Nothing is forgotten: connections, their peers, their names and their closing are for good. */
  predicate Grows(conns: seq<Conn>, conns': seq<Conn>) {
    && |conns| <= |conns'|
    && forall c :: 0 <= c < |conns| ==>
         && (conns[c].accepted.Some? ==> conns'[c].accepted == conns[c].accepted)
         && (conns[c].remote.Some? ==> conns'[c].remote.Some?)
         && (conns[c].accepted.Some? && !conns[c].open ==> !conns'[c].open)
  }

  lemma GrowsMeans(conns: seq<Conn>, conns': seq<Conn>)
    requires Grows(conns, conns')
    ensures Extends(conns, conns') && Named(conns) <= Named(conns') && Shut(conns) <= Shut(conns')
  {
  }

  /** What the next instruction may rely on. */
  predicate HeadOk(conns: seq<Conn>, i: Instr) {
    match i
    case SetRemote(c, peer) => AcceptedAs(conns, c, peer)
    case Insert(peer, c) => AcceptedAs(conns, c, peer) && conns[c].remote.Some?
    case Close(c) => c < |conns| && conns[c].accepted.Some?
    case Remove(c) => c < |conns| && conns[c].accepted.Some? && !conns[c].open
    case Receive(c) => c < |conns| && conns[c].accepted.Some?
    case _ => true
  }

  lemma HeadIsOk(s: Server, t: nat)
    requires ProgramsOk(s) && t < |s.threads| && s.threads[t] != []
    ensures HeadOk(s.shared.conns, s.threads[t][0])
  {
    assert Sound(s.shared.conns, s.threads[t], Named(s.shared.conns), Shut(s.shared.conns));
  }

  lemma RunGrows(d: Shared, i: Instr, key: nat, allocationFails: bool)
    requires HeadOk(d.conns, i)
    ensures Grows(d.conns, SharedAfter(d, i, key, allocationFails).conns)
  {
  }

  lemma RunKeepsKeys(d: Shared, i: Instr, key: nat, allocationFails: bool)
    requires HeadOk(d.conns, i) && RemotesOk(d) && KeysOk(d)
    ensures RemotesOk(SharedAfter(d, i, key, allocationFails))
    ensures KeysOk(SharedAfter(d, i, key, allocationFails))
  {
  }

  lemma ArriveGrows(d: Shared, l: Label)
    requires l.TimerFires? ==> 0 < d.timers
    requires l.AcceptDone? ==> !IsAccepted(d, l.c)
    ensures Grows(d.conns, Arrive(d, l).conns)
  {
  }

  predicate NamesKept(d: Shared, d': Shared) {
    && d'.table == d.table && |d'.conns| == |d.conns|
    && forall c :: 0 <= c < |d.conns| ==>
         && d'.conns[c].remote == d.conns[c].remote
         && (d.conns[c].accepted.Some? ==> d'.conns[c].accepted == d.conns[c].accepted)
  }

  lemma ArriveKeepsNames(d: Shared, l: Label)
    requires l.TimerFires? ==> 0 < d.timers
    requires l.AcceptDone? ==> !IsAccepted(d, l.c)
    ensures NamesKept(d, Arrive(d, l))
  {
    if l.AcceptDone? {
      AcceptKeepsNames(d, l);
    }
  }

  lemma AcceptKeepsNames(d: Shared, l: Label)
    requires l.AcceptDone? && !IsAccepted(d, l.c)
    ensures NamesKept(d, Arrive(d, l))
  {
  }

  lemma NamesKeepKeys(d: Shared, d': Shared)
    requires NamesKept(d, d') && RemotesOk(d) && KeysOk(d)
    ensures RemotesOk(d') && KeysOk(d')
  {
    forall c | 0 <= c < |d.conns| && d'.conns[c].remote.Some? ensures d'.conns[c].remote == d'.conns[c].accepted {
      assert d.conns[c].remote.Some?;
    }
  }

  // ---------------------------------------------------------------- sound programs

  lemma SoundBlock(conns: seq<Conn>, l: Lock, i: Instr, named: set<nat>, shut: set<nat>)
    requires Sound(conns, [i], named, shut)
    ensures Sound(conns, Locked(l, [i]), named, shut)
  {
    assert [Release(l)][1..] == [];
    SoundAppend(conns, [i], [Release(l)], named, shut);
    assert Locked(l, [i]) == [Acquire(l)] + ([i] + [Release(l)]);
    SoundAppend(conns, [Acquire(l)], [i] + [Release(l)], named, shut);
  }

  /** After its peer was set, a connection counts as named. */
  lemma NamedThen(conns: seq<Conn>, c: nat, peer: nat, body: Program)
    requires AcceptedAs(conns, c, peer) && Sound(conns, body, {c}, {})
    ensures Sound(conns, Locked(Socket(c), [SetRemote(c, peer)]) + body, {}, {})
  {
    var p := Locked(Socket(c), [SetRemote(c, peer)]) + body;
    assert p[1..] == [SetRemote(c, peer), Release(Socket(c))] + body;
    assert p[1..][1..] == [Release(Socket(c))] + body && p[1..][1..][1..] == body;
    assert {} + {c} == {c};
    assert Sound(conns, p[1..][1..], {c}, {});
  }

  lemma EnterSound(conns: seq<Conn>, c: nat, error: ErrorCode, peer: nat, configured: bool)
    requires error == NoError ==> AcceptedAs(conns, c, peer)
    ensures Sound(conns, EnterProgram(c, error, peer, configured), {}, {})
  {
    if error == NoError {
      var named := Locked(Socket(c), [SetRemote(c, peer)]);
      var entered := Locked(Connections, [Insert(peer, c)]);
      if configured {
        SoundBlock(conns, Connections, Insert(peer, c), {c}, {});
        SoundBlock(conns, Socket(c), Receive(c), {c}, {});
        SoundAppend(conns, entered, ReceiveProgram(c), {c}, {});
        NamedThen(conns, c, peer, entered + ReceiveProgram(c));
        assert named + (entered + ReceiveProgram(c)) == named + entered + ReceiveProgram(c);
      } else {
        NamedThen(conns, c, peer, []);
        assert named + [] == named;
      }
    }
  }

  lemma AgainSound(conns: seq<Conn>, error: ErrorCode)
    ensures Sound(conns, AcceptAgainProgram(error), {}, {})
  {
    SoundBlock(conns, Acceptor, Accept, {}, {});
  }

  lemma SoundCons(conns: seq<Conn>, i: Instr, p: Program, named: set<nat>, shut: set<nat>)
    requires i.Acquire? || i.Release?
    requires Sound(conns, p, named, shut)
    ensures Sound(conns, [i] + p, named, shut)
  {
    assert ([i] + p)[1..] == p;
  }

  lemma ShutThen(conns: seq<Conn>, c: nat, p: Program)
    requires c < |conns| && conns[c].accepted.Some? && Sound(conns, p, {}, {c})
    ensures Sound(conns, [Close(c)] + p, {}, {})
  {
    assert ([Close(c)] + p)[1..] == p;
    assert {} + {c} == {c};
  }

  lemma StopAndRemoveSound(conns: seq<Conn>, c: nat)
    requires c < |conns| && conns[c].accepted.Some?
    ensures Sound(conns, StopAndRemoveProgram(c), {}, {})
  {
    var remove := Locked(Connections, [Remove(c)]);
    var released := [Release(Socket(c))] + ([Release(Connections)] + remove);
    SoundBlock(conns, Connections, Remove(c), {}, {c});
    SoundCons(conns, Release(Connections), remove, {}, {c});
    SoundCons(conns, Release(Socket(c)), [Release(Connections)] + remove, {}, {c});
    ShutThen(conns, c, released);
    SoundCons(conns, Acquire(Socket(c)), [Close(c)] + released, {}, {});
    SoundCons(conns, Acquire(Connections), [Acquire(Socket(c))] + ([Close(c)] + released), {}, {});
    assert StopAndRemoveProgram(c) == [Acquire(Connections)] + ([Acquire(Socket(c))] + ([Close(c)] + released));
  }

  lemma BufferExceptionSound(conns: seq<Conn>, c: nat, named: set<nat>, shut: set<nat>)
    requires c < |conns| && conns[c].accepted.Some?
    ensures Sound(conns, BufferExceptionProgram(c), named, shut)
  {
    SoundBlock(conns, Connections, Remove(c), named, shut + {c});
    assert BufferExceptionProgram(c)[1..] == Locked(Connections, [Remove(c)]);
  }

  lemma {:induction false} StopEachSound(conns: seq<Conn>, order: seq<nat>, named: set<nat>, shut: set<nat>)
    requires forall k :: 0 <= k < |order| ==> order[k] < |conns| && conns[order[k]].accepted.Some?
    ensures Sound(conns, StopEach(order), named, shut)
    decreases |order|
  {
    if order == [] {
    } else {
      SoundBlock(conns, Socket(order[0]), Close(order[0]), named, shut);
      StopEachSound(conns, order[1..], named, shut);
      SoundAppend(conns, Locked(Socket(order[0]), [Close(order[0])]), StopEach(order[1..]), named, shut);
    }
  }

  lemma StopSound(conns: seq<Conn>)
    ensures Sound(conns, StopProgram(), {}, {})
  {
    SoundBlock(conns, Acceptor, CloseAcceptor, {}, {});
    SoundBlock(conns, Connections, StopAll, {}, {});
    SoundAppend(conns, Locked(Acceptor, [CloseAcceptor]), Locked(Connections, [StopAll]), {}, {});
  }

  lemma SendSound(conns: seq<Conn>, c: nat)
    ensures Sound(conns, SendProgram(c), {}, {}) && Sound(conns, SendCbkProgram(), {}, {})
    ensures Sound(conns, TimedOutProgram(c), {}, {})
  {
    SoundBlock(conns, Sent, SetSending(true), {}, {});
    var send := Locked(Sent, [SetSending(true)]);
    SoundAppend(conns, send, [Release(Socket(c))], {}, {});
    SoundAppend(conns, [Acquire(Socket(c))], send + [Release(Socket(c))], {}, {});
    assert SendProgram(c) == [Acquire(Socket(c))] + (send + [Release(Socket(c))]);
    SoundBlock(conns, Sent, SetSending(false), {}, {});
    SoundAppend(conns, Locked(Sent, [SetSending(false)]), Locked(Base, []), {}, {});
  }

  /** What is known of the connections when a handler starts. */
  predicate StartsWith(conns: seq<Conn>, l: Label) {
    && (l.WriteFails? || l.ReadDone? ==> l.c < |conns| && conns[l.c].accepted.Some?)
    && (l.AcceptDone? && l.error == NoError ==> AcceptedAs(conns, l.c, l.peer))
  }

  lemma HandlerSound(conns: seq<Conn>, l: Label)
    requires StartsWith(conns, l)
    ensures Sound(conns, Handler(l), {}, {})
  {
    match l
    case CallStart => AgainSound(conns, NoError);
    case CallStop => StopSound(conns);
    case CallSend(c) => SendSound(conns, c);
    case SendDone => SendSound(conns, 0);
    case WriteFails(c) => StopAndRemoveSound(conns, c);
    case ReadDone(c) => SoundBlock(conns, Socket(c), Receive(c), {}, {});
    case ReadEnds(c) =>
    case ReadTimesOut(c) => SendSound(conns, c);
    case AcceptDone(c, error, peer, configured) =>
      EnterSound(conns, c, error, peer, configured);
      AgainSound(conns, error);
      SoundAppend(conns, EnterProgram(c, error, peer, configured), AcceptAgainProgram(error), {}, {});
    case TimerFires(error) => AgainSound(conns, NoError);
    case Run(_, _, _, _) =>
  }

  // ---------------------------------------------------------------- every step keeps the invariant

  lemma ProgramsCarryOver(s: Server, conns': seq<Conn>, t: nat)
    requires ProgramsOk(s) && Grows(s.shared.conns, conns') && t < |s.threads|
    ensures Sound(conns', s.threads[t], Named(conns'), Shut(conns'))
  {
    var conns := s.shared.conns;
    GrowsMeans(conns, conns');
    SoundMonotone(conns, conns', s.threads[t], Named(conns), Named(conns'), Shut(conns), Shut(conns'));
  }

  /** What is left of a program after its first instruction is sound in the state that this leads to. */
  lemma RestSound(s: Server, t: nat, key: nat, allocationFails: bool)
    requires ProgramsOk(s) && t < |s.threads| && s.threads[t] != []
    ensures var conns' := SharedAfter(s.shared, s.threads[t][0], key, allocationFails).conns;
            && Grows(s.shared.conns, conns')
            && Sound(conns', s.threads[t][1..], Named(conns'), Shut(conns'))
  {
    var conns, i, rest := s.shared.conns, s.threads[t][0], s.threads[t][1..];
    var conns' := SharedAfter(s.shared, i, key, allocationFails).conns;
    assert Sound(conns, s.threads[t], Named(conns), Shut(conns));
    HeadIsOk(s, t);
    RunGrows(s.shared, i, key, allocationFails);
    GrowsMeans(conns, conns');
    var named := if i.SetRemote? then Named(conns) + {i.c} else Named(conns);
    var shut := if i.Close? then Shut(conns) + {i.c} else Shut(conns);
    SoundMonotone(conns, conns', rest, named, Named(conns'), shut, Shut(conns'));
  }

  lemma RunSound(s: Server, l: Label)
    requires ProgramsOk(s) && KeysOk(s.shared) && RemotesOk(s.shared) && l.Run? && Enabled(s, l)
    ensures var conns' := After(s, l).shared.conns;
            Sound(conns', After(s, l).threads[l.t], Named(conns'), Shut(conns'))
  {
    var d, i, rest := s.shared, s.threads[l.t][0], s.threads[l.t][1..];
    var conns' := SharedAfter(d, i, l.key, l.allocationFails).conns;
    var named, shut := Named(conns'), Shut(conns');
    RestSound(s, l.t, l.key, l.allocationFails);
    HeadIsOk(s, l.t);
    if i.Accept? && d.acceptorOpen {
      SoundBlock(conns', Socket(|d.conns|), ArmAccept(|d.conns|), named, shut);
      SoundAppend(conns', Locked(Socket(|d.conns|), [ArmAccept(|d.conns|)]), rest, named, shut);
    } else if i.StopAll? {
      StopAllSound(d, l.order, rest, named, shut);
    } else if Fails(d, i, l.allocationFails) {
      BufferExceptionSound(conns', i.c, named, shut);
      SoundAppend(conns', BufferExceptionProgram(i.c), rest, named, shut);
    }
  }

  lemma StopAllSound(d: Shared, order: seq<nat>, rest: Program, named: set<nat>, shut: set<nat>)
    requires KeysOk(d) && RemotesOk(d) && (forall c <- order :: c in d.table.Values)
    requires Sound(d.conns, rest, named, shut)
    ensures Sound(d.conns, StopEach(order) + [Clear] + rest, named, shut)
  {
    forall k | 0 <= k < |order| ensures order[k] < |d.conns| && d.conns[order[k]].accepted.Some? {
      assert order[k] in d.table.Values;
    }
    StopEachSound(d.conns, order, named, shut);
    SoundAppend(d.conns, StopEach(order), [Clear], named, shut);
    SoundAppend(d.conns, StopEach(order) + [Clear], rest, named, shut);
  }

  lemma RunKeepsTable(s: Server, l: Label)
    requires TableOk(s) && l.Run? && Enabled(s, l)
    ensures TableOk(After(s, l)) && Grows(s.shared.conns, After(s, l).shared.conns)
  {
    var s' := After(s, l);
    HeadIsOk(s, l.t);
    RunGrows(s.shared, s.threads[l.t][0], l.key, l.allocationFails);
    RunKeepsKeys(s.shared, s.threads[l.t][0], l.key, l.allocationFails);
    StepAcceptsOnce(s, l);
    RunSound(s, l);
    var conns' := s'.shared.conns;
    forall t | 0 <= t < |s'.threads| ensures Sound(conns', s'.threads[t], Named(conns'), Shut(conns')) {
      if t != l.t {
        ProgramsCarryOver(s, s'.shared.conns, t);
      }
    }
  }

  lemma ArriveKeepsTable(s: Server, l: Label)
    requires TableOk(s) && !l.Run? && Enabled(s, l)
    ensures TableOk(After(s, l)) && Grows(s.shared.conns, After(s, l).shared.conns)
  {
    var s' := After(s, l);
    NotAcceptedYet(s, l);
    ArriveGrows(s.shared, l);
    ArriveKeepsNames(s.shared, l);
    NamesKeepKeys(s.shared, s'.shared);
    StepAcceptsOnce(s, l);
    ArriveStartsWith(s, l);
    HandlerSound(s'.shared.conns, l);
    SoundMonotone(s'.shared.conns, s'.shared.conns, Handler(l), {}, Named(s'.shared.conns), {}, Shut(s'.shared.conns));
    var conns' := s'.shared.conns;
    forall t | 0 <= t < |s'.threads| ensures Sound(conns', s'.threads[t], Named(conns'), Shut(conns')) {
      if t < |s.threads| {
        ProgramsCarryOver(s, s'.shared.conns, t);
      }
    }
  }

  /** A pending connection has not been accepted into before. */
  lemma NotAcceptedYet(s: Server, l: Label)
    requires AcceptedOnce(s) && Enabled(s, l)
    ensures l.AcceptDone? ==> !IsAccepted(s.shared, l.c)
  {
    if l.AcceptDone? {
      assert Uses(s, l.c) <= 1;
    }
  }

  lemma ArriveStartsWith(s: Server, l: Label)
    requires Enabled(s, l)
    ensures StartsWith(Arrive(s.shared, l).conns, l)
  {
  }

  lemma StepKeepsTable(s: Server, l: Label)
    requires TableOk(s) && Enabled(s, l)
    ensures TableOk(After(s, l)) && Grows(s.shared.conns, After(s, l).shared.conns)
  {
    if l.Run? {
      RunKeepsTable(s, l);
    } else {
      ArriveKeepsTable(s, l);
    }
  }

  lemma {:induction false} ExecutionKeepsTable(labels: seq<Label>)
    requires Execution(labels).Some?
    ensures TableOk(Execution(labels).value)
    decreases |labels|
  {
    if labels == [] {
    } else {
      var front := labels[..|labels| - 1];
      ExecutionKeepsTable(front);
      StepKeepsTable(Execution(front).value, labels[|labels| - 1]);
    }
  }

  // ---------------------------------------------------------------- what follows for every execution

  /** In every execution each key is its connection's `remote_`, and no connection has two keys. */
  lemma {:induction false} KeysAreRemotes(labels: seq<Label>)
    requires Execution(labels).Some?
    ensures var d := Execution(labels).value.shared;
            && (forall peer <- d.table :: d.table[peer] < |d.conns| && d.conns[d.table[peer]].remote == Some(peer))
            && (forall peer <- d.table, other <- d.table :: d.table[peer] == d.table[other] ==> peer == other)
  {
    ExecutionKeepsTable(labels);
  }

  /**
   * The scan of `remove_connection`, which erases one match only, leaves no trace of the connection and
   * nothing else changed; and by then the connection is closed.
   */
  lemma RemoveIsComplete(s: Server, l: Label)
    requires TableOk(s) && l.Run? && Enabled(s, l) && s.threads[l.t][0].Remove?
    ensures var d, d', c := s.shared, After(s, l).shared, s.threads[l.t][0].c;
            && d'.table == (map peer | peer in d.table && d.table[peer] != c :: d.table[peer])
            && c !in d'.table.Values
            && IsAccepted(d', c) && !d'.conns[c].open
  {
    HeadIsOk(s, l.t);
    var c := s.threads[l.t][0].c;
    forall peer <- s.shared.table, other <- s.shared.table
      ensures s.shared.table[peer] == s.shared.table[other] ==> peer == other
    {
    }
  }

  /** A connection that was closed is never open again. */
  lemma {:induction false} ClosedForGood(s: Server, more: seq<Label>, c: nat)
    requires TableOk(s) && IsAccepted(s.shared, c) && !s.shared.conns[c].open
    requires From(Some(s), more).Some?
    ensures var s' := From(Some(s), more).value;
            IsAccepted(s'.shared, c) && !s'.shared.conns[c].open
    decreases |more|
  {
    if more == [] {
    } else if Enabled(s, more[0]) {
      StepKeepsTable(s, more[0]);
      ClosedForGood(After(s, more[0]), more[1..], c);
    } else {
      NothingFollowsNone(more[1..]);
    }
  }
}
