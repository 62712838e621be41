/**
 * The mutexes of a TCP client endpoint.  Its handlers nest them in the order: endpoint, socket, and then either
 * the send state or the connect timer; the shutdown after a failing allocation included.
 */
module TcpClientLocks {
  import opened Common
  import opened LockOrder

  datatype Lock = Mutex | Socket | Sent | ConnectTimer

  function Rank(l: Lock): nat {
    match l
    case Mutex => 0
    case Socket => 1
    case Sent => 2
    case ConnectTimer => 2
  }

  /** What the mutexes guard; the endpoint's own mutex guards no more than the order of messages. */
  datatype Resource = TheSocket | SendState | TheConnectTimer

  function Guard(r: Resource): Lock {
    match r
    case TheSocket => Socket
    case SendState => Sent
    case TheConnectTimer => ConnectTimer
  }

  datatype Action = Take(lock: Lock) | Give(lock: Lock) | Touch(resource: Resource)

  type Program = seq<Action>

  /** A block with a lock guard. */
  function Guarded(l: Lock, body: Program): Program {
    [Take(l)] + body + [Give(l)]
  }

  /** A block that looks at or changes what its mutex guards, and may go on with it held. */
  function Using(r: Resource, body: Program): Program {
    Guarded(Guard(r), [Touch(r)] + body)
  }

  // ---------------------------------------------------------------- the handlers

  /** Every place that takes mutexes; flags say which way a handler goes. */
  datatype Handler =
    | SetState(positive: bool)              // set_established, set_connected
    | Stop
    | Send(open: bool)
    | Connect
    | ConnectCbk(proceeds: bool, allocationFails: bool)
    | WaitConnectCbk(proceeds: bool)
    | SendCbk(error: ErrorCode)
    | SentMessageCbk(closes: bool)
    | WaitUntilSent
    | StartConnectTimer

  function ReceiveProgram(allocationFails: bool): Program {
    Using(TheSocket, []) + Using(TheSocket, if allocationFails then Using(TheConnectTimer, []) else [])
  }

  function ReconnectProgram(): Program {
    Using(TheSocket, []) + Using(TheSocket, [])   // close and replace the socket, then connect
  }

  function ProgramOf(h: Handler): Program {
    match h
    case SetState(positive) => if positive then Using(TheSocket, []) else []
    case Stop => Using(TheConnectTimer, []) + Using(TheSocket, [])
    case Send(open) => Guarded(Mutex, Using(TheSocket, if open then Using(SendState, []) else []))
    case Connect => Using(TheSocket, [])
    case ConnectCbk(proceeds, allocationFails) =>
      if !proceeds then Using(TheSocket, [])
      else Using(TheConnectTimer, []) + (Using(TheSocket, []) + ReceiveProgram(allocationFails))
    case WaitConnectCbk(proceeds) => if proceeds then Using(TheSocket, []) else []
    case SendCbk(error) =>
      if error == BrokenPipe || error == NoPermission then Guarded(Mutex, []) + ReconnectProgram()
      else if error == NotConnected || error == BadDescriptor then ReconnectProgram()
      else if error == OperationAborted then Using(TheSocket, [])
      else []
    case SentMessageCbk(closes) => Using(SendState, []) + (if closes then Using(TheSocket, []) else [])
    case WaitUntilSent => Using(SendState, [])
    case StartConnectTimer => Using(TheConnectTimer, [])
  }

  // ---------------------------------------------------------------- the system

  datatype System = System(owner: map<Lock, nat>, threads: seq<Program>)

  datatype Label = Begin(handler: Handler) | Run(t: nat)

  predicate CanRun(s: System, t: nat) {
    && t < |s.threads| && s.threads[t] != []
    && (s.threads[t][0].Take? ==> s.threads[t][0].lock !in s.owner)
  }

  function OwnerAfter(owner: map<Lock, nat>, t: nat, a: Action): map<Lock, nat> {
    match a
    case Take(l) => owner[l := t]
    case Give(l) => owner - {l}
    case Touch(_) => owner
  }

  function Step(s: Option<System>, l: Label): Option<System> {
    if s.None? then None
    else
      var System(owner, threads) := s.value;
      match l
      case Begin(h) => Some(System(owner, threads + [ProgramOf(h)]))
      case Run(t) =>
        if !CanRun(s.value, t) then None
        else
          var a, rest := threads[t][0], threads[t][1..];
          Some(System(OwnerAfter(owner, t, a), threads[t := rest]))
  }

  function Execution(labels: seq<Label>): Option<System> {
    if labels == [] then Some(System(map[], [])) else Step(Execution(labels[..|labels| - 1]), labels[|labels| - 1])
  }

  // ---------------------------------------------------------------- discipline

  predicate Allowed(held: set<Lock>, a: Action) {
    match a
    case Take(l) => forall h <- held :: Rank(h) < Rank(l)
    case Give(l) => l in held
    case Touch(r) => Guard(r) in held
  }

  function HeldAfter(held: set<Lock>, a: Action): set<Lock> {
    match a
    case Take(l) => held + {l}
    case Give(l) => held - {l}
    case Touch(_) => held
  }

  /** The mutexes held at the end of a program that takes them upwards and gives back only what it holds. */
  function Leads(held: set<Lock>, p: Program): Option<set<Lock>>
    decreases |p|
  {
    if p == [] then Some(held)
    else if Allowed(held, p[0]) then Leads(HeldAfter(held, p[0]), p[1..])
    else None
  }

  lemma {:induction false} LeadsAppend(held: set<Lock>, p: Program, q: Program)
    requires Leads(held, p).Some?
    ensures Leads(held, p + q) == Leads(Leads(held, p).value, q)
    decreases |p|
  {
    if p == [] {
      assert p + q == q;
    } else {
      assert (p + q)[1..] == p[1..] + q;
      LeadsAppend(HeldAfter(held, p[0]), p[1..], q);
    }
  }

  lemma LeadsGuarded(held: set<Lock>, l: Lock, body: Program)
    requires Allowed(held, Take(l)) && Leads(held + {l}, body) == Some(held + {l})
    ensures Leads(held, Guarded(l, body)) == Some(held)
  {
    assert [Take(l)][1..] == [] && [Give(l)][1..] == [];
    LeadsAppend(held, [Take(l)], body);
    LeadsAppend(held, [Take(l)] + body, [Give(l)]);
    assert held + {l} - {l} == held;
  }

  lemma LeadsUsing(held: set<Lock>, r: Resource, body: Program)
    requires Allowed(held, Take(Guard(r))) && Leads(held + {Guard(r)}, body) == Some(held + {Guard(r)})
    ensures Leads(held, Using(r, body)) == Some(held)
  {
    assert [Touch(r)][1..] == [];
    LeadsAppend(held + {Guard(r)}, [Touch(r)], body);
    LeadsGuarded(held, Guard(r), [Touch(r)] + body);
  }

  lemma ReceiveLeads(allocationFails: bool)
    ensures Leads({}, ReceiveProgram(allocationFails)) == Some({})
  {
    LeadsUsing({} + {Socket}, TheConnectTimer, []);
    LeadsUsing({}, TheSocket, if allocationFails then Using(TheConnectTimer, []) else []);
    LeadsUsing({}, TheSocket, []);
    LeadsAppend({}, Using(TheSocket, []), Using(TheSocket, if allocationFails then Using(TheConnectTimer, []) else []));
  }

  lemma SendLeads(open: bool)
    ensures Leads({}, ProgramOf(Send(open))) == Some({})
  {
    LeadsUsing({} + {Mutex} + {Socket}, SendState, []);
    LeadsUsing({} + {Mutex}, TheSocket, if open then Using(SendState, []) else []);
    LeadsGuarded({}, Mutex, Using(TheSocket, if open then Using(SendState, []) else []));
  }

  /** One use after another. */
  lemma LeadsThen(r: Resource, p: Program)
    requires Leads({}, p) == Some({})
    ensures Leads({}, Using(r, [])) == Some({})
    ensures Leads({}, Using(r, []) + p) == Some({})
  {
    LeadsUsing({}, r, []);
    LeadsAppend({}, Using(r, []), p);
  }

  lemma SendCbkLeads(error: ErrorCode)
    ensures Leads({}, ProgramOf(SendCbk(error))) == Some({})
  {
    LeadsThen(TheSocket, []);
    LeadsThen(TheSocket, Using(TheSocket, []));
    LeadsGuarded({}, Mutex, []);
    LeadsAppend({}, Guarded(Mutex, []), ReconnectProgram());
  }

  lemma ConnectCbkLeads(proceeds: bool, allocationFails: bool)
    ensures Leads({}, ProgramOf(ConnectCbk(proceeds, allocationFails))) == Some({})
  {
    ReceiveLeads(allocationFails);
    LeadsThen(TheSocket, ReceiveProgram(allocationFails));
    LeadsThen(TheConnectTimer, Using(TheSocket, []) + ReceiveProgram(allocationFails));
  }

  /** Every handler obeys the discipline, whichever way it goes. */
  lemma HandlerLeads(h: Handler)
    ensures Leads({}, ProgramOf(h)) == Some({})
  {
    LeadsThen(TheSocket, []);
    match h
    case SetState(_) =>
    case Stop => LeadsThen(TheConnectTimer, Using(TheSocket, []));
    case Send(open) => SendLeads(open);
    case Connect =>
    case ConnectCbk(proceeds, allocationFails) => ConnectCbkLeads(proceeds, allocationFails);
    case WaitConnectCbk(_) =>
    case SendCbk(error) => SendCbkLeads(error);
    case SentMessageCbk(closes) => LeadsThen(SendState, if closes then Using(TheSocket, []) else []);
    case WaitUntilSent => LeadsThen(SendState, []);
    case StartConnectTimer => LeadsThen(TheConnectTimer, []);
  }

  // ---------------------------------------------------------------- what handlers use

  function Count(p: Program, a: Action): nat
    decreases |p|
  {
    if p == [] then 0 else (if p[0] == a then 1 else 0) + Count(p[1..], a)
  }

  lemma {:induction false} CountAppend(p: Program, q: Program, a: Action)
    ensures Count(p + q, a) == Count(p, a) + Count(q, a)
    decreases |p|
  {
    if p == [] {
      assert p + q == q;
    } else {
      assert (p + q)[0] == p[0] && (p + q)[1..] == p[1..] + q;
      CountAppend(p[1..], q, a);
    }
  }

  /** A use of what a mutex guards, or of the endpoint's own mutex. */
  predicate IsUse(a: Action) {
    a.Touch? || a == Take(Mutex)
  }

  lemma GuardedCount(l: Lock, body: Program, a: Action)
    requires IsUse(a)
    ensures Count(Guarded(l, body), a) == Count(body, a) + if a == Take(l) then 1 else 0
  {
    assert [Take(l)][1..] == [] && [Give(l)][1..] == [];
    CountAppend([Take(l)], body, a);
    CountAppend([Take(l)] + body, [Give(l)], a);
  }

  lemma UsingCount(r: Resource, body: Program, a: Action)
    requires IsUse(a)
    ensures Count(Using(r, body), a) == Count(body, a) + if a == Touch(r) then 1 else 0
  {
    assert [Touch(r)][1..] == [];
    CountAppend([Touch(r)], body, a);
    GuardedCount(Guard(r), [Touch(r)] + body, a);
  }

  function If(b: bool): nat {
    if b then 1 else 0
  }

  /** The errors after which the send handler closes the socket and connects again. */
  predicate Reconnects(error: ErrorCode) {
    error in {BrokenPipe, NotConnected, BadDescriptor, NoPermission}
  }

  /** How often a handler uses the socket: to test, to close, to open, to arm a read, or to send. */
  function SocketUses(h: Handler): nat {
    match h
    case SetState(positive) => If(positive)
    case ConnectCbk(proceeds, _) => if proceeds then 3 else 1
    case WaitConnectCbk(proceeds) => If(proceeds)
    case SendCbk(error) => if Reconnects(error) then 2 else If(error == OperationAborted)
    case SentMessageCbk(closes) => If(closes)
    case _ => If(h.Stop? || h.Send? || h.Connect?)
  }

  /** How often, and for what, a handler uses each part of the client. */
  function Uses(h: Handler, a: Action): nat {
    match a
    case Touch(TheSocket) => SocketUses(h)
    // cancelled by `stop`, by a completed connection and after a failing allocation, armed by its own start
    case Touch(TheConnectTimer) =>
      If(h.Stop? || h.StartConnectTimer?) + (if h.ConnectCbk? && h.proceeds then 1 + If(h.allocationFails) else 0)
    // a send on an open socket begins, the end of a message ends, and waiting looks at it
    case Touch(SendState) => If((h.Send? && h.open) || h.SentMessageCbk? || h.WaitUntilSent?)
    // one send at a time, and two of the reports of a lost connection
    case _ => If(h.Send? || (h.SendCbk? && (h.error == BrokenPipe || h.error == NoPermission)))
  }

  lemma ReceiveCount(allocationFails: bool, a: Action)
    requires IsUse(a)
    ensures Count(ReceiveProgram(allocationFails), a)
         == (if a == Touch(TheSocket) then 2 else 0) + If(a == Touch(TheConnectTimer) && allocationFails)
  {
    var shutdown := if allocationFails then Using(TheConnectTimer, []) else [];
    UsingCount(TheConnectTimer, [], a);
    UsingCount(TheSocket, [], a);
    UsingCount(TheSocket, shutdown, a);
    CountAppend(Using(TheSocket, []), Using(TheSocket, shutdown), a);
  }

  lemma SendCount(open: bool, a: Action)
    requires IsUse(a)
    ensures Count(ProgramOf(Send(open)), a) == Uses(Send(open), a)
  {
    UsingCount(SendState, [], a);
    UsingCount(TheSocket, if open then Using(SendState, []) else [], a);
    GuardedCount(Mutex, Using(TheSocket, if open then Using(SendState, []) else []), a);
  }

  lemma ConnectCbkCount(proceeds: bool, allocationFails: bool, a: Action)
    requires IsUse(a)
    ensures Count(ProgramOf(ConnectCbk(proceeds, allocationFails)), a) == Uses(ConnectCbk(proceeds, allocationFails), a)
  {
    ReceiveCount(allocationFails, a);
    UsingCount(TheSocket, [], a);
    UsingCount(TheConnectTimer, [], a);
    CountAppend(Using(TheSocket, []), ReceiveProgram(allocationFails), a);
    CountAppend(Using(TheConnectTimer, []), Using(TheSocket, []) + ReceiveProgram(allocationFails), a);
  }

  lemma SendCbkCount(error: ErrorCode, a: Action)
    requires IsUse(a)
    ensures Count(ProgramOf(SendCbk(error)), a) == Uses(SendCbk(error), a)
  {
    UsingCount(TheSocket, [], a);
    ReconnectCount(a);
  }

  lemma ReconnectCount(a: Action)
    requires IsUse(a)
    ensures Count(ReconnectProgram(), a) == if a == Touch(TheSocket) then 2 else 0
    ensures Count(Guarded(Mutex, []) + ReconnectProgram(), a) == Count(ReconnectProgram(), a) + If(a == Take(Mutex))
  {
    UsingCount(TheSocket, [], a);
    CountAppend(Using(TheSocket, []), Using(TheSocket, []), a);
    GuardedCount(Mutex, [], a);
    CountAppend(Guarded(Mutex, []), ReconnectProgram(), a);
  }

  lemma StopCount(a: Action)
    requires IsUse(a)
    ensures Count(ProgramOf(Stop), a) == Uses(Stop, a)
  {
    UsingCount(TheSocket, [], a);
    UsingCount(TheConnectTimer, [], a);
    CountAppend(Using(TheConnectTimer, []), Using(TheSocket, []), a);
  }

  lemma SentMessageCount(closes: bool, a: Action)
    requires IsUse(a)
    ensures Count(ProgramOf(SentMessageCbk(closes)), a) == Uses(SentMessageCbk(closes), a)
  {
    UsingCount(TheSocket, [], a);
    UsingCount(SendState, [], a);
    CountAppend(Using(SendState, []), if closes then Using(TheSocket, []) else [], a);
  }

  lemma OneUseCount(h: Handler, r: Resource, a: Action)
    requires IsUse(a) && ProgramOf(h) in {Using(r, []), []}
    ensures Count(ProgramOf(h), a) == if ProgramOf(h) == [] then 0 else If(a == Touch(r))
  {
    UsingCount(r, [], a);
  }

  /** Every handler uses socket, connect timer, send state and the endpoint's mutex exactly as often as told above. */
  lemma HandlerUses(h: Handler, a: Action)
    requires IsUse(a)
    ensures Count(ProgramOf(h), a) == Uses(h, a)
  {
    match h
    case SetState(_) => OneUseCount(h, TheSocket, a);
    case Stop => StopCount(a);
    case Send(open) => SendCount(open, a);
    case Connect => OneUseCount(h, TheSocket, a);
    case ConnectCbk(proceeds, allocationFails) => ConnectCbkCount(proceeds, allocationFails, a);
    case WaitConnectCbk(_) => OneUseCount(h, TheSocket, a);
    case SendCbk(error) => SendCbkCount(error, a);
    case SentMessageCbk(closes) => SentMessageCount(closes, a);
    case WaitUntilSent => OneUseCount(h, SendState, a);
    case StartConnectTimer => OneUseCount(h, TheConnectTimer, a);
  }

  // ---------------------------------------------------------------- every step keeps the discipline

  ghost function Held(s: System, t: nat): set<Lock> {
    set l <- s.owner | s.owner[l] == t
  }

  ghost predicate LocksOk(s: System) {
    && (forall l <- s.owner :: s.owner[l] < |s.threads|)
    && (forall t :: 0 <= t < |s.threads| ==> Leads(Held(s, t), s.threads[t]) == Some({}))
  }

  lemma StepKeepsLocks(s: System, l: Label)
    requires LocksOk(s) && Step(Some(s), l).Some?
    ensures LocksOk(Step(Some(s), l).value)
  {
    var s' := Step(Some(s), l).value;
    if l.Begin? {
      HandlerLeads(l.handler);
    } else {
      assert Allowed(Held(s, l.t), s.threads[l.t][0]);
    }
    forall t | 0 <= t < |s'.threads| ensures Leads(Held(s', t), s'.threads[t]) == Some({}) {
      if t == |s.threads| {
        assert Held(s', t) == {};
      } else if l.Run? && t == l.t {
        assert Held(s', t) == HeldAfter(Held(s, t), s.threads[t][0]);
      } else {
        assert Held(s', t) == Held(s, t);
      }
    }
  }

  lemma {:induction false} ExecutionKeepsLocks(labels: seq<Label>)
    requires Execution(labels).Some?
    ensures LocksOk(Execution(labels).value)
    decreases |labels|
  {
    if labels == [] {
    } else {
      ExecutionKeepsLocks(labels[..|labels| - 1]);
      StepKeepsLocks(Execution(labels[..|labels| - 1]).value, labels[|labels| - 1]);
    }
  }

  function IntentOf(p: Program): Intent<Lock> {
    if p == [] then Finished else if p[0].Take? then Acquires(p[0].lock) else Runs
  }

  /** Deadlock freedom of the client: as long as some handler is unfinished, some handler can go on. */
  lemma {:induction false} NoDeadlock(labels: seq<Label>, t: nat)
    requires Execution(labels).Some?
    requires t < |Execution(labels).value.threads| && Execution(labels).value.threads[t] != []
    ensures exists u: nat :: CanRun(Execution(labels).value, u)
  {
    var s := Execution(labels).value;
    ExecutionKeepsLocks(labels);
    var intents := seq(|s.threads|, u requires 0 <= u < |s.threads| => IntentOf(s.threads[u]));
    forall l <- s.owner
      ensures s.threads[s.owner[l]] != []
      ensures s.threads[s.owner[l]][0].Take? ==> Rank(l) < Rank(s.threads[s.owner[l]][0].lock)
    {
      assert l in Held(s, s.owner[l]);
    }
    var u := SomeThreadGoesOn(s.owner, intents, Rank, 2, t);
    assert CanRun(s, u);
  }

  /** In every interleaving socket, connect timer and send state are used only by the owner of their mutex. */
  lemma {:induction false} AccessIsGuarded(labels: seq<Label>, t: nat)
    requires Execution(labels).Some?
    requires t < |Execution(labels).value.threads| && Execution(labels).value.threads[t] != []
    ensures var s := Execution(labels).value;
            var a := s.threads[t][0];
            && (a.Touch? ==> Guard(a.resource) in s.owner && s.owner[Guard(a.resource)] == t)
            && (a.Give? ==> a.lock in s.owner && s.owner[a.lock] == t)
  {
    var s := Execution(labels).value;
    ExecutionKeepsLocks(labels);
    assert Allowed(Held(s, t), s.threads[t][0]);
  }
}
