/**
 * The connection state of a TCP client endpoint.  Every handler is one atomic step whose error codes are
 * arbitrary; `Next` says what the step does and the class does it field by field.
 */
module ClientEndpoint {
  import opened Common

  datatype Status = Closed | Connecting | Connected | Established

  datatype Client = Client(state: Status, open: bool, localPort: nat, wasNotConnected: bool, sendingBlocked: bool)

  /** How an attempt to connect goes before the connection is requested. */
  datatype Attempt = Attempt(opens: bool, binds: bool)

  datatype Event =
    | SetEstablished(established: bool)
    | SetConnected(connected: bool)
    | Stop
    | Connect(attempt: Attempt)
    | ConnectCbk(error: ErrorCode, endpointPort: Option<nat>)
    | WaitConnectCbk(error: ErrorCode, attempt: Attempt)
    | SendCbk(error: ErrorCode, attempt: Attempt)
    | SentMessageCbk(error: ErrorCode)
    | RecvBufferException

  const INITIAL: Client := Client(Closed, false, 0, false, false)

  /** A socket that is open already stays so; a bind error leaves it open but requests no connection. */
  function AfterConnect(c: Client, attempt: Attempt): Client {
    if !c.open && !attempt.opens then c
    else if !attempt.binds then c.(open := true)
    else c.(open := true, state := Connecting)
  }

  function AfterShutdown(c: Client): Client {
    c.(open := false, localPort := 0)
  }

  /** `connect_cbk` takes every error but an abort for success. */
  predicate Proceeds(c: Client, error: ErrorCode) {
    error != OperationAborted && !c.sendingBlocked
  }

  predicate Reconnects(error: ErrorCode) {
    error == BrokenPipe || error == NotConnected || error == BadDescriptor || error == NoPermission
  }

  function Next(c: Client, e: Event): Client {
    match e
    case SetEstablished(established) =>
      if !established then c.(state := Closed)
      else if c.state == Connecting then c
      else c.(state := if c.open then Established else Closed)
    case SetConnected(connected) =>
      c.(state := if connected && c.open then Connected else Closed)
    case Stop => AfterShutdown(c)
    case Connect(attempt) => AfterConnect(c, attempt)
    case ConnectCbk(error, endpointPort) =>
      if !Proceeds(c, error) then AfterShutdown(c)
      else c.(localPort := if c.open && endpointPort.Some? then endpointPort.value else c.localPort,
              wasNotConnected := false)
    case WaitConnectCbk(error, attempt) =>
      if error == NoError && !c.sendingBlocked then AfterConnect(c, attempt) else c
    case SendCbk(error, attempt) =>
      if Reconnects(error) then
        AfterConnect(AfterShutdown(c.(state := Closed, wasNotConnected := true)), attempt)
      else if error == OperationAborted then AfterShutdown(c.(sendingBlocked := true))
      else if error == AddressRequired then c.(wasNotConnected := true)
      else c
    case SentMessageCbk(error) =>
      if error == AddressRequired then c.(wasNotConnected := true)
      else if error == OperationAborted then AfterShutdown(c)
      else if c.state == Connecting then c
      else AfterShutdown(c.(state := Connecting))
    case RecvBufferException => c.(open := false)
  }

  function Run(events: seq<Event>): Client {
    if events == [] then INITIAL else Next(Run(events[..|events| - 1]), events[|events| - 1])
  }

  lemma RunStep(events: seq<Event>, k: nat)
    requires k < |events|
    ensures Run(events[..k + 1]) == Next(Run(events[..k]), events[k])
  {
    assert events[..k + 1][..k] == events[..k];
  }

  // ---------------------------------------------------------------- state runs

  lemma NotStraightToEstablished(c: Client, e: Event)
    requires c.state == Connecting
    ensures Next(c, e).state in {Connecting, Connected, Closed}
  {
  }

  /** Between a connecting state and a later established one there is a connected or a closed one. */
  lemma {:induction false} EstablishedOnlyAfterConnected(events: seq<Event>, i: nat, j: nat)
    requires i <= j <= |events|
    requires Run(events[..i]).state == Connecting && Run(events[..j]).state == Established
    ensures exists k :: i < k < j && Run(events[..k]).state in {Connected, Closed}
    decreases j - i
  {
    RunStep(events, i);
    NotStraightToEstablished(Run(events[..i]), events[i]);
    if Run(events[..i + 1]).state == Connecting {
      EstablishedOnlyAfterConnected(events, i + 1, j);
    } else {
      assert i < i + 1 < j;
    }
  }

  /** A step that enters the connected or the established state does so with the socket open. */
  lemma EntersWithOpenSocket(events: seq<Event>, k: nat)
    requires k < |events|
    requires Run(events[..k + 1]).state in {Connected, Established}
    requires Run(events[..k + 1]).state != Run(events[..k]).state
    ensures Run(events[..k + 1]).open
    ensures || events[k] == SetConnected(true)
            || (events[k] == SetEstablished(true) && Run(events[..k]).state != Connecting)
  {
    RunStep(events, k);
    EntersBySetter(Run(events[..k]), events[k]);
  }

  lemma EntersBySetter(c: Client, e: Event)
    requires Next(c, e).state in {Connected, Established} && Next(c, e).state != c.state
    ensures Next(c, e).open
    ensures e == SetConnected(true) || (e == SetEstablished(true) && c.state != Connecting)
  {
  }

  /** Being connected or established goes with an open socket. */
  predicate StateLive(c: Client) {
    c.state in {Connected, Established} ==> c.open
  }

  /** The handlers, or their branches, that close the socket and leave the state as it is. */
  predicate ClosesKeepingState(c: Client, e: Event) {
    match e
    case Stop => true
    case ConnectCbk(error, _) => !Proceeds(c, error)
    case SendCbk(error, _) => error == OperationAborted
    case SentMessageCbk(error) => error == OperationAborted
    case RecvBufferException => true
    case _ => false
  }

  /** The step is not a closing handler that keeps the state and hits a connected or established client. */
  predicate SparesState(c: Client, e: Event) {
    ClosesKeepingState(c, e) ==> c.state !in {Connected, Established}
  }

  /** A step breaks this exactly if it closes the socket of a connected or established client and keeps the state. */
  lemma StateStaysLiveIff(c: Client, e: Event)
    requires StateLive(c)
    ensures StateLive(Next(c, e)) <==> !(ClosesKeepingState(c, e) && c.state in {Connected, Established})
  {
    match e
    case SendCbk(error, _) => SendLeavesLive(c, e);
    case _ =>
  }

  lemma SendLeavesLive(c: Client, e: Event)
    requires e.SendCbk? && StateLive(c)
    ensures StateLive(Next(c, e)) <==> !(e.error == OperationAborted && c.state in {Connected, Established})
  {
  }

  /** Whenever the client is connected or established, its socket is open. */
  ghost predicate StateLiveThroughout(events: seq<Event>) {
    forall k :: 0 <= k <= |events| ==> StateLive(Run(events[..k]))
  }

  /** No handler that closes and keeps the state hits a connected or established client. */
  ghost predicate NeverClosesKeepingState(events: seq<Event>) {
    forall k :: 0 <= k < |events| ==> SparesState(Run(events[..k]), events[k])
  }

  lemma {:induction false} LiveUpTo(events: seq<Event>, k: nat)
    requires NeverClosesKeepingState(events) && k <= |events|
    ensures StateLive(Run(events[..k]))
  {
    if k == 0 {
    } else {
      LiveUpTo(events, k - 1);
      RunStep(events, k - 1);
      StateStaysLiveIff(Run(events[..k - 1]), events[k - 1]);
    }
  }

  /** Over runs: exactly then the connected and established states always have an open socket. */
  lemma StateIsLiveThroughoutIff(events: seq<Event>)
    ensures StateLiveThroughout(events) <==> NeverClosesKeepingState(events)
  {
    if StateLiveThroughout(events) {
      forall k | 0 <= k < |events| ensures SparesState(Run(events[..k]), events[k]) {
        RunStep(events, k);
        StateStaysLiveIff(Run(events[..k]), events[k]);
      }
    }
    if NeverClosesKeepingState(events) {
      forall k | 0 <= k <= |events| ensures StateLive(Run(events[..k])) {
        LiveUpTo(events, k);
      }
    }
  }

  /** For example, `stop` on a connected client. */
  lemma StopLeavesState()
    ensures Run([Connect(Attempt(true, true)), SetConnected(true), Stop]) == Client(Connected, false, 0, false, false)
  {
    var events := [Connect(Attempt(true, true)), SetConnected(true), Stop];
    assert events[..0] == [] && events[..3] == events;
    RunStep(events, 0);
    RunStep(events, 1);
    RunStep(events, 2);
  }

  // ---------------------------------------------------------------- the local port

  /** A known local port belongs to an open socket. */
  predicate PortIsLive(c: Client) {
    c.localPort != 0 ==> c.open
  }

  /** A step breaks this exactly if it is a buffer exception that closes a socket whose port is known. */
  lemma PortStaysLiveIff(c: Client, e: Event)
    requires PortIsLive(c)
    ensures PortIsLive(Next(c, e)) <==> !(e.RecvBufferException? && c.localPort != 0)
  {
  }

  ghost predicate PortLiveThroughout(events: seq<Event>) {
    forall k :: 0 <= k <= |events| ==> PortIsLive(Run(events[..k]))
  }

  /** No buffer exception hits while a port is known. */
  ghost predicate NoExceptionWithPort(events: seq<Event>) {
    forall k :: 0 <= k < |events| && events[k].RecvBufferException? ==> Run(events[..k]).localPort == 0
  }

  lemma {:induction false} PortLiveUpTo(events: seq<Event>, k: nat)
    requires NoExceptionWithPort(events) && k <= |events|
    ensures PortIsLive(Run(events[..k]))
  {
    if k == 0 {
    } else {
      PortLiveUpTo(events, k - 1);
      RunStep(events, k - 1);
      PortStaysLiveIff(Run(events[..k - 1]), events[k - 1]);
    }
  }

  /** Over runs: exactly then a known port always belongs to an open socket. */
  lemma PortIsLiveThroughoutIff(events: seq<Event>)
    ensures PortLiveThroughout(events) <==> NoExceptionWithPort(events)
  {
    if PortLiveThroughout(events) {
      forall k | 0 <= k < |events| && events[k].RecvBufferException? ensures Run(events[..k]).localPort == 0 {
        RunStep(events, k);
        PortStaysLiveIff(Run(events[..k]), events[k]);
      }
    }
    if NoExceptionWithPort(events) {
      forall k | 0 <= k <= |events| ensures PortIsLive(Run(events[..k])) {
        PortLiveUpTo(events, k);
      }
    }
  }

  /** For example, a buffer exception on a client whose connection was completed. */
  lemma ExceptionLeavesPort()
    ensures var events := [Connect(Attempt(true, true)), ConnectCbk(NoError, Some(5)), RecvBufferException];
            Run(events) == Client(Connecting, false, 5, false, false)
  {
    var events := [Connect(Attempt(true, true)), ConnectCbk(NoError, Some(5)), RecvBufferException];
    assert events[..0] == [] && events[..3] == events;
    RunStep(events, 0);
    RunStep(events, 1);
    RunStep(events, 2);
  }

  // ---------------------------------------------------------------- the "was not connected" flag

  /** A send failed for want of a connection. */
  predicate FailsUnconnected(e: Event) {
    || (e.SendCbk? && (Reconnects(e.error) || e.error == AddressRequired))
    || (e.SentMessageCbk? && e.error == AddressRequired)
  }

  /** Sending was blocked by an aborted send before event `k`. */
  ghost predicate BlockedBefore(events: seq<Event>, k: nat) {
    exists i :: 0 <= i < k <= |events| && events[i].SendCbk? && events[i].error == OperationAborted
  }

  /** Event `k` completes a connection attempt that was neither aborted nor blocked. */
  ghost predicate CompletesConnect(events: seq<Event>, k: nat) {
    k < |events| && events[k].ConnectCbk? && events[k].error != OperationAborted && !BlockedBefore(events, k)
  }

  /** Event `i` is such a failure, and none of the later ones completes an attempt. */
  ghost predicate LastFailure(events: seq<Event>, i: nat) {
    i < |events| && FailsUnconnected(events[i]) && forall j :: i < j < |events| ==> !CompletesConnect(events, j)
  }

  ghost predicate FailedSince(events: seq<Event>) {
    exists i: nat :: LastFailure(events, i)
  }

  lemma {:induction false} BlockedIff(events: seq<Event>)
    ensures Run(events).sendingBlocked <==> BlockedBefore(events, |events|)
  {
    if events == [] {
    } else {
      var front := events[..|events| - 1];
      BlockedIff(front);
      BlockedPrefix(events, |front|);
      FlagsStep(Run(front), events[|front|]);
    }
  }

  lemma FlagsStep(c: Client, e: Event)
    ensures Next(c, e).sendingBlocked <==> c.sendingBlocked || (e.SendCbk? && e.error == OperationAborted)
    ensures Next(c, e).wasNotConnected <==>
              FailsUnconnected(e) || (c.wasNotConnected && !(e.ConnectCbk? && Proceeds(c, e.error)))
  {
  }

  lemma BlockedPrefix(events: seq<Event>, k: nat)
    requires k < |events|
    ensures BlockedBefore(events[..|events| - 1], k) <==> BlockedBefore(events, k)
    ensures BlockedBefore(events, k + 1) <==>
              BlockedBefore(events, k) || (events[k].SendCbk? && events[k].error == OperationAborted)
  {
    var front := events[..|events| - 1];
    if BlockedBefore(events, k) {
      var i :| 0 <= i < k <= |events| && events[i].SendCbk? && events[i].error == OperationAborted;
      assert front[i].SendCbk?;
    }
  }

  /**
   * The flag is set exactly when some send failed for want of a connection and no connection attempt was
   * completed, neither aborted nor blocked, after it.
   */
  lemma {:induction false} WasNotConnectedIff(events: seq<Event>)
    ensures Run(events).wasNotConnected <==> FailedSince(events)
  {
    if events == [] {
    } else {
      var front, n := events[..|events| - 1], |events| - 1;
      WasNotConnectedIff(front);
      BlockedIff(front);
      BlockedPrefix(events, n);
      forall j | 0 <= j < n ensures CompletesConnect(front, j) <==> CompletesConnect(events, j) {
        BlockedPrefix(events, j);
      }
      FlagsStep(Run(front), events[n]);
      FailedSinceStep(events);
    }
  }

  lemma FailedSinceStep(events: seq<Event>)
    requires events != []
    requires var front := events[..|events| - 1];
             forall j :: 0 <= j < |front| ==> (CompletesConnect(front, j) <==> CompletesConnect(events, j))
    ensures var n := |events| - 1;
            FailedSince(events) <==>
              FailsUnconnected(events[n]) || (FailedSince(events[..n]) && !CompletesConnect(events, n))
  {
    var n := |events| - 1;
    var front := events[..n];
    if FailsUnconnected(events[n]) {
      assert LastFailure(events, n);
    }
    if FailedSince(events) && !FailsUnconnected(events[n]) {
      var i: nat :| LastFailure(events, i);
      assert LastFailure(front, i);
    }
    if FailedSince(front) && !CompletesConnect(events, n) {
      var i: nat :| LastFailure(front, i);
      assert LastFailure(events, i);
    }
  }

  // ---------------------------------------------------------------- the endpoint

  class TcpClientEndpoint {
    var state: Status
    var socketOpen: bool
    var localPort: nat
    var wasNotConnected: bool
    var sendingBlocked: bool
    /** The handlers run so far. */
    ghost var events: seq<Event>

    ghost function Abs(): Client
      reads this
    {
      Client(state, socketOpen, localPort, wasNotConnected, sendingBlocked)
    }

    ghost predicate Valid()
      reads this
    {
      Abs() == Run(events)
    }

    constructor ()
      ensures Valid() && events == []
    {
      state, socketOpen, localPort, wasNotConnected, sendingBlocked := Closed, false, 0, false, false;
      events := [];
    }

    ghost method Record(e: Event)
      requires Abs() == Next(Run(events), e)
      modifies this`events
      ensures Valid() && events == old(events) + [e]
    {
      events := events + [e];
    }

    method SetEstablished(established: bool)
      requires Valid()
      modifies this
      ensures Valid() && events == old(events) + [Event.SetEstablished(established)]
    {
      if established {
        if state != Connecting {
          if socketOpen {
            state := Established;
          } else {
            state := Closed;
          }
        }
      } else {
        state := Closed;
      }
      Record(Event.SetEstablished(established));
    }

    method SetConnected(connected: bool)
      requires Valid()
      modifies this
      ensures Valid() && events == old(events) + [Event.SetConnected(connected)]
    {
      if connected {
        if socketOpen {
          state := Connected;
        } else {
          state := Closed;
        }
      } else {
        state := Closed;
      }
      Record(Event.SetConnected(connected));
    }

    method Stop()
      requires Valid()
      modifies this
      ensures Valid() && events == old(events) + [Event.Stop]
    {
      ShutdownAndCloseSocket();
      Record(Event.Stop);
    }

    method ShutdownAndCloseSocket()
      modifies this`localPort, this`socketOpen
      ensures Abs() == AfterShutdown(old(Abs()))
    {
      localPort := 0;
      if socketOpen {
        socketOpen := false;
      }
    }

    method Connect(attempt: Attempt)
      requires Valid()
      modifies this
      ensures Valid() && events == old(events) + [Event.Connect(attempt)]
    {
      RequestConnect(attempt);
      Record(Event.Connect(attempt));
    }

    method RequestConnect(attempt: Attempt)
      modifies this`state, this`socketOpen
      ensures Abs() == AfterConnect(old(Abs()), attempt)
    {
      var error := NoError;
      if socketOpen {
        error := AlreadyOpen;
      } else if attempt.opens {
        socketOpen := true;
      } else {
        error := OtherError;
      }
      if error == NoError || error == AlreadyOpen {
        if !attempt.binds {
          return;
        }
        state := Connecting;
      }
    }

    method ConnectCbk(error: ErrorCode, endpointPort: Option<nat>)
      requires Valid()
      modifies this
      ensures Valid() && events == old(events) + [Event.ConnectCbk(error, endpointPort)]
    {
      if error == OperationAborted || sendingBlocked {
        ShutdownAndCloseSocket();
      } else {
        SetLocalPort(endpointPort);
        if wasNotConnected {
          wasNotConnected := false;
        }
      }
      Record(Event.ConnectCbk(error, endpointPort));
    }

    method SetLocalPort(endpointPort: Option<nat>)
      modifies this`localPort
      ensures localPort == if socketOpen && endpointPort.Some? then endpointPort.value else old(localPort)
    {
      if socketOpen {
        if endpointPort.Some? {
          localPort := endpointPort.value;
        }
      }
    }

    method WaitConnectCbk(error: ErrorCode, attempt: Attempt)
      requires Valid()
      modifies this
      ensures Valid() && events == old(events) + [Event.WaitConnectCbk(error, attempt)]
    {
      if error == NoError && !sendingBlocked {
        RequestConnect(attempt);
      }
      Record(Event.WaitConnectCbk(error, attempt));
    }

    /** A lost connection: what the branches of the send handler do alike. */
    method Reconnect(attempt: Attempt)
      modifies this`state, this`wasNotConnected, this`localPort, this`socketOpen
      ensures Abs() == AfterConnect(AfterShutdown(old(Abs()).(state := Closed, wasNotConnected := true)), attempt)
    {
      state := Closed;
      wasNotConnected := true;
      ShutdownAndCloseSocket();
      RequestConnect(attempt);
    }

    method SendCbk(error: ErrorCode, attempt: Attempt)
      requires Valid()
      modifies this
      ensures Valid() && events == old(events) + [Event.SendCbk(error, attempt)]
    {
      if error == BrokenPipe {
        Reconnect(attempt);
      } else if error == NotConnected || error == BadDescriptor || error == NoPermission {
        Reconnect(attempt);
      } else if error == OperationAborted {
        sendingBlocked := true;
        ShutdownAndCloseSocket();
      } else if error == AddressRequired {
        wasNotConnected := true;
      }
      Record(Event.SendCbk(error, attempt));
    }

    /** The variant with the message: anything but the two errors it names, success included, restarts. */
    method SentMessageCbk(error: ErrorCode)
      requires Valid()
      modifies this
      ensures Valid() && events == old(events) + [Event.SentMessageCbk(error)]
    {
      if error == AddressRequired {
        wasNotConnected := true;
      } else if error == OperationAborted {
        ShutdownAndCloseSocket();
      } else if state != Connecting {
        state := Connecting;
        ShutdownAndCloseSocket();
      }
      Record(Event.SentMessageCbk(error));
    }

    method HandleRecvBufferException()
      requires Valid()
      modifies this
      ensures Valid() && events == old(events) + [Event.RecvBufferException]
    {
      if socketOpen {
        socketOpen := false;
      }
      Record(Event.RecvBufferException);
    }

    // The run theorems hold of the fields.

    /** The flag says that a send failed for want of a connection and none was completed since. */
    lemma FlagFollowsEvents()
      requires Valid()
      ensures wasNotConnected <==> FailedSince(events)
    {
      WasNotConnectedIff(events);
    }

    lemma BlockingFollowsEvents()
      requires Valid()
      ensures sendingBlocked <==> BlockedBefore(events, |events|)
    {
      BlockedIff(events);
    }

    /** A known port belongs to an open socket, in all objects that no buffer exception has hit with a port known. */
    lemma PortIsOfOpenSocket()
      requires Valid() && NoExceptionWithPort(events)
      ensures localPort != 0 ==> socketOpen
    {
      PortIsLiveThroughoutIff(events);
      assert events[..|events|] == events;
      assert PortIsLive(Run(events[..|events|]));
    }

    /** A connected or established object has its socket open, if none was closed in that state without leaving it. */
    lemma StateIsOfOpenSocket()
      requires Valid() && NeverClosesKeepingState(events)
      ensures state == Connected || state == Established ==> socketOpen
    {
      StateIsLiveThroughoutIff(events);
      assert events[..|events|] == events;
      assert StateLive(Run(events[..|events|]));
    }

    /** An established object has been connected or closed since it was last seen connecting, after event `i`. */
    lemma EstablishedWasConnected(i: nat)
      requires Valid() && i <= |events| && Run(events[..i]).state == Connecting && state == Established
      ensures exists k :: i < k < |events| && Run(events[..k]).state in {Connected, Closed}
    {
      assert events[..|events|] == events;
      EstablishedOnlyAfterConnected(events, i, |events|);
    }
  }
}
