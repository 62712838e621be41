/**
 * What a client endpoint's socket, state and local port are after any run, told by the events alone: each is what
 * the last event that concerns it left behind.  A lost connection is requested anew.
 */
module ClientHistory {
  import opened Common
  import opened History
  import opened ClientEndpoint

  /** The errors after which the send handler takes the connection for lost. */
  predicate LosesConnection(error: ErrorCode) {
    error in {BrokenPipe, NotConnected, BadDescriptor, NoPermission}
  }

  ghost function StateBefore(events: seq<Event>, i: nat): Status
    requires i <= |events|
  {
    Run(events[..i]).state
  }

  ghost function OpenBefore(events: seq<Event>, i: nat): bool
    requires i <= |events|
  {
    Run(events[..i]).open
  }

  lemma BlockedUpTo(events: seq<Event>, k: nat)
    requires k <= |events|
    ensures Run(events[..k]).sendingBlocked <==> BlockedBefore(events, k)
  {
    BlockedIff(events[..k]);
    if BlockedBefore(events, k) {
      var i :| 0 <= i < k <= |events| && events[i].SendCbk? && events[i].error == OperationAborted;
      assert events[..k][i].SendCbk?;
    }
  }

  // ---------------------------------------------------------------- the socket

  /** Event `i` asks for a connection: an external call, a retry that is not blocked, or the end of a lost one. */
  ghost predicate AsksForConnection(events: seq<Event>, i: nat) {
    && i < |events|
    && match events[i]
       case Connect(_) => true
       case WaitConnectCbk(error, _) => error == NoError && !BlockedBefore(events, i)
       case SendCbk(error, _) => LosesConnection(error)
       case _ => false
  }

  /** Event `i` closes the socket first. */
  ghost predicate ShutsDown(events: seq<Event>, i: nat) {
    && i < |events|
    && match events[i]
       case Stop => true
       case ConnectCbk(error, _) => error == OperationAborted || BlockedBefore(events, i)
       case SendCbk(error, _) => error == OperationAborted || LosesConnection(error)
       case SentMessageCbk(error) =>
         error == OperationAborted || (error != AddressRequired && StateBefore(events, i) != Connecting)
       case _ => false
  }

  ghost function OpenWrite(events: seq<Event>, i: nat): Option<bool> {
    if AsksForConnection(events, i) && events[i].attempt.opens then Some(true)
    else if ShutsDown(events, i) || (i < |events| && events[i].RecvBufferException?) then Some(false)
    else None
  }

  ghost function OpenWrites(events: seq<Event>): nat -> Option<bool> {
    (i: nat) => OpenWrite(events, i)
  }

  lemma OpenStep(events: seq<Event>, k: nat)
    requires k < |events|
    ensures Run(events[..k + 1]).open == if OpenWrite(events, k).Some? then OpenWrite(events, k).value
                                         else Run(events[..k]).open
  {
    RunStep(events, k);
    BlockedUpTo(events, k);
  }

  /** The socket is open exactly if the last event that opened or closed it opened it. */
  lemma {:induction false} SocketIsLastWritten(events: seq<Event>, k: nat, open: bool)
    requires k <= |events|
    ensures Run(events[..k]).open == open <==> LastWritten(OpenWrites(events), k, false, open)
  {
    if k == 0 {
    } else {
      SocketIsLastWritten(events, k - 1, open);
      OpenStep(events, k - 1);
      LastWrittenStep(OpenWrites(events), k - 1, false, open);
    }
  }

  // ---------------------------------------------------------------- the state

  /** Event `i` requests a connection: the socket is open by then and binds. */
  ghost predicate RequestsConnection(events: seq<Event>, i: nat) {
    && AsksForConnection(events, i) && events[i].attempt.binds
    && (events[i].attempt.opens || (OpenBefore(events, i) && !ShutsDown(events, i)))
  }

  /** A sent message is reported with anything but the two errors that its handler names, success included. */
  predicate Restarts(e: Event) {
    e.SentMessageCbk? && e.error != AddressRequired && e.error != OperationAborted
  }

  /** A setter that is to make the client established or connected, and is not refused for want of a socket. */
  ghost predicate Reaches(events: seq<Event>, i: nat, v: Status) {
    && i < |events| && OpenBefore(events, i)
    && ((v == Connected && events[i] == SetConnected(true))
        || (v == Established && events[i] == SetEstablished(true) && StateBefore(events, i) != Connecting))
  }

  /** A setter says no or finds no socket, or a connection is lost. */
  ghost predicate GivesUp(events: seq<Event>, i: nat) {
    && i < |events|
    && (|| events[i] == SetEstablished(false)
        || events[i] == SetConnected(false)
        || (events[i] == SetEstablished(true) && StateBefore(events, i) != Connecting && !OpenBefore(events, i))
        || (events[i] == SetConnected(true) && !OpenBefore(events, i))
        || (events[i].SendCbk? && LosesConnection(events[i].error)))
  }

  ghost function StateWrite(events: seq<Event>, i: nat): Option<Status> {
    if Reaches(events, i, Established) then Some(Established)
    else if Reaches(events, i, Connected) then Some(Connected)
    else if RequestsConnection(events, i) || (i < |events| && Restarts(events[i])) then Some(Connecting)
    else if GivesUp(events, i) then Some(Closed)
    else None
  }

  ghost function StateWrites(events: seq<Event>): nat -> Option<Status> {
    (i: nat) => StateWrite(events, i)
  }

  lemma StateStep(events: seq<Event>, k: nat)
    requires k < |events|
    ensures Run(events[..k + 1]).state == if StateWrite(events, k).Some? then StateWrite(events, k).value
                                          else Run(events[..k]).state
  {
    RunStep(events, k);
    BlockedUpTo(events, k);
  }

  /**
   * Who writes the state: it is what the last of these events gave.  Established is given only by its setter, with
   * an open socket and not while connecting, and then always; connected by its setter with an open socket.
   */
  lemma {:induction false} StateIsLastWritten(events: seq<Event>, k: nat, v: Status)
    requires k <= |events|
    ensures Run(events[..k]).state == v <==> LastWritten(StateWrites(events), k, Closed, v)
  {
    if k == 0 {
    } else {
      StateIsLastWritten(events, k - 1, v);
      StateStep(events, k - 1);
      LastWrittenStep(StateWrites(events), k - 1, Closed, v);
    }
  }

  /** A step enters the connected or the established state exactly if a setter reaches it from another one. */
  lemma EntersIff(events: seq<Event>, k: nat, v: Status)
    requires k < |events| && v in {Connected, Established}
    ensures Run(events[..k]).state != v && Run(events[..k + 1]).state == v <==>
              Reaches(events, k, v) && StateBefore(events, k) != v
  {
    StateStep(events, k);
  }

  // ---------------------------------------------------------------- the local port

  /** A connection attempt was completed, neither aborted nor blocked, on an open socket with a known port. */
  ghost predicate TakesPort(events: seq<Event>, i: nat) {
    CompletesConnect(events, i) && OpenBefore(events, i) && events[i].endpointPort.Some?
  }

  ghost function PortWrite(events: seq<Event>, i: nat): Option<nat> {
    if TakesPort(events, i) then events[i].endpointPort
    else if ShutsDown(events, i) then Some(0)
    else None
  }

  ghost function PortWrites(events: seq<Event>): nat -> Option<nat> {
    (i: nat) => PortWrite(events, i)
  }

  lemma PortStep(events: seq<Event>, k: nat)
    requires k < |events|
    ensures Run(events[..k + 1]).localPort == if PortWrite(events, k).Some? then PortWrite(events, k).value
                                              else Run(events[..k]).localPort
  {
    RunStep(events, k);
    BlockedUpTo(events, k);
  }

  /** The local port is that of the last completed connection, unless a shutdown came after it. */
  lemma {:induction false} PortIsLastWritten(events: seq<Event>, k: nat, port: nat)
    requires k <= |events|
    ensures Run(events[..k]).localPort == port <==> LastWritten(PortWrites(events), k, 0, port)
  {
    if k == 0 {
    } else {
      PortIsLastWritten(events, k - 1, port);
      PortStep(events, k - 1);
      LastWrittenStep(PortWrites(events), k - 1, 0, port);
    }
  }

  // ---------------------------------------------------------------- a lost connection

  /** After a send that found the connection lost, a new one is requested as far as the socket opens and binds. */
  lemma LostConnectionIsRequested(before: seq<Event>, error: ErrorCode, attempt: Attempt)
    requires LosesConnection(error)
    ensures var c := Run(before + [SendCbk(error, attempt)]);
            && c.open == attempt.opens
            && c.state == (if attempt.opens && attempt.binds then Connecting else Closed)
            && c.localPort == 0 && c.wasNotConnected
  {
    var events := before + [SendCbk(error, attempt)];
    assert events[..|before|] == before && events[..|before| + 1] == events;
    RunStep(events, |before|);
  }

  // ---------------------------------------------------------------- the endpoint object

  /** The fields of an endpoint object are what its handlers' last writes left. */
  lemma FieldsAreLastWritten(client: TcpClientEndpoint)
    requires client.Valid()
    ensures var n := |client.events|;
            && LastWritten(OpenWrites(client.events), n, false, client.socketOpen)
            && LastWritten(StateWrites(client.events), n, Closed, client.state)
            && LastWritten(PortWrites(client.events), n, 0, client.localPort)
  {
    var events := client.events;
    assert events[..|events|] == events;
    SocketIsLastWritten(events, |events|, client.socketOpen);
    StateIsLastWritten(events, |events|, client.state);
    PortIsLastWritten(events, |events|, client.localPort);
  }

  lemma LostConnectionOfObject(client: TcpClientEndpoint, before: seq<Event>, error: ErrorCode, attempt: Attempt)
    requires client.Valid() && client.events == before + [SendCbk(error, attempt)] && LosesConnection(error)
    ensures client.socketOpen == attempt.opens
    ensures client.state == if attempt.opens && attempt.binds then Connecting else Closed
    ensures client.localPort == 0 && client.wasNotConnected
  {
    LostConnectionIsRequested(before, error, attempt);
  }

  /** A client does become established, and a reconnected one learns its port. */
  lemma ReconnectedIsEstablished()
    ensures var lost := [Connect(Attempt(true, true)), SendCbk(BrokenPipe, Attempt(true, true))];
            var back := [ConnectCbk(NoError, Some(5)), SetConnected(true), SetEstablished(true)];
            Run(lost + back) == Client(Established, true, 5, false, false)
  {
    var lost := [Connect(Attempt(true, true)), SendCbk(BrokenPipe, Attempt(true, true))];
    var back := [ConnectCbk(NoError, Some(5)), SetConnected(true), SetEstablished(true)];
    var events := lost + back;
    assert events[..0] == [] && events[..5] == events;
    RunStep(events, 0);
    RunStep(events, 1);
    RunStep(events, 2);
    RunStep(events, 3);
    RunStep(events, 4);
  }
}
