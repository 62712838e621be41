# Verified model of the DoIP endpoints

This project models the stateful core of `doipendpoint`: how a TCP endpoint receives a byte stream and cuts it
into messages, how the server's threads share connections and mutexes, how the endpoint manager keeps its
tables, and how a client endpoint's connection state moves. Each part is a Dafny model whose operations follow
the C++ code branch by branch, and a set of theorems about all inputs, all runs or all interleavings.

`dafny verify dfyconfig.toml` checks everything.

## How the project is laid out

| files | part of the system |
|---|---|
| `Framing.dfy`, `ReceiveWindow.dfy` | the reference parser; the receive buffer as a value, runs of reads, and the theorems about whole runs |
| `ByteVector.dfy`, `TcpServerConnection.dfy`, `TcpClientReceiver.dfy` | the `std::vector`, the server's connection and the client's receiver as classes that change their buffers in place and are proved to follow the values |
| `WriteCompletion.dfy` | the completion condition of a composed write |
| `LockOrder.dfy`, `TcpServerThreads.dfy` | why ordered locks cannot deadlock; the server as a system of threads interleaved instruction by instruction |
| `TcpServerLocks.dfy`, `TcpServerProgress.dfy` | lock discipline; when threads can go on and finish, and when they cannot |
| `TcpServerRuns.dfy`, `TcpServerDeadlock.dfy` | building executions handler by handler; the deadlock that the one exception to the lock order allows |
| `TcpServerCounting.dfy`, `TcpServerAccept.dfy`, `TcpServerFlags.dfy` | which updates a handler makes; the accept chain and its token; the send flag and open sockets |
| `TcpServerTable.dfy`, `TcpServerStop.dfy`, `TcpServerEndpoint.dfy` | the connection table under concurrency, `stop`, and the loops over the table |
| `TcpServerEntries.dfy`, `TcpServerReads.dfy`, `TcpServerRemoval.dfy` | which connections are in the table, displaced or closed; armed, completed and outstanding reads; how a failed write or read ends a connection |
| `TcpClientLocks.dfy`, `ClientEndpoint.dfy`, `ClientHistory.dfy` | the client's mutexes; its connection state; what socket, state and port are after any run, told by the events |
| `UseCount.dfy`, `EndpointRegistry.dfy` | the use count and the endpoint manager |

## How to read the model

* Values the repository does not define are parameters: the header length, the position a message must reach
  beyond, and the length a complete header announces (`Protocol`), the initial buffer size and the shrink
  threshold (`Settings`), error codes, peers, the outcome of opening, binding, constructing, starting and allocating.
* The framing loop of `receive_cbk` is the disabled branch of a preprocessor switch
  (`doipendpoint/src/tcp_server_endpoint_impl.cpp:375-440`). `Connection.ReceiveCbk` models that branch,
  `Connection.ReceiveCbkDump` the one compiled today, which arms no further read. The loop calls
  `calculate_shrink_count`, which connections do not define; the client's definition is used.
* Allocation is taken to be exact: `reserve` above the capacity and `shrink_to_fit` leave the capacity asked for.
* 32-bit counters wrap (`shrink_count_`, `use_count_`), `std::size_t` subtraction in the completion condition
  wraps, and the overflow check of the read handler is shown never to fire.
* A handler of the server is a list of instructions between which any other thread may run. An instruction that
  depends on the state it finds (is the acceptor open, what is in the table, does the allocation fail) is
  replaced by the instructions it decides on. Every handler has its own thread number; nothing bounds their number.
* In the concurrent model any read after a connection's first may fail to get memory, and the first cannot, as
  `TcpServerConnection.Connection.Start` shows. When the second asks for memory is
  `ReceiveWindow.SecondReadAllocatesIff`. The label `ReadDone` is the read handler that reads on, in the disabled
  branch, and `ReadEnds` the one that does not, which is all that the branch compiled today does; executions
  without `ReadDone` are those of today's build.
* The client is modelled one handler per step, with arbitrary error codes. `connect_cbk` is taken as written:
  any error but an abort follows the success path, and so does the three-argument `send_cbk` take success for a
  reason to restart.

## What was found

* A header whose announced length is too small to be delivered fills the buffer and leaves an empty window
  behind it: the connection is silent from then on (`ReceiveWindow.StuckExample`), and this is the only way the
  window becomes empty (`ReceiveWindow.WindowZeroIff`).
* With a failing allocation, `receive` removes the connection while it holds the socket's mutex, against the
  order used by `stop` and `stop_and_remove_connection`. Every unfinished state in which nothing can step holds two
  threads that block each other (`TcpServerProgress.StepOrStuck`, `StuckIsCollision`, `StuckForever`). Whenever a
  read fails to get memory, whatever mutexes are taken, such a pair can follow
  (`TcpServerDeadlock.FailingAllocationDeadlocks`); so, as long as none has failed, what was begun can always be
  finished exactly if none ever fails (`TcpServerDeadlock.SafeIffNoneFails`). The general proof lets a write fail on
  the connection, and nothing in the repository writes to a server connection; the execution of
  `TcpServerDeadlock.DeadlockHappens` needs only a read and `stop`. All of it needs the read handler to read on,
  which is the disabled branch: as compiled today no read can fail and everything can finish
  (`TcpServerProgress.CompletesWithoutReadDone`).
* Two connections with the same remote endpoint, which two failures of `remote_endpoint` give, displace each
  other in the table (`TcpServerEntries.InsertDisplaces`). The displaced one stays open and reads on, never comes
  back into the table, and is the only kind of entered connection that `stop` leaves open besides those entered
  after it (`StopLeavesOpen`, `StopSparesDisplaced`; an execution is `StopLeavesOneOpen`).
* A connection that is closed by a failed write before the accept handler has entered it comes back into the
  table closed (`TcpServerRemoval.ClosedConnectionComesBack`; an execution is `ClosedConnectionTabled`); it stays out
  exactly if no entry is pending (`StaysOutIff`). Nothing in the repository writes to a server connection at all; it
  takes a caller of `connection::send_data` that does so before the entry.
* The connected and established states of a client do not mean an open socket: `stop`, an aborted or blocked
  connection attempt, an aborted send in either variant, and a buffer exception close it and keep the state, and
  nothing else breaks it (`ClientEndpoint.StateStaysLiveIff`, `StateIsLiveThroughoutIff`).
* A known local port outlives its socket exactly when a buffer exception closes the socket
  (`ClientEndpoint.PortIsLiveThroughoutIff`, `ExceptionLeavesPort`). The one call that reads today cannot raise
  it (`TcpClientReceiver.Receiver.ReceiveAtFront`); a caller that asked for room could.
* The three-argument `send_cbk` leaves a client connecting with its socket closed and no connection requested, on
  success too (`Restarts` in `ClientHistory.StateIsLastWritten`); the send path binds the base handler instead.
* The closed form of the use count holds exactly while it stays below 2^32 (`UseCount.ClosedForm`, `UseCount.IncrementsWrap`).
* In `accept_cbk` the error of `remote_endpoint` is overwritten by the two option calls, so a connection is
  entered whenever the last option could be set; `configured` stands for that last outcome.

## Model

| member | source | states |
|---|---|---|
| Framing.ParseConserves | doipendpoint/src/tcp_server_endpoint_impl.cpp:389-425 | messages cut off, followed by the bytes left, are the bytes that were there |
| Framing.ParseSound | doipendpoint/src/tcp_server_endpoint_impl.cpp:394-424 | everything delivered has a deliverable length and spans what its header announces; parsing stops only at an incomplete, undeliverable or oversize announcement |
| Framing.ParseUndoesFlatten | doipendpoint/src/tcp_server_endpoint_impl.cpp:393-425 | round trip: any messages sent back to back come out one by one and in order, whatever bytes follow |
| Framing.ParseResumes | doipendpoint/src/tcp_server_endpoint_impl.cpp:426-431 | interrupting the stream anywhere and resuming with the leftover gives the same messages and the same leftover |
| Framing.ParseStopsForGood | doipendpoint/src/tcp_server_endpoint_impl.cpp:397-404 | after an oversize or undeliverable announcement no further byte ever yields a message |
| Framing.LargestAnnouncedGrows | doipendpoint/src/tcp_server_endpoint_impl.cpp:418-424 | the largest acceptable length announced so far never decreases as the stream goes on |
| ReceiveWindow.RunInvariant | doipendpoint/src/tcp_server_endpoint_impl.cpp:247-289 | invariant of every feasible run: delivered and held bytes are those of the parser, the missing capacity is settled, the window suffices, capacity is bounded, and the shrink counter counts trailing quiet observations |
| ReceiveWindow.ChunkingIndependence | doipendpoint/src/tcp_server_endpoint_impl.cpp:384-437 | however the stream is cut into reads, the messages delivered are the parser's on the whole stream, reading ends exactly at an oversize announcement, and the held bytes are the rest |
| ReceiveWindow.MessagesArrive | doipendpoint/src/tcp_server_endpoint_impl.cpp:384-437 | a sender's messages arrive complete, once each and in order, for every cutting that fits the windows |
| ReceiveWindow.MessagesKeepArriving | doipendpoint/src/tcp_server_endpoint_impl.cpp:249-287 | at every point before that, what was delivered is a prefix of what was sent, the connection listens and its window is not empty |
| ReceiveWindow.WindowZeroIff | doipendpoint/src/tcp_server_endpoint_impl.cpp:251-278 | the offered window is empty exactly when the vector is full behind a header that can never be delivered |
| ReceiveWindow.WindowIsExact | doipendpoint/src/tcp_server_endpoint_impl.cpp:249-278 | in every run the next window is exactly what the current message or its header still lacks, as long as nothing was delivered or that does not fit, and the whole free tail otherwise; the vector grows to just what held and lacking bytes need |
| ReceiveWindow.StuckExample | doipendpoint/src/tcp_server_endpoint_impl.cpp:402-424 | a connection that has delivered a message and then reaches that state, after which no read can follow |
| ReceiveWindow.SecondReadAllocatesIff | doipendpoint/src/tcp_server_endpoint_impl.cpp:254-278 | the read after the first one asks for memory exactly if what the first left and what that lacks exceed the initial buffer, and then offers the missing bytes |
| ReceiveWindow.LongMessageAllocates | doipendpoint/src/tcp_server_endpoint_impl.cpp:254-264 | it does after a header that announces more than the initial buffer holds, or one that the buffer cannot hold |
| ReceiveWindow.FillProgress | doipendpoint/src/tcp_server_endpoint_impl.cpp:403-436 | a read that fills its window delivers, ends the stream, or brings the current message one phase closer |
| ReceiveWindow.ThreeFullReadsDeliver | doipendpoint/src/tcp_server_endpoint_impl.cpp:249-278 | of three window-filling reads in a row at least one delivers, unless an announced length is out of range |
| ReceiveWindow.AbsorbRecordsNeed | doipendpoint/src/tcp_server_endpoint_impl.cpp:418-436 | the framing loop leaves the bytes still missing, or zero only if the free tail holds them anyway |
| ReceiveWindow.CapacityBound | doipendpoint/src/tcp_server_endpoint_impl.cpp:258-261 | capacity stays between the initial size and the maximum of initial size, header size and the largest length announced so far, and fits 32 bits |
| ReceiveWindow.ShrinkIff | doipendpoint/src/tcp_server_endpoint_impl.cpp:271-278 | a step makes the vector smaller exactly if it leaves no byte unconsumed and more quiet observations than the threshold were made in a row, modulo 2^32 |
| ReceiveWindow.ShrinkHysteresis | doipendpoint/src/tcp_client_endpoint_impl.cpp:147-154 | in every run a vector shrinks only to its initial size, holding nothing, after more than threshold consecutive observations below half capacity |
| ReceiveWindow.IdleBufferShrinks | doipendpoint/src/tcp_client_endpoint_impl.cpp:280-291 | conversely, with fewer than 2^32 observations, that many quiet ones and no byte held make it shrink |
| ReceiveWindow.CountFollowsLog | doipendpoint/src/tcp_client_endpoint_impl.cpp:280-291 | the counter is the number of trailing quiet observations modulo 2^32, and zero at initial capacity |
| ReceiveWindow.LevelsAreFillLevels | doipendpoint/src/tcp_server_endpoint_impl.cpp:412-417 | each message is observed before it is consumed, with all the bytes that the messages before it have left |
| TcpServerConnection.Connection.constructor | doipendpoint/src/tcp_server_endpoint_impl.cpp:135-153 | a new connection holds nothing, has the initial capacity and zero counters |
| TcpServerConnection.Connection.Receive | doipendpoint/src/tcp_server_endpoint_impl.cpp:247-289 | arms exactly the window of the buffer model inside the vector and keeps the held bytes; a failing allocation closes, clears and arms nothing |
| TcpServerConnection.Connection.HandOver | doipendpoint/src/tcp_server_endpoint_impl.cpp:391-425 | the in-place loop hands over exactly the parser's messages, ends at the parser's rest, sets both counters accordingly and terminates |
| TcpServerConnection.Connection.ShiftToFront | doipendpoint/src/tcp_server_endpoint_impl.cpp:426-430 | the ascending overlapping copy moves the leftover to the front unharmed and leaves the bytes behind it alone |
| TcpServerConnection.Connection.Frame | doipendpoint/src/tcp_server_endpoint_impl.cpp:389-436 | taking in new bytes in place gives exactly the absorbed buffer and the parser's messages |
| TcpServerConnection.Connection.CalculateShrinkCount | doipendpoint/src/tcp_client_endpoint_impl.cpp:280-291 | one observation of the fill level, with 32-bit wrap-around |
| TcpServerConnection.Connection.ReceiveCbk | doipendpoint/src/tcp_server_endpoint_impl.cpp:382-439 | a successful read is one step of the run; reading goes on exactly if nothing oversize was announced and the socket is still open; the next read fails exactly if it asks for memory and gets none; anything else delivers nothing and arms nothing |
| TcpServerConnection.Connection.ReceiveCbkDump | doipendpoint/src/tcp_server_endpoint_impl.cpp:365-380 | the handler compiled today reads exactly the held and the new bytes and arms no further read |
| TcpServerConnection.Connection.SizesFit | doipendpoint/src/tcp_server_endpoint_impl.cpp:385-389 | no size sum of the read handler can overflow |
| TcpServerConnection.Connection.DeliveredIsParsed | doipendpoint/src/tcp_server_endpoint_impl.cpp:384-437 | at any time a connection has delivered what parsing all the bytes it has read gives, and its window lies inside the vector |
| TcpServerConnection.Connection.Start | doipendpoint/src/tcp_server_endpoint_impl.cpp:243-289 | the first read of a connection asks for no memory, so it cannot fail, and its window is the whole initial buffer |
| TcpServerConnection.Connection.CompleteRead | doipendpoint/src/tcp_server_endpoint_impl.cpp:384-437 | bytes put into the window by a read are framed with what was held, what is delivered is what parsing all bytes read gives, and the next read fails exactly if it asks for memory and gets none |
| TcpServerConnection.Connection.Stop | doipendpoint/src/tcp_server_endpoint_impl.cpp:291-298 | the socket is closed and nothing delivered changes |
| TcpClientReceiver.Receiver.Receive | doipendpoint/src/tcp_client_endpoint_impl.cpp:122-174 | the client arms the same window by the same rule; a missing capacity above the maximum arms nothing and changes nothing |
| TcpClientReceiver.Receiver.ReceiveAtFront | doipendpoint/src/tcp_client_endpoint_impl.cpp:113-120 | the one call the client makes never fails for want of memory, closes nothing, and offers the whole vector |
| TcpClientReceiver.Receiver.CalculateShrinkCount | doipendpoint/src/tcp_client_endpoint_impl.cpp:280-291 | one observation of the fill level passed in |
| WriteCompletion.WritesInOrder | doipendpoint/src/tcp_server_endpoint_impl.cpp:330-346 | for all partial transfers the difference never wraps, the wire carries the data once and in order, and the write ends exactly when all is sent or a transfer fails |
| WriteCompletion.FailureIsLast | doipendpoint/src/tcp_client_endpoint_impl.cpp:238-253 | the first error is the last event of a composed write |
| LockOrder.SomeThreadGoesOn | doipendpoint/src/tcp_server_endpoint_impl.cpp:29-79 | threads that wait only for locks above those they hold cannot all be stuck |
| TcpServerLocks.HandlerDisciplined | doipendpoint/src/tcp_server_endpoint_impl.cpp:29-360 | every handler takes mutexes upwards only, touches shared state under its guard and ends holding none |
| TcpServerLocks.ExecutionKeepsLocks | doipendpoint/src/tcp_server_endpoint_impl.cpp:29-360 | every interleaving keeps every thread on a disciplined way to its end, taking mutexes upwards only as long as no allocation fails, and otherwise except for the table's under a socket's |
| TcpServerLocks.AccessIsGuarded | doipendpoint/src/tcp_server_endpoint_impl.cpp:29-328 | in every interleaving acceptor, table, sockets and send state are touched only by the owner of their mutex, and mutexes are released by their owner |
| TcpServerCounting.HandlerWeight | doipendpoint/src/tcp_server_endpoint_impl.cpp:29-360 | counted in every way, each handler performs exactly its updates and takes exactly its mutexes, each as often as it should |
| TcpServerLocks.NoneFailsWithoutReadDone | doipendpoint/src/tcp_server_endpoint_impl.cpp:365-380 | as long as completed reads are only dumped, which is how the handler is compiled, no read of any execution can fail |
| TcpServerProgress.StepOrStuck | doipendpoint/src/tcp_server_endpoint_impl.cpp:29-360 | in every interleaving, failing allocations included, an unfinished system can take a step or has two threads that wait for each other |
| TcpServerProgress.StuckForever | doipendpoint/src/tcp_server_endpoint_impl.cpp:348-360 | two threads that wait for each other's mutex never go on, whatever the others do |
| TcpServerProgress.StuckIsCollision | doipendpoint/src/tcp_server_endpoint_impl.cpp:279-282 | such a pair is always a removal under a socket's mutex meeting a thread that holds the table's and waits for that socket's |
| TcpServerProgress.CompletesIff | doipendpoint/src/tcp_server_endpoint_impl.cpp:29-360 | what was begun can always be finished, however the server goes on, exactly if two threads never come to wait for each other |
| TcpServerProgress.NoDeadlock | doipendpoint/src/tcp_server_endpoint_impl.cpp:29-360 | as long as no allocation has failed an unfinished system can take a step |
| TcpServerProgress.CompletesUnlessOneFails | doipendpoint/src/tcp_server_endpoint_impl.cpp:247-289 | and everything begun can be finished |
| TcpServerProgress.CompletesWithoutReadDone | doipendpoint/src/tcp_server_endpoint_impl.cpp:365-380 | with the read handler compiled today everything begun can be finished and no two threads wait for each other, whatever allocations fail |
| TcpServerDeadlock.SafeIffNoneFails | doipendpoint/src/tcp_server_endpoint_impl.cpp:279-282 | the exact condition: from every state reached without a failing read, no two threads ever block each other, and everything begun can always be finished, exactly if no read ever fails to get memory |
| TcpServerDeadlock.FailingAllocationDeadlocks | doipendpoint/src/tcp_server_endpoint_impl.cpp:279-282 | every execution in which a read fails to get memory, whatever mutexes are taken, can go on to one in which two threads block each other for good |
| TcpServerDeadlock.DeadlockHappens | doipendpoint/src/tcp_server_endpoint_impl.cpp:50-66 | an execution from the start of the server on in which the failing second read of a connection and `stop` block each other for good |
| TcpServerAccept.ExecutionKeepsChains | doipendpoint/src/tcp_server_endpoint_impl.cpp:113-132 | conservation: pending accepts, retry timers and handlers yet to re-arm, plus the chains lost to a closed acceptor or an error, are the external starts |
| TcpServerAccept.TokensAreConserved | doipendpoint/src/tcp_server_endpoint_impl.cpp:29-48 | chains never multiply, and none is lost while the acceptor is open and no error ended one |
| TcpServerAccept.SingleAcceptToken | doipendpoint/src/tcp_server_endpoint_impl.cpp:113-132 | with one external start there is at most one accept token in every run, and exactly one while the acceptor is open and no fatal error occurred |
| TcpServerAccept.OneAtATime | doipendpoint/src/tcp_server_endpoint_impl.cpp:85-132 | with one external start connections are taken in one at a time: while one is still to be named or entered, no accept is pending, no timer runs and no other thread has one |
| TcpServerFlags.SendingIsLastWritten | doipendpoint/src/tcp_server_endpoint_impl.cpp:300-328 | after every execution the one flag of the server is what the last send, or the last completed send, of any connection has set |
| TcpServerFlags.SocketIsLastWritten | doipendpoint/src/tcp_server_endpoint_impl.cpp:85-298 | after every execution the socket of a connection is open exactly if it was accepted and not closed since |
| TcpServerTable.ExecutionKeepsTable | doipendpoint/src/tcp_server_endpoint_impl.cpp:85-112 | every interleaving keeps: each connection is accepted into at most once, `remote_` is the accepted peer, table keys are remotes, and programs enter and remove only connections they prepared |
| TcpServerTable.KeysAreRemotes | doipendpoint/src/tcp_server_endpoint_impl.cpp:90-109 | in every execution each key equals its connection's `remote_` and no connection has two keys |
| TcpServerTable.RemoveIsComplete | doipendpoint/src/tcp_server_endpoint_impl.cpp:68-79 | the scan that erases the first match removes the connection completely and nothing else, and the connection is closed by then |
| TcpServerTable.ClosedForGood | doipendpoint/src/tcp_server_endpoint_impl.cpp:291-298 | a connection that was closed is never open again |
| TcpServerEntries.OneReadAtATime | doipendpoint/src/tcp_server_endpoint_impl.cpp:247-289 | in every execution a connection has at most one read under way, outstanding or about to be armed by one thread |
| TcpServerReads.ReadsAreConserved | doipendpoint/src/tcp_server_endpoint_impl.cpp:247-289 | in every execution each read of a connection that was armed has had its handler, once, or is outstanding |
| TcpServerReads.OneReadEnds | doipendpoint/src/tcp_server_endpoint_impl.cpp:362-380 | in every execution at most one read of a connection is not followed by another; so with the handler compiled today at most one ever completes |
| TcpServerReads.ClosedNeverReads | doipendpoint/src/tcp_server_endpoint_impl.cpp:247-249 | a connection that is closed and not reading never reads again |
| TcpServerReads.ReadsOnlyWhenEntered | doipendpoint/src/tcp_server_endpoint_impl.cpp:106-111 | in every execution a connection reads only after it was entered into the table |
| TcpServerEntries.InsertDisplaces | doipendpoint/src/tcp_server_endpoint_impl.cpp:106-109 | an entry under an occupied key puts another connection out of the table and leaves it open and reading if it was |
| TcpServerEntries.OpenIsTabledOrDisplaced | doipendpoint/src/tcp_server_endpoint_impl.cpp:59-112 | in every execution an open connection that was entered is in the table exactly if it was not displaced |
| TcpServerEntries.DisplacedForGood | doipendpoint/src/tcp_server_endpoint_impl.cpp:106-109 | a displaced connection is never in the table again |
| TcpServerEntries.StopSparesDisplaced | doipendpoint/src/tcp_server_endpoint_impl.cpp:59-65 | while `stop` runs, what it has left to close is in the table and none of it was displaced |
| TcpServerEntries.StopLeavesOpen | doipendpoint/src/tcp_server_endpoint_impl.cpp:59-65 | an entered connection that is open at any time after `stop` emptied the table was displaced before or entered after |
| TcpServerEntries.StopLeavesOneOpen | doipendpoint/src/tcp_server_endpoint_impl.cpp:50-112 | an execution with two connections of one remote endpoint in which `stop` finishes and the first is still open and reading |
| TcpServerRemoval.FailedWriteEnds | doipendpoint/src/tcp_server_endpoint_impl.cpp:335-360 | in every execution, when the handler of a failed write on a connection with no entry pending has finished, the connection is closed and out of the table for good, whatever ran meanwhile |
| TcpServerRemoval.EnteredIsNotPending | doipendpoint/src/tcp_server_endpoint_impl.cpp:106-109 | a connection that was entered has no entry pending, as it is entered once |
| TcpServerRemoval.FailedReadEnds | doipendpoint/src/tcp_server_endpoint_impl.cpp:279-282 | in every execution a read that fails to get memory is one of an open, entered connection, and when its thread is through with the shutdown that connection is closed and out of the table for good |
| TcpServerRemoval.StaysOutIff | doipendpoint/src/tcp_server_endpoint_impl.cpp:68-112 | a connection out of the table stays out however the server goes on exactly if no thread has it still to enter, wherever the server can finish what it began |
| TcpServerRemoval.ClosedConnectionComesBack | doipendpoint/src/tcp_server_endpoint_impl.cpp:348-360 | a removal that overtakes the accept handler is in vain: the closed connection comes back into the table |
| TcpServerRemoval.ClosedConnectionTabled | doipendpoint/src/tcp_server_endpoint_impl.cpp:88-112 | an execution that ends with a closed connection in the table |
| TcpServerStop.StopClosesAll | doipendpoint/src/tcp_server_endpoint_impl.cpp:59-65 | when `stop` empties the table every connection in it has been closed, in every interleaving |
| TcpServerReads.StopFindsAcceptorClosed | doipendpoint/src/tcp_server_endpoint_impl.cpp:50-65 | in every execution `stop` reaches the table, and empties it, only when the acceptor is closed |
| TcpServerEndpoint.Server.RemoveConnection | doipendpoint/src/tcp_server_endpoint_impl.cpp:68-79 | the loop leaves exactly the table without the connection |
| TcpServerEndpoint.Server.Stop | doipendpoint/src/tcp_server_endpoint_impl.cpp:50-66 | the loop closes every tabled connection, then the table is empty and the acceptor closed |
| TcpServerEndpoint.Server.StopAndRemoveConnection | doipendpoint/src/tcp_server_endpoint_impl.cpp:348-360 | the connection is closed and out of the table, all others stay |
| TcpServerEndpoint.Server.Enter | doipendpoint/src/tcp_server_endpoint_impl.cpp:88-112 | an accepted connection gets its remote endpoint and, if configured, is entered under it and starts to read into its whole initial window, which cannot fail |
| TcpClientLocks.HandlerLeads | doipendpoint/src/client_endpoint_impl.cpp:56-215 | every client handler nests its mutexes in one order, buffer exceptions included |
| TcpClientLocks.AccessIsGuarded | doipendpoint/src/tcp_client_endpoint_impl.cpp:122-236 | in every interleaving socket, connect timer and send state are used only by the owner of their mutex |
| TcpClientLocks.HandlerUses | doipendpoint/src/client_endpoint_impl.cpp:55-215 | every handler uses socket, connect timer, send state and the endpoint's mutex exactly as often as the way it goes demands |
| TcpClientLocks.NoDeadlock | doipendpoint/src/tcp_client_endpoint_impl.cpp:113-212 | in every interleaving of client handlers an unfinished system can take a step |
| ClientEndpoint.EstablishedOnlyAfterConnected | doipendpoint/src/client_endpoint_impl.cpp:55-69 | in every run a connected or closed state lies between a connecting and a later established one |
| ClientEndpoint.EntersWithOpenSocket | doipendpoint/src/client_endpoint_impl.cpp:55-83 | the connected and established states are entered only with the socket open, and only by the two setters |
| ClientHistory.EntersIff | doipendpoint/src/client_endpoint_impl.cpp:55-83 | a step enters established exactly if its setter finds an open socket and no connecting, and connected exactly if its setter finds an open socket |
| ClientHistory.StateIsLastWritten | doipendpoint/src/client_endpoint_impl.cpp:55-189 | after every run the state is what the last event that writes it gave: established, connected, connecting by a request or a restart, closed by a refusal or a lost connection |
| ClientHistory.SocketIsLastWritten | doipendpoint/src/tcp_client_endpoint_impl.cpp:37-111 | after every run the socket is open exactly if the last event that opened or closed it opened it |
| ClientHistory.LostConnectionIsRequested | doipendpoint/src/client_endpoint_impl.cpp:144-173 | after a send that found the connection lost, the socket is open exactly if it opens anew, the state is connecting if it also binds and closed otherwise, and the port is forgotten |
| ClientHistory.ReconnectedIsEstablished | doipendpoint/src/client_endpoint_impl.cpp:55-173 | a run in which a client loses its connection, connects again, learns its port and becomes established |
| ClientEndpoint.StateStaysLiveIff | doipendpoint/src/client_endpoint_impl.cpp:86-215 | a step leaves a connected or established state without an open socket exactly if it is one of the handlers, or branches, that close and keep the state |
| ClientEndpoint.StateIsLiveThroughoutIff | doipendpoint/src/client_endpoint_impl.cpp:55-215 | over runs: the connected and established states always have an open socket exactly if none of these hits a connected or established client |
| ClientEndpoint.StopLeavesState | doipendpoint/src/client_endpoint_impl.cpp:86-94 | for example, `stop` on a connected client |
| ClientEndpoint.PortStaysLiveIff | doipendpoint/src/client_endpoint_impl.cpp:198-215 | a step leaves a known port without an open socket exactly if it is a buffer exception while a port is known |
| ClientHistory.PortIsLastWritten | doipendpoint/src/tcp_client_endpoint_impl.cpp:224-236 | after every run the local port is that of the last connection completed on an open socket with a known port, unless a shutdown came after it |
| ClientEndpoint.PortIsLiveThroughoutIff | doipendpoint/src/tcp_client_endpoint_impl.cpp:321-356 | over runs: a known port always belongs to an open socket exactly if no buffer exception hits while a port is known |
| ClientEndpoint.ExceptionLeavesPort | doipendpoint/src/tcp_client_endpoint_impl.cpp:224-356 | for example, a buffer exception on a client whose connection was completed |
| ClientEndpoint.BlockedIff | doipendpoint/src/client_endpoint_impl.cpp:174-178 | sending is blocked exactly if some send was aborted |
| ClientEndpoint.WasNotConnectedIff | doipendpoint/src/client_endpoint_impl.cpp:115-133 | the flag is set exactly if a send failed for want of a connection and no connection attempt was completed, neither aborted nor blocked, after it |
| ClientEndpoint.TcpClientEndpoint.FlagFollowsEvents | doipendpoint/src/client_endpoint_impl.cpp:112-189 | the field of an endpoint object says, after any handlers, whether a send failed for want of a connection and none was completed since |
| ClientEndpoint.TcpClientEndpoint.BlockingFollowsEvents | doipendpoint/src/client_endpoint_impl.cpp:144-189 | the field of an endpoint object says, after any handlers, whether some send was aborted |
| ClientHistory.FieldsAreLastWritten | doipendpoint/src/client_endpoint_impl.cpp:55-215 | socket, state and port of an endpoint object are, after any handlers, what the last event concerning each left |
| ClientHistory.LostConnectionOfObject | doipendpoint/src/client_endpoint_impl.cpp:144-173 | the fields of an endpoint object after a send that found the connection lost |
| ClientEndpoint.TcpClientEndpoint.PortIsOfOpenSocket | doipendpoint/src/tcp_client_endpoint_impl.cpp:224-356 | a known port of an endpoint object is that of an open socket, unless a buffer exception hit with a port known |
| ClientEndpoint.TcpClientEndpoint.StateIsOfOpenSocket | doipendpoint/src/client_endpoint_impl.cpp:49-94 | an endpoint object that calls itself established or connected has its socket open, unless a handler closed it in such a state and kept the state |
| ClientEndpoint.TcpClientEndpoint.EstablishedWasConnected | doipendpoint/src/client_endpoint_impl.cpp:55-83 | an established endpoint object has been connected or closed since it was last connecting |
| UseCount.ClosedForm | doipendpoint/src/endpoint_impl.cpp:4-12 | the count equals increments minus decrements above their lowest point after every operation, exactly when that height stays below 2^32 |
| UseCount.LowestIsMinimum | doipendpoint/src/endpoint_impl.cpp:9-12 | the lowest point is the minimum over all prefixes |
| UseCount.BalancedCount | doipendpoint/src/endpoint_impl.cpp:4-17 | without a decrement too many the count is increments minus decrements |
| UseCount.IncrementsWrap | doipendpoint/src/endpoint_impl.cpp:4-6 | 2^32 increments bring the count back to zero |
| UseCount.Endpoint.IncrementUseCount | doipendpoint/src/endpoint_impl.cpp:4-6 | the count follows the operations made |
| UseCount.Endpoint.DecrementUseCount | doipendpoint/src/endpoint_impl.cpp:9-12 | the count follows the operations made, saturating at zero |
| EndpointRegistry.StoreRefines | doipendpoint/src/endpoint_manager_impl.cpp:28-31 | storing updates exactly one key of the flat map and leaves no empty inner map |
| EndpointRegistry.EraseRefines | doipendpoint/src/endpoint_manager_impl.cpp:72-82 | erasing with pruning takes exactly one key out of the flat map and leaves no empty inner map |
| EndpointRegistry.Canonical | doipendpoint/src/endpoint_manager_impl.cpp:76-81 | pruned tables that stand for the same flat map are equal |
| EndpointRegistry.EraseUndoesStore | doipendpoint/src/endpoint_manager_impl.cpp:28-31 | storing a new key and erasing it restores the very same nested table |
| EndpointRegistry.FindIsLatestStore | doipendpoint/src/endpoint_manager_impl.cpp:45-61 | over every history a lookup gives the endpoint of the latest store of that key and side that no later removal follows, and nothing otherwise |
| EndpointRegistry.EndpointManager.CreateServerEndpoint | doipendpoint/src/endpoint_manager_impl.cpp:11-43 | a constructed endpoint is stored and returned even if starting throws; a failed construction changes and returns nothing |
| EndpointRegistry.EndpointManager.CreateClientEndpoint | doipendpoint/src/endpoint_manager_impl.cpp:90-127 | as for servers, and an unreliable client changes and returns nothing |
| EndpointRegistry.EndpointManager.FindServerEndpoint | doipendpoint/src/endpoint_manager_impl.cpp:45-61 | the lookup in the table that the history gives |
| EndpointRegistry.EndpointManager.FindClientEndpoint | doipendpoint/src/endpoint_manager_impl.cpp:129-145 | the lookup in the table that the history gives |
| EndpointRegistry.EndpointManager.RemoveServerEndpoint | doipendpoint/src/endpoint_manager_impl.cpp:63-88 | removes exactly if the key is there and its endpoint's count is zero, which is when its increments minus decrements is at its lowest point; otherwise nothing changes |
| EndpointRegistry.EndpointManager.RemoveClientEndpoint | doipendpoint/src/endpoint_manager_impl.cpp:147-172 | removes exactly if the key is there and its endpoint's count is zero, which is when its increments minus decrements is at its lowest point; otherwise nothing changes |
| EndpointRegistry.RemoveUnused | doipendpoint/src/endpoint_manager_impl.cpp:66-85 | the nested erases with their two emptiness checks are the erasure with pruning |
| EndpointRegistry.UnusedIff | doipendpoint/src/endpoint_manager_impl.cpp:72-75 | the gate is open exactly when increments minus decrements is at its lowest point, while their height fits 32 bits |

## Left out

* UDP endpoints: they forward to the socket and have no buffer logic.
* The Boost headers under `doipendpoint/include/helper`: vendored; sockets are open or closed, timers and accepts are pending or not, error codes are arbitrary.
* Logging, hex dumps beyond the bounds of what they read, address formatting and socket options other than whether the last one could be set.
* `wait_until_sent` as a waiting protocol, and what follows it: the connection's version has no body in the repository.
* `server_endpoint_impl::stop`, which `stop` calls first: it has no definition in the repository and is taken to touch no mutex of the model.
* A routing host or server that has been destroyed: the host is a flag of the read handler; the server is taken to be alive wherever a connection locks it.
* `reconnect_counter_`, `connect_timeout_` and the limit of reconnects: the code only sets them to constants.
* The initial value of `use_count_`, which the constructor does not set, is taken to be zero; the race between the test and the decrement is not modelled.
* That the accept chain and the connection table act on real sockets: a connection is a number in the concurrent model and an object only in the sequential one.
* TcpServerProgress.CompletesIff: it says that what was begun can be finished, not that a particular scheduler does finish it; scheduling is not modelled.
* TcpServerDeadlock.SafeIffNoneFails: which of the reads after the first really ask for memory depends on the bytes read, which the concurrent model does not hold; `TcpServerConnection.Connection.Receive` says exactly when.
* TcpServerRemoval.StaysOutIff: where two threads block each other a pending entry may never be made, so the equivalence is stated for states from which the server can finish; that no pending entry means staying out holds in every state.
* The buffer and the connect timer in the client's connection state: a buffer exception also clears the one, which `TcpClientReceiver` models, and cancels the other.
* TcpServerEndpoint.Server.Enter: the accepted connection is required not to be in the table yet; a connection object is accepted into once, which `TcpServerTable.ExecutionKeepsTable` shows for every interleaving.
