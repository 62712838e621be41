/**
 * One accepted TCP connection: the vector its bytes are read into, and the handlers that arm the next read and
 * cut the bytes into messages in place.  `receive` is what runs today; the framing loop of `receive_cbk` is the
 * branch behind the preprocessor switch, which is compiled out in favour of a hex dump.
 */
module TcpServerConnection {
  import opened Common
  import opened Framing
  import opened ReceiveWindow
  import ByteVector

  class Connection {
    const cfg: Settings
    const recvBuffer: ByteVector.Vector
    var recvBufferSize: nat
    var missingCapacity: uint32
    var shrinkCount: uint32
    var socketOpen: bool
    /** The remote endpoint, once the accept handler has set it. */
    var remote: Option<nat>
    /** The size of the window of the outstanding read, which starts at `recvBufferSize`. */
    var window: Option<nat>
    /** The messages handed to the host, oldest first. */
    var delivered: seq<seq<byte>>
    /** The chunks read so far, and the run over them. */
    ghost var chunks: seq<seq<byte>>
    ghost var run: Run

    /** Vector and counters fit each other: what `receive` relies on. */
    ghost predicate Ready()
      reads this, recvBuffer
    {
      && recvBuffer.Valid()
      && recvBufferSize <= recvBuffer.size == recvBuffer.Capacity()
      && cfg.initial <= recvBuffer.Capacity()
    }

    ghost function Abs(): Buffer
      reads this, recvBuffer, recvBuffer.data
      requires Ready()
    {
      Buffer(recvBuffer.data[..recvBufferSize], recvBuffer.Capacity(), missingCapacity, shrinkCount)
    }

    /** What was delivered and, while a read is outstanding, buffer and window are those of the run. */
    ghost predicate Follows()
      reads this, recvBuffer, recvBuffer.data
    {
      && recvBuffer.Valid()
      && delivered == run.delivered
      && (window.Some? ==> Ready() && run.listening && Abs() == run.buffer && window.value == run.window)
    }

    ghost predicate Valid()
      reads this, recvBuffer, recvBuffer.data
    {
      Deliveries(cfg, chunks) == Some(run) && Follows()
    }

    constructor (cfg: Settings)
      ensures Valid() && Ready() && fresh(recvBuffer) && fresh(recvBuffer.data)
      ensures this.cfg == cfg && Abs() == Buffer([], cfg.initial, 0, 0)
      ensures chunks == [] && delivered == [] && window == None && !socketOpen && remote == None
    {
      this.cfg := cfg;
      recvBuffer := new ByteVector.Vector(cfg.initial);
      recvBufferSize, missingCapacity, shrinkCount := 0, 0, 0;
      socketOpen, remote, window, delivered, chunks, run := false, None, None, [], [], Begin(cfg);
    }

    /** Gives the vector the required capacity and size; the held bytes stay. */
    method Enlarge(required: nat)
      requires Ready() && recvBuffer.Capacity() < required
      modifies recvBuffer, recvBuffer.data
      ensures Ready() && recvBuffer.Capacity() == required
      ensures recvBuffer.data == old(recvBuffer.data) || fresh(recvBuffer.data)
      ensures recvBuffer.data[..recvBufferSize] == old(recvBuffer.data[..recvBufferSize])
    {
      ghost var held := recvBuffer.data[..recvBufferSize];
      assert held == recvBuffer.Contents()[..recvBufferSize];
      recvBuffer.Reserve(required);
      recvBuffer.Resize(required);
      assert recvBuffer.data[..recvBufferSize] == recvBuffer.Contents()[..recvBufferSize] == held;
    }

    /**
     * Arms the next read.  The window is the one `Arm` computes, lies inside the vector, and the held bytes
     * are kept.  When the vector cannot be changed, the connection is shut down instead, and `failed` asks the
     * server to remove it.
     */
    method Receive(allocationFails: bool) returns (failed: bool)
      requires Ready() && window == None
      modifies this`missingCapacity, this`shrinkCount, this`socketOpen, this`window, recvBuffer, recvBuffer.data
      ensures recvBuffer.Valid() && (recvBuffer.data == old(recvBuffer.data) || fresh(recvBuffer.data))
      ensures failed == (old(socketOpen) && allocationFails && Allocates(cfg, old(Abs())))
      ensures socketOpen == (old(socketOpen) && !failed)
      ensures failed ==> window == None && recvBuffer.Contents() == []
      ensures !old(socketOpen) ==> window == None && Ready() && Abs() == old(Abs())
      ensures socketOpen ==>
                && Ready() && window.Some?
                && (Abs(), window.value) == Arm(cfg, old(Abs()))
                && (old(missingCapacity) != 0 ==> window.value == old(missingCapacity))
                && recvBufferSize + window.value <= recvBuffer.size
    {
      failed := false;
      if socketOpen {
        var capacity := recvBuffer.Capacity();
        var bufferSize := capacity - recvBufferSize;
        if missingCapacity != 0 {
          if missingCapacity > MESSAGE_SIZE_UNLIMITED {
            assert false; // the counter is 32 bits wide
          }
          var required := recvBufferSize + missingCapacity;
          if capacity < required {
            if allocationFails {
              HandleRecvBufferException();
              return true;
            }
            Enlarge(required);
          }
          bufferSize := missingCapacity;
          missingCapacity := 0;
        } else if cfg.threshold != 0 && shrinkCount > cfg.threshold && recvBufferSize == 0 {
          if allocationFails {
            HandleRecvBufferException();
            return true;
          }
          recvBuffer.Resize(cfg.initial);
          recvBuffer.ShrinkToFit();
          bufferSize := cfg.initial;
          shrinkCount := 0;
        }
        window := Some(bufferSize);
      }
    }

    method HandleRecvBufferException()
      requires recvBuffer.Valid()
      modifies this`socketOpen, recvBuffer`size
      ensures !socketOpen && recvBuffer.Valid() && recvBuffer.Contents() == []
    {
      recvBuffer.Clear();
      socketOpen := false;
    }

    /** One observation of the fill level, before a message is consumed. */
    method CalculateShrinkCount()
      requires recvBuffer.Valid()
      modifies this`shrinkCount
      ensures shrinkCount == Observe(cfg, recvBuffer.Capacity(), old(shrinkCount), recvBufferSize)
    {
      if cfg.threshold != 0 {
        if recvBuffer.Capacity() != cfg.initial {
          if recvBufferSize < recvBuffer.Capacity() / 2 {
            shrinkCount := (shrinkCount + 1) % TWO_TO_THE_32;
          } else {
            shrinkCount := 0;
          }
        }
      }
    }

    /**
     * Copies the leftover, which lies `gap` bytes into the vector, to the front.  The ascending copy may
     * overlap itself and still preserves the leftover.
     */
    method ShiftToFront(gap: nat)
      requires recvBuffer.Valid() && gap + recvBufferSize <= recvBuffer.Capacity()
      modifies recvBuffer.data
      ensures recvBuffer.data[..recvBufferSize] == old(recvBuffer.data[gap..gap + recvBufferSize])
      ensures recvBuffer.data[recvBufferSize..] == old(recvBuffer.data[recvBufferSize..])
    {
      for i := 0 to recvBufferSize
        invariant forall k :: 0 <= k < i ==> recvBuffer.data[k] == old(recvBuffer.data[k + gap])
        invariant forall k :: i <= k < recvBuffer.data.Length ==> recvBuffer.data[k] == old(recvBuffer.data[k])
      {
        recvBuffer.data[i] := recvBuffer.data[i + gap];
      }
    }

    /**
     * The loop over the bytes present: hands over every complete message, and stops with the unconsumed bytes
     * `gap` bytes into the vector, whose contents it does not touch.  There are bytes present, so the first
     * round is always made, as in the source, which tests at the end of a round.
     */
    method HandOver() returns (gap: nat, oversize: bool)
      requires Ready() && 0 < recvBufferSize
      modifies this`recvBufferSize, this`missingCapacity, this`shrinkCount, this`delivered
      ensures gap + recvBufferSize == old(recvBufferSize)
      ensures var p, present := cfg.protocol, recvBuffer.data[..gap + recvBufferSize];
              var parsed := Parse(p, present);
              && delivered == old(delivered) + parsed.frames
              && recvBuffer.data[gap..gap + recvBufferSize] == parsed.rest
              && oversize == parsed.oversize
              && (gap == 0 <==> parsed.frames == [])
              && missingCapacity == MissingAfter(p, old(missingCapacity), parsed)
              && shrinkCount == CountAfter(cfg, recvBuffer.Capacity(), old(shrinkCount), Levels(p, present))
    {
      ghost var p, capacity, left := cfg.protocol, recvBuffer.Capacity(), recvBuffer.data[..recvBufferSize];
      ghost var present := left;
      ghost var handed: seq<seq<byte>> := [];
      ghost var whole := Completed(cfg, capacity, present, [], shrinkCount);
      gap, oversize := 0, false;
      var hasFullMessage := true;
      while hasFullMessage && recvBufferSize != 0
        invariant gap + recvBufferSize == |present| && |left| == recvBufferSize
        invariant left == present[gap..]
        invariant delivered == old(delivered) + handed
        invariant gap == 0 <==> handed == []
        invariant Completed(cfg, capacity, left, handed, shrinkCount) == whole
        invariant hasFullMessage ==> missingCapacity == if handed == [] then old(missingCapacity) else 0
        invariant !hasFullMessage ==>
                    && left != [] && Stops(p, left)
                    && missingCapacity == MissingAfter(p, old(missingCapacity), Parsed(handed, left, false))
        decreases recvBufferSize, hasFullMessage
      {
        var ahead := recvBuffer.data[gap..gap + recvBufferSize];
        assert ahead == left;
        var messageSize := cfg.protocol.MessageSize(ahead);
        if messageSize > MESSAGE_SIZE_UNLIMITED {
          oversize := true;
          break;
        }
        hasFullMessage := TakeMessage(messageSize, ahead, handed, old(missingCapacity));
        if hasFullMessage {
          ConcatAssociative(old(delivered), handed, [ahead[..messageSize]]);
          handed := handed + [ahead[..messageSize]];
          left := left[messageSize..];
          gap := gap + messageSize;
          assert left == present[gap..];
        }
      }
      assert recvBuffer.data[gap..gap + recvBufferSize] == left;
      CompletedEnd(cfg, capacity, present, old(shrinkCount), left, handed, shrinkCount);
    }

    /** One round of the loop: a complete message is handed over, otherwise what it lacks is noted. */
    method TakeMessage(messageSize: nat, ahead: seq<byte>, ghost handed: seq<seq<byte>>, ghost before: uint32)
      returns (hasFullMessage: bool)
      requires recvBuffer.Valid() && |ahead| == recvBufferSize != 0
      requires messageSize == cfg.protocol.MessageSize(ahead) && !cfg.protocol.Oversize(ahead)
      requires missingCapacity == if handed == [] then before else 0
      modifies this`recvBufferSize, this`missingCapacity, this`shrinkCount, this`delivered
      ensures hasFullMessage == cfg.protocol.HasFullMessage(ahead)
      ensures hasFullMessage ==>
                var message, rest, capacity := ahead[..messageSize], ahead[messageSize..], recvBuffer.Capacity();
                && delivered == old(delivered) + [message]
                && missingCapacity == 0 && recvBufferSize == old(recvBufferSize) - messageSize
                && Completed(cfg, capacity, rest, handed + [message], shrinkCount)
                   == Completed(cfg, capacity, ahead, handed, old(shrinkCount))
      ensures !hasFullMessage ==>
                && delivered == old(delivered) && recvBufferSize == old(recvBufferSize)
                && shrinkCount == old(shrinkCount)
                && missingCapacity == MissingAfter(cfg.protocol, before, Parsed(handed, ahead, false))
    {
      hasFullMessage := messageSize > cfg.protocol.returnCodePos && messageSize <= recvBufferSize;
      if hasFullMessage {
        Consume(messageSize, ahead, handed);
      } else {
        RecordMissing(messageSize, ahead, handed, before);
      }
    }

    /** No complete message is there: notes what the message, or its header, still lacks. */
    method RecordMissing(messageSize: nat, ghost ahead: seq<byte>, ghost handed: seq<seq<byte>>, ghost before: uint32)
      requires messageSize == cfg.protocol.MessageSize(ahead) && |ahead| == recvBufferSize != 0
      requires Stops(cfg.protocol, ahead)
      requires missingCapacity == if handed == [] then before else 0
      modifies this`missingCapacity
      ensures missingCapacity == MissingAfter(cfg.protocol, before, Parsed(handed, ahead, false))
    {
      if messageSize > recvBufferSize {
        missingCapacity := messageSize - recvBufferSize;
      } else if cfg.protocol.headerSize > recvBufferSize {
        missingCapacity := cfg.protocol.headerSize - recvBufferSize;
      }
    }

    /**
     * Hands the message at the front of the bytes `ahead` to the host and takes it off them.  What parsing gives
     * from here on makes up, with `handed`, the same as before.
     */
    method Consume(size: nat, ahead: seq<byte>, ghost handed: seq<seq<byte>>)
      requires recvBuffer.Valid() && |ahead| == recvBufferSize
      requires !cfg.protocol.Oversize(ahead) && cfg.protocol.HasFullMessage(ahead)
      requires size == cfg.protocol.MessageSize(ahead)
      modifies this`recvBufferSize, this`missingCapacity, this`shrinkCount, this`delivered
      ensures delivered == old(delivered) + [ahead[..size]]
      ensures missingCapacity == 0
      ensures recvBufferSize == old(recvBufferSize) - size
      ensures Completed(cfg, recvBuffer.Capacity(), ahead[size..], handed + [ahead[..size]], shrinkCount)
           == Completed(cfg, recvBuffer.Capacity(), ahead, handed, old(shrinkCount))
    {
      CompletedStep(cfg, recvBuffer.Capacity(), ahead, handed, shrinkCount);
      delivered := delivered + [ahead[..size]];
      CalculateShrinkCount();
      missingCapacity := 0;
      recvBufferSize := recvBufferSize - size;
    }

    /** No complete message, and no oversize announcement, begins here. */
    static predicate Stops(p: Protocol, ahead: seq<byte>) {
      !p.Oversize(ahead) && !p.HasFullMessage(ahead)
    }

    /** The messages handed over so far with what parsing the bytes still ahead adds, and the counter then. */
    static ghost function Completed(cfg: Settings, capacity: nat, ahead: seq<byte>, handed: seq<seq<byte>>,
                                    count: uint32): (Parsed, uint32)
    {
      var parsed := Parse(cfg.protocol, ahead);
      (Parsed(handed + parsed.frames, parsed.rest, parsed.oversize),
       CountAfter(cfg, capacity, count, Levels(cfg.protocol, ahead)))
    }

    static lemma CompletedStep(cfg: Settings, capacity: nat, ahead: seq<byte>, handed: seq<seq<byte>>, count: uint32)
      requires !cfg.protocol.Oversize(ahead) && cfg.protocol.HasFullMessage(ahead)
      ensures var n, count' := cfg.protocol.MessageSize(ahead), Observe(cfg, capacity, count, |ahead|);
              var next := Completed(cfg, capacity, ahead[n..], handed + [ahead[..n]], count');
              next == Completed(cfg, capacity, ahead, handed, count)
    {
      var p, n := cfg.protocol, cfg.protocol.MessageSize(ahead);
      assert Levels(p, ahead)[1..] == Levels(p, ahead[n..]);
      ConcatAssociative(handed, [ahead[..n]], Parse(p, ahead[n..]).frames);
    }

    /** Where the loop ends, everything parsing delivers was handed over and the rest is what lies ahead. */
    static lemma CompletedEnd(cfg: Settings, capacity: nat, present: seq<byte>, before: uint32,
                              ahead: seq<byte>, handed: seq<seq<byte>>, count: uint32)
      requires cfg.protocol.Oversize(ahead) || !cfg.protocol.HasFullMessage(ahead)
      requires Completed(cfg, capacity, ahead, handed, count) == Completed(cfg, capacity, present, [], before)
      ensures Parse(cfg.protocol, present) == Parsed(handed, ahead, cfg.protocol.Oversize(ahead))
      ensures CountAfter(cfg, capacity, before, Levels(cfg.protocol, present)) == count
    {
      assert handed + [] == handed;
      assert [] + Parse(cfg.protocol, present).frames == Parse(cfg.protocol, present).frames;
    }

    /**
     * The in-place counterpart of `Absorb`: takes in `bytes` more bytes, hands over the complete messages and
     * moves the leftover to the front.
     */
    method Frame(bytes: nat, ghost chunk: seq<byte>) returns (oversize: bool)
      requires Ready() && 0 < bytes && recvBufferSize + bytes <= recvBuffer.size
      requires chunk == recvBuffer.data[recvBufferSize..recvBufferSize + bytes]
      modifies this`recvBufferSize, this`missingCapacity, this`shrinkCount, this`delivered, recvBuffer.data
      ensures Ready()
      ensures var parsed := Parse(cfg.protocol, old(Abs()).held + chunk);
              && delivered == old(delivered) + parsed.frames
              && oversize == parsed.oversize
              && Abs() == Absorb(cfg, old(Abs()), chunk)
    {
      ghost var before := Abs();
      recvBufferSize := recvBufferSize + bytes;
      ghost var present := recvBuffer.data[..recvBufferSize];
      assert present == before.held + chunk;
      ghost var parsed := Parse(cfg.protocol, present);
      ParseConserves(cfg.protocol, present);
      var gap: nat;
      gap, oversize := HandOver();
      if oversize {
        assert recvBuffer.data[..recvBufferSize] == present[..|parsed.rest|];
        return;
      }
      KeepLeftover(gap);
    }

    /** Moves the leftover to the front and drops the request for room that the free tail already has. */
    method KeepLeftover(gap: nat)
      requires Ready() && gap + recvBufferSize <= recvBuffer.Capacity()
      modifies this`missingCapacity, recvBuffer.data
      ensures recvBuffer.data[..recvBufferSize] == old(recvBuffer.data[gap..gap + recvBufferSize])
      ensures missingCapacity == if gap != 0 && recvBufferSize + old(missingCapacity) <= recvBuffer.Capacity() then 0
                                 else old(missingCapacity)
    {
      if gap != 0 {
        ShiftToFront(gap);
        if missingCapacity != 0 && missingCapacity <= recvBuffer.Capacity() - recvBufferSize {
          missingCapacity := 0;
        }
      }
    }

    /** The outstanding read puts `chunk` into its window; the held bytes stay as they are. */
    method ReadInto(chunk: seq<byte>)
      requires Valid() && window.Some? && |chunk| <= window.value
      modifies recvBuffer.data
      ensures Valid() && Abs() == old(Abs())
      ensures recvBuffer.data[recvBufferSize..recvBufferSize + |chunk|] == chunk
    {
      ghost var held := recvBuffer.data[..recvBufferSize];
      forall i | 0 <= i < |chunk| {
        recvBuffer.data[recvBufferSize + i] := chunk[i];
      }
      assert recvBuffer.data[..recvBufferSize] == held;
      forall k | 0 <= k < |chunk|
        ensures recvBuffer.data[recvBufferSize..recvBufferSize + |chunk|][k] == chunk[k]
      {
        assert recvBuffer.data[recvBufferSize + k] == chunk[k];
      }
    }

    /**
     * The connection was accepted: the first read is armed.  It fits the vector as it was created, so it asks
     * for no memory and cannot fail.
     */
    method Start(allocationFails: bool)
      requires Valid() && Ready() && Abs() == Buffer([], cfg.initial, 0, 0) && chunks == [] && window == None
      modifies this`missingCapacity, this`shrinkCount, this`socketOpen, this`window, recvBuffer, recvBuffer.data
      ensures Valid() && chunks == [] && delivered == []
      ensures socketOpen == old(socketOpen)
      ensures window == if socketOpen then Some(cfg.initial) else None
    {
      var failed := Receive(allocationFails);
    }

    method SetRemoteInfo(peer: nat)
      modifies this`remote
      ensures remote == Some(peer)
    {
      remote := Some(peer);
    }

    /** Closes the socket; what was delivered, and the run that it follows, stay. */
    method Stop()
      modifies this`socketOpen
      ensures !socketOpen
      ensures old(Valid()) ==> Valid()
    {
      if socketOpen {
        socketOpen := false;
      }
    }

    /** The body of the read handler: frame the new bytes and, unless the stream is unacceptable, read on. */
    method FrameAndReceive(bytes: nat, ghost chunk: seq<byte>, allocationFails: bool) returns (failed: bool)
      requires Ready() && window == None && 0 < bytes && recvBufferSize + bytes <= recvBuffer.size
      requires chunk == recvBuffer.data[recvBufferSize..recvBufferSize + bytes]
      modifies this`recvBufferSize, this`missingCapacity, this`shrinkCount, this`delivered, this`socketOpen,
               this`window, recvBuffer, recvBuffer.data
      ensures recvBuffer.Valid()
      ensures var parsed, absorbed := Parse(cfg.protocol, old(Abs()).held + chunk), Absorb(cfg, old(Abs()), chunk);
              && delivered == old(delivered) + parsed.frames
              && failed == (old(socketOpen) && allocationFails && !parsed.oversize && Allocates(cfg, absorbed))
              && socketOpen == (old(socketOpen) && !failed)
              && (window.Some? <==> !parsed.oversize && socketOpen)
              && |absorbed.held| <= absorbed.capacity
              && (window.Some? ==> Ready() && (Abs(), window.value) == Arm(cfg, absorbed))
    {
      var oversize := Frame(bytes, chunk);
      failed := false;
      if !oversize {
        failed := Receive(allocationFails);
      }
    }

    /** The read that follows `chunk` asks for memory, and there is none. */
    ghost predicate NextReadFails(allocationFails: bool, before: Run, chunk: seq<byte>)
      requires Accepts(before, chunk)
    {
      && allocationFails && Deliver(cfg, before, chunk).listening
      && Allocates(cfg, Absorb(cfg, before.buffer, chunk))
    }

    /** One step of the run, taken in place. */
    method Step(bytes: nat, ghost chunk: seq<byte>, allocationFails: bool) returns (failed: bool)
      requires Follows() && window.Some? && 0 < bytes <= window.value
      requires chunk == recvBuffer.data[recvBufferSize..recvBufferSize + bytes]
      modifies this`recvBufferSize, this`missingCapacity, this`shrinkCount, this`delivered, this`socketOpen,
               this`window, this`run, recvBuffer, recvBuffer.data
      ensures Follows()
      ensures && Accepts(old(run), chunk)
              && run == Deliver(cfg, old(run), chunk)
              && failed == (old(socketOpen) && NextReadFails(allocationFails, old(run), chunk))
      ensures socketOpen == (old(socketOpen) && !failed)
      ensures window.Some? <==> run.listening && socketOpen
    {
      window := None;
      failed := FrameAndReceive(bytes, chunk, allocationFails);
      run := Deliver(cfg, run, chunk);
    }

    /** No sum of the read handler overflows: everything read fits the largest 32-bit length. */
    lemma SizesFit()
      requires Valid() && window.Some?
      ensures recvBufferSize + window.value <= recvBuffer.Capacity() <= MESSAGE_SIZE_UNLIMITED
    {
      CapacityBound(cfg, chunks);
    }

    /** A successful read: the check of the sum, then one step of the run. */
    method TakeIn(bytes: nat, ghost chunk: seq<byte>, allocationFails: bool) returns (failed: bool)
      requires Valid() && window.Some? && 0 < bytes <= window.value
      requires chunk == recvBuffer.data[recvBufferSize..recvBufferSize + bytes]
      modifies this`recvBufferSize, this`missingCapacity, this`shrinkCount, this`delivered, this`socketOpen,
               this`window, this`run, this`chunks, recvBuffer, recvBuffer.data
      ensures Valid() && chunks == old(chunks) + [chunk]
      ensures && Accepts(old(run), chunk)
              && run == Deliver(cfg, old(run), chunk)
              && failed == (old(socketOpen) && NextReadFails(allocationFails, old(run), chunk))
      ensures socketOpen == (old(socketOpen) && !failed)
      ensures window.Some? <==> run.listening && socketOpen
    {
      SizesFit();
      NoWrap(recvBufferSize + bytes);
      if (recvBufferSize + bytes) % TWO_TO_THE_64 < recvBufferSize {
        assert false; // the addition cannot wrap
      }
      Extend(cfg, chunks, chunk);
      failed := Step(bytes, chunk, allocationFails);
      chunks := chunks + [chunk];
    }

    /**
     * The read handler with the framing loop.  A successful read of `bytes` bytes extends the run by that
     * chunk, and reading goes on exactly if the chunk announced no oversize message, the socket is still open
     * and memory could be had; anything else ends the connection's reading and delivers nothing.
     */
    method ReceiveCbk(error: ErrorCode, bytes: nat, ghost chunk: seq<byte>, hostAlive: bool, allocationFails: bool)
      returns (failed: bool)
      requires Valid() && window.Some? && bytes <= window.value
      requires chunk == recvBuffer.data[recvBufferSize..recvBufferSize + bytes]
      modifies this, recvBuffer, recvBuffer.data
      ensures Valid() && remote == old(remote)
      ensures error == NoError && 0 < bytes && hostAlive ==>
                && Accepts(old(run), chunk)
                && chunks == old(chunks) + [chunk]
                && run == Deliver(cfg, old(run), chunk)
                && failed == (old(socketOpen) && NextReadFails(allocationFails, old(run), chunk))
                && socketOpen == (old(socketOpen) && !failed)
                && (window.Some? <==> run.listening && socketOpen)
      ensures !(error == NoError && 0 < bytes && hostAlive) ==>
                && chunks == old(chunks) && run == old(run) && window == None
                && !failed && socketOpen == old(socketOpen)
    {
      failed := false;
      if error == NoError && 0 < bytes && hostAlive {
        failed := TakeIn(bytes, chunk, allocationFails);
      } else {
        window := None;
      }
    }

    /**
     * A read from the network and its handler together: the bytes land in the window, and the run goes on by
     * exactly those bytes.
     */
    method CompleteRead(chunk: seq<byte>, allocationFails: bool) returns (failed: bool)
      requires Valid() && window.Some? && 0 < |chunk| <= window.value
      modifies this, recvBuffer, recvBuffer.data
      ensures Valid() && chunks == old(chunks) + [chunk] && run == Deliver(cfg, old(run), chunk)
      ensures delivered == Parse(cfg.protocol, Flatten(chunks)).frames
      ensures failed == (old(socketOpen) && NextReadFails(allocationFails, old(run), chunk))
      ensures socketOpen == (old(socketOpen) && !failed)
      ensures window.Some? <==> run.listening && socketOpen
    {
      ReadInto(chunk);
      failed := ReceiveCbk(NoError, |chunk|, chunk, true, allocationFails);
      DeliveredIsParsed();
    }

    /**
     * The read handler as it is compiled today: it dumps the held and the new bytes, all of which lie inside
     * the vector, and arms no further read.
     */
    method ReceiveCbkDump(error: ErrorCode, bytes: nat, ghost chunk: seq<byte>) returns (dump: seq<byte>)
      requires Valid() && window.Some? && bytes <= window.value
      requires chunk == recvBuffer.data[recvBufferSize..recvBufferSize + bytes]
      modifies this`window
      ensures Valid() && window == None
      ensures dump == if error == OperationAborted then [] else run.buffer.held + chunk
    {
      dump := [];
      if error != OperationAborted {
        dump := recvBuffer.data[..recvBufferSize + bytes];
        assert dump == recvBuffer.data[..recvBufferSize] + chunk;
      }
      window := None;
    }

    /** What a connection has delivered is, at any time, what parsing all the bytes it has read gives. */
    lemma DeliveredIsParsed()
      requires Valid()
      ensures delivered == Parse(cfg.protocol, Flatten(chunks)).frames
      ensures window.Some? ==> Abs().held == Parse(cfg.protocol, Flatten(chunks)).rest
      ensures window.Some? ==> recvBufferSize + window.value <= recvBuffer.size == recvBuffer.Capacity()
    {
      RunInvariant(cfg, chunks);
    }
  }
}
