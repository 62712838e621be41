/**
 * The receiving side of a TCP client.  It arms reads by the same rule as the server's connections, with the
 * held bytes and the missing capacity passed as arguments, and counts fill levels; its read handler only dumps.
 */
module TcpClientReceiver {
  import opened Common
  import opened ReceiveWindow
  import ByteVector

  datatype Outcome = NotOpen | ExceedsMaximum | Failed | Armed(window: nat)

  class Receiver {
    const cfg: Settings
    const recvBuffer: ByteVector.Vector
    var shrinkCount: uint32
    var socketOpen: bool

    ghost predicate Ready()
      reads this, recvBuffer
    {
      && recvBuffer.Valid()
      && cfg.initial <= recvBuffer.size == recvBuffer.Capacity()
    }

    /** The buffer as the call `receive(recv_buffer_, size, missing)` sees it. */
    ghost function Abs(size: nat, missing: nat): Buffer
      reads this, recvBuffer, recvBuffer.data
      requires Ready() && size <= recvBuffer.size
    {
      Buffer(recvBuffer.data[..size], recvBuffer.Capacity(), missing, shrinkCount)
    }

    constructor (cfg: Settings)
      ensures Ready() && fresh(recvBuffer) && fresh(recvBuffer.data)
      ensures this.cfg == cfg && Abs(0, 0) == Buffer([], cfg.initial, 0, 0)
      ensures !socketOpen
    {
      this.cfg := cfg;
      recvBuffer := new ByteVector.Vector(cfg.initial);
      shrinkCount, socketOpen := 0, false;
    }

    /**
     * Arms a read behind the first `size` bytes.  Unlike on the server the missing capacity is as wide as
     * `std::size_t`, so the maximum is a live check; and an allocation that fails closes the
     * socket.
     */
    method Receive(size: nat, missing: nat, allocationFails: bool) returns (outcome: Outcome)
      requires Ready() && size <= recvBuffer.size
      modifies this`shrinkCount, this`socketOpen, recvBuffer, recvBuffer.data
      ensures recvBuffer.Valid()
      ensures outcome.NotOpen? <==> !old(socketOpen)
      ensures outcome.ExceedsMaximum? <==> old(socketOpen) && missing > MESSAGE_SIZE_UNLIMITED
      ensures outcome.Failed? <==>
                && old(socketOpen) && missing <= MESSAGE_SIZE_UNLIMITED
                && allocationFails && Allocates(cfg, old(Abs(size, missing)))
      ensures socketOpen == (old(socketOpen) && !outcome.Failed?)
      ensures outcome.Failed? ==> recvBuffer.Contents() == []
      ensures outcome.NotOpen? || outcome.ExceedsMaximum? ==>
                Ready() && size <= recvBuffer.size && Abs(size, missing) == old(Abs(size, missing))
      ensures outcome.Armed? ==>
                && Ready() && size + outcome.window <= recvBuffer.size
                && (Abs(size, 0), outcome.window) == Arm(cfg, old(Abs(size, missing)))
                && (missing != 0 ==> outcome.window == missing)
    {
      if !socketOpen {
        return NotOpen;
      }
      var capacity := recvBuffer.Capacity();
      var bufferSize := capacity - size;
      if missing != 0 {
        if missing > MESSAGE_SIZE_UNLIMITED {
          return ExceedsMaximum;
        }
        var required := size + missing;
        if capacity < required {
          if allocationFails {
            HandleRecvBufferException();
            return Failed;
          }
          ghost var held := recvBuffer.data[..size];
          assert held == recvBuffer.Contents()[..size];
          recvBuffer.Reserve(required);
          recvBuffer.Resize(required);
          assert recvBuffer.data[..size] == recvBuffer.Contents()[..size] == held;
        }
        bufferSize := missing;
      } else if cfg.threshold != 0 && shrinkCount > cfg.threshold && size == 0 {
        if allocationFails {
          HandleRecvBufferException();
          return Failed;
        }
        recvBuffer.Resize(cfg.initial);
        recvBuffer.ShrinkToFit();
        bufferSize := cfg.initial;
        shrinkCount := 0;
      }
      return Armed(bufferSize);
    }

    /**
     * The one call the client makes: it reads at the front and asks for no room.  Nothing calls
     * `calculate_shrink_count`, so the counter stays zero, and this read never fails for want of memory.
     */
    method ReceiveAtFront(allocationFails: bool) returns (outcome: Outcome)
      requires Ready() && shrinkCount == 0
      modifies this`shrinkCount, this`socketOpen, recvBuffer, recvBuffer.data
      ensures Ready() && shrinkCount == 0 && socketOpen == old(socketOpen)
      ensures recvBuffer.Capacity() == old(recvBuffer.Capacity())
      ensures outcome == if socketOpen then Armed(recvBuffer.Capacity()) else NotOpen
    {
      outcome := Receive(0, 0, allocationFails);
    }

    /** Closes the socket; no local port is reset. */
    method HandleRecvBufferException()
      requires recvBuffer.Valid()
      modifies this`socketOpen, recvBuffer`size
      ensures !socketOpen && recvBuffer.Valid() && recvBuffer.Contents() == []
    {
      recvBuffer.Clear();
      socketOpen := false;
    }

    method CalculateShrinkCount(size: nat)
      requires recvBuffer.Valid()
      modifies this`shrinkCount
      ensures shrinkCount == Observe(cfg, recvBuffer.Capacity(), old(shrinkCount), size)
    {
      if cfg.threshold != 0 {
        if recvBuffer.Capacity() != cfg.initial {
          if size < recvBuffer.Capacity() / 2 {
            shrinkCount := (shrinkCount + 1) % TWO_TO_THE_32;
          } else {
            shrinkCount := 0;
          }
        }
      }
    }
  }
}
