/**
 * `write_completion_condition`, which tells a composed write how many bytes it may transfer next, driven by any
 * sequence of partial transfers and failures.
 */
module WriteCompletion {
  import opened Common

  /** The bytes still to be sent, in the arithmetic of `std::size_t`; nothing after an error. */
  function Condition(error: ErrorCode, transferred: nat, toSend: nat): nat {
    if error != NoError then 0 else (toSend - transferred) % TWO_TO_THE_64
  }

  /** What the last write of the composed operation did. */
  datatype Transfer = Moved(count: nat) | Broke(error: ErrorCode)

  datatype Write = Write(wire: seq<byte>, transferred: nat, error: ErrorCode)

  function Offer(data: seq<byte>, w: Write): nat {
    Condition(w.error, w.transferred, |data|)
  }

  /** The operation goes on while it is offered bytes, and moves at least one and at most the offer. */
  predicate Possible(data: seq<byte>, w: Write, t: Transfer) {
    && Offer(data, w) != 0
    && match t
       case Moved(count) => 0 < count <= Offer(data, w)
       case Broke(error) => error != NoError
  }

  /** The bytes of `data` from `start` on, as far as they exist. */
  function Take(data: seq<byte>, start: nat, count: nat): seq<byte> {
    if start <= |data| then if start + count <= |data| then data[start..start + count] else data[start..] else []
  }

  function After(data: seq<byte>, w: Write, t: Transfer): Write {
    match t
    case Moved(count) => Write(w.wire + Take(data, w.transferred, count), w.transferred + count, NoError)
    case Broke(error) => w.(error := error)
  }

  /** The operation over the given transfers, or `None` when one of them cannot happen. */
  function Run(data: seq<byte>, transfers: seq<Transfer>): Option<Write> {
    if transfers == [] then Some(Write([], 0, NoError))
    else
      var last := transfers[|transfers| - 1];
      match Run(data, transfers[..|transfers| - 1])
      case None => None
      case Some(w) => if Possible(data, w, last) then Some(After(data, w, last)) else None
  }

  /** The wire carries exactly the first bytes of the data, once and in order. */
  predicate InOrder(data: seq<byte>, w: Write) {
    w.transferred <= |data| && w.wire == data[..w.transferred]
  }

  lemma OfferInOrder(data: seq<byte>, w: Write)
    requires |data| < TWO_TO_THE_32 && InOrder(data, w)
    ensures Offer(data, w) == if w.error == NoError then |data| - w.transferred else 0
  {
    NoWrap(|data| - w.transferred);
  }

  lemma StepInOrder(data: seq<byte>, w: Write, t: Transfer)
    requires |data| < TWO_TO_THE_32 && InOrder(data, w) && Possible(data, w, t)
    ensures InOrder(data, After(data, w, t))
  {
    OfferInOrder(data, w);
    if t.Moved? {
      assert data[..w.transferred] + data[w.transferred..w.transferred + t.count] == data[..w.transferred + t.count];
    }
  }

  lemma {:induction false} RunInOrder(data: seq<byte>, transfers: seq<Transfer>)
    requires |data| < TWO_TO_THE_32 && Run(data, transfers).Some?
    ensures InOrder(data, Run(data, transfers).value)
    decreases |transfers|
  {
    if transfers == [] {
    } else {
      var front := transfers[..|transfers| - 1];
      RunInOrder(data, front);
      StepInOrder(data, Run(data, front).value, transfers[|transfers| - 1]);
    }
  }

  /**
   * At every point the difference has not wrapped around, the wire carries exactly the first bytes of the
   * data, once and in order, and the operation ends exactly when all of them were sent or a write failed.
   */
  lemma {:induction false} WritesInOrder(data: seq<byte>, transfers: seq<Transfer>)
    requires |data| < TWO_TO_THE_32 && Run(data, transfers).Some?
    ensures var w := Run(data, transfers).value;
            && InOrder(data, w)
            && Offer(data, w) == (if w.error == NoError then |data| - w.transferred else 0)
            && (Offer(data, w) == 0 <==> w.error != NoError || w.wire == data)
  {
    RunInOrder(data, transfers);
    OfferInOrder(data, Run(data, transfers).value);
  }

  /** A failure is final, and it is the only one: no transfer follows it. */
  lemma {:induction false} FailureIsLast(data: seq<byte>, transfers: seq<Transfer>, i: nat)
    requires Run(data, transfers).Some? && i < |transfers| && transfers[i].Broke?
    ensures i == |transfers| - 1 && Run(data, transfers).value.error == transfers[i].error
    decreases |transfers|
  {
    if i < |transfers| - 1 {
      FailureIsLast(data, transfers[..|transfers| - 1], i);
    }
  }
}
