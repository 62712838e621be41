/**
 * The use count of an endpoint: an atomic 32-bit counter whose decrement saturates at zero.  Construction is
 * taken to set it to zero.
 */
module UseCount {
  import opened Common

  datatype Operation = Increment | Decrement

  /** The counter after the given operations. */
  function Count(ops: seq<Operation>): uint32 {
    if ops == [] then 0
    else
      var before := Count(ops[..|ops| - 1]);
      if ops[|ops| - 1].Increment? then (before + 1) % TWO_TO_THE_32
      else if before > 0 then before - 1
      else 0
  }

  /** Increments minus decrements. */
  function Sum(ops: seq<Operation>): int {
    if ops == [] then 0 else Sum(ops[..|ops| - 1]) + if ops[|ops| - 1].Increment? then 1 else -1
  }

  /** The least such difference over all prefixes. */
  function Lowest(ops: seq<Operation>): int {
    if ops == [] then 0
    else if Sum(ops) < Lowest(ops[..|ops| - 1]) then Sum(ops)
    else Lowest(ops[..|ops| - 1])
  }

  /** How far the difference has risen above its lowest point. */
  function Height(ops: seq<Operation>): int {
    Sum(ops) - Lowest(ops)
  }

  lemma {:induction false} LowestIsMinimum(ops: seq<Operation>)
    ensures forall k :: 0 <= k <= |ops| ==> Lowest(ops) <= Sum(ops[..k])
    ensures exists k :: 0 <= k <= |ops| && Lowest(ops) == Sum(ops[..k])
  {
    assert ops[..|ops|] == ops;
    if ops == [] {
    } else {
      var front := ops[..|ops| - 1];
      LowestIsMinimum(front);
      assert forall k :: 0 <= k <= |front| ==> front[..k] == ops[..k];
      var j :| 0 <= j <= |front| && Lowest(front) == Sum(front[..j]);
      assert front[..j] == ops[..j];
    }
  }

  /** The counter never misses the height as long as the height fits 32 bits. */
  ghost predicate Fits(ops: seq<Operation>) {
    forall k :: 0 <= k <= |ops| ==> Height(ops[..k]) < TWO_TO_THE_32
  }

  lemma {:induction false} CountIsHeight(ops: seq<Operation>)
    requires Fits(ops)
    ensures Count(ops) == Height(ops)
  {
    if ops == [] {
    } else {
      var front := ops[..|ops| - 1];
      assert forall k :: 0 <= k <= |front| ==> front[..k] == ops[..k];
      assert ops[..|ops|] == ops;
      CountIsHeight(front);
    }
  }

  /**
   * Closed form: the counter equals the height after every operation exactly when the height never reaches
   * the width of the counter.
   */
  lemma ClosedForm(ops: seq<Operation>)
    ensures (forall k :: 0 <= k <= |ops| ==> Count(ops[..k]) == Height(ops[..k])) <==> Fits(ops)
  {
    if Fits(ops) {
      forall k | 0 <= k <= |ops| ensures Count(ops[..k]) == Height(ops[..k]) {
        forall j | 0 <= j <= k ensures Height(ops[..k][..j]) < TWO_TO_THE_32 {
          assert ops[..k][..j] == ops[..j];
        }
        CountIsHeight(ops[..k]);
      }
    }
  }

  /** Balanced use: without a decrement too many, the counter is increments minus decrements. */
  lemma BalancedCount(ops: seq<Operation>)
    requires forall k :: 0 <= k <= |ops| ==> 0 <= Sum(ops[..k]) < TWO_TO_THE_32
    ensures Count(ops) == Sum(ops)
  {
    forall k | 0 <= k <= |ops| ensures Lowest(ops[..k]) == 0 {
      var prefix := ops[..k];
      LowestIsMinimum(prefix);
      assert prefix[..0] == [];
      var j :| 0 <= j <= |prefix| && Lowest(prefix) == Sum(prefix[..j]);
      assert prefix[..j] == ops[..j];
    }
    CountIsHeight(ops);
    assert ops[..|ops|] == ops;
  }

  /** Past the width of the counter the closed form fails: enough increments bring it back to zero. */
  lemma {:induction false} IncrementsWrap(n: nat)
    ensures Count(seq(n, _ => Increment)) == n % TWO_TO_THE_32
    ensures Height(seq(n, _ => Increment)) == n && Lowest(seq(n, _ => Increment)) == 0
  {
    if n == 0 {
    } else {
      IncrementsWrap(n - 1);
      assert seq(n, _ => Increment)[..n - 1] == seq(n - 1, _ => Increment);
    }
  }

  /** An endpoint as far as the registry deals with it. */
  class Endpoint {
    var useCount: uint32
    var started: bool
    ghost var operations: seq<Operation>

    ghost predicate Valid()
      reads this
    {
      useCount == Count(operations)
    }

    constructor ()
      ensures Valid() && operations == [] && useCount == 0 && !started
    {
      useCount, started, operations := 0, false, [];
    }

    /** Starting may throw half-way; the endpoint is then left not started. */
    method Start(throws: bool)
      modifies this`started
      ensures started == !throws
    {
      started := !throws;
    }

    method IncrementUseCount()
      requires Valid()
      modifies this`useCount, this`operations
      ensures Valid() && operations == old(operations) + [Increment]
    {
      useCount := (useCount + 1) % TWO_TO_THE_32;
      operations := operations + [Increment];
    }

    method DecrementUseCount()
      requires Valid()
      modifies this`useCount, this`operations
      ensures Valid() && operations == old(operations) + [Decrement]
    {
      if useCount > 0 {
        useCount := useCount - 1;
      }
      operations := operations + [Decrement];
    }
  }
}
