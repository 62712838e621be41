/**
 * The `std::vector` behind a receive buffer, with the one assumption the endpoints rely on: allocation is
 * exact, so that `reserve` and `shrink_to_fit` leave precisely the capacity asked for.
 */
module ByteVector {
  import opened Common

  class Vector {
    var data: array<byte>
    var size: nat

    ghost predicate Valid()
      reads this
    {
      size <= data.Length
    }

    ghost function Contents(): seq<byte>
      reads this, data
      requires Valid()
    {
      data[..size]
    }

    function Capacity(): nat
      reads this
    {
      data.Length
    }

    constructor (n: nat)
      ensures Valid() && fresh(data)
      ensures Contents() == seq(n, _ => 0) && Capacity() == n
    {
      data := new byte[n](_ => 0);
      size := n;
    }

    method Reserve(n: nat)
      requires Valid()
      modifies this
      ensures Valid() && (data == old(data) || fresh(data))
      ensures Contents() == old(Contents())
      ensures Capacity() == if n > old(Capacity()) then n else old(Capacity())
    {
      if n > data.Length {
        Reallocate(n);
      }
    }

    /** Cuts the contents to `n` bytes, or pads them with zeros up to the capacity reserved before. */
    method Resize(n: nat)
      requires Valid() && n <= Capacity()
      modifies this, data
      ensures Valid() && data == old(data)
      ensures Contents() == if n <= old(size) then old(Contents())[..n]
                            else old(Contents()) + seq(n - old(size), _ => 0)
    {
      var i := size;
      while i < n
        invariant data == old(data) && size == old(size)
        invariant data[..size] == old(data[..size])
        invariant i <= n || i == size
        invariant forall k :: size <= k < i ==> data[k] == 0
      {
        data[i] := 0;
        i := i + 1;
      }
      size := n;
    }

    method ShrinkToFit()
      requires Valid()
      modifies this
      ensures Valid() && (data == old(data) || fresh(data))
      ensures Contents() == old(Contents()) && Capacity() == size
    {
      if size < data.Length {
        Reallocate(size);
      }
    }

    method Clear()
      requires Valid()
      modifies this`size
      ensures Valid() && Contents() == []
    {
      size := 0;
    }

    method Reallocate(n: nat)
      requires Valid() && size <= n
      modifies this`data
      ensures Valid() && fresh(data) && Capacity() == n
      ensures Contents() == old(Contents())
    {
      var bigger := new byte[n](_ => 0);
      for i := 0 to size
        invariant data == old(data) && size == old(size)
        invariant bigger[..i] == data[..i]
      {
        bigger[i] := data[i];
      }
      data := bigger;
    }
  }
}
