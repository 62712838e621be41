/** What the last write of a history leaves behind. */
module History {
  import opened Common

  /**
   * Of the first `k` writes the last one gave `v`, or there was none and `v` is what was there before; `write`
   * says what each entry of a history writes, if anything.
   */
  ghost predicate LastWritten<V(!new)>(write: nat -> Option<V>, k: nat, initial: V, v: V) {
    || (exists i :: 0 <= i < k && write(i) == Some(v) && forall j :: i < j < k ==> write(j) == None)
    || (v == initial && forall j :: 0 <= j < k ==> write(j) == None)
  }

  lemma LastWrittenStep<V(!new)>(write: nat -> Option<V>, k: nat, initial: V, v: V)
    ensures LastWritten(write, k + 1, initial, v)
       <==> if write(k).Some? then write(k) == Some(v) else LastWritten(write, k, initial, v)
  {
    if write(k) == Some(v) {
      assert LastWritten(write, k + 1, initial, v);
    } else if write(k).None? {
      if LastWritten(write, k, initial, v) && !(v == initial && forall j :: 0 <= j < k ==> write(j) == None) {
        var i :| 0 <= i < k && write(i) == Some(v) && forall j :: i < j < k ==> write(j) == None;
        assert forall j :: i < j < k + 1 ==> write(j) == None;
      }
    }
  }
}
