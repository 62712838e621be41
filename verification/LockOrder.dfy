/** Why threads that take locks in one order cannot all be stuck. */
module LockOrder {

  /** What a thread does next. */
  datatype Intent<L> = Finished | Acquires(lock: L) | Runs

  predicate CanGoOn<L>(owner: map<L, nat>, threads: seq<Intent<L>>, t: nat) {
    t < |threads| && !threads[t].Finished? && (threads[t].Acquires? ==> threads[t].lock !in owner)
  }

  /** Owners are unfinished threads, and they only ever wait for a lock of higher rank than those they hold. */
  ghost predicate Ordered<L>(owner: map<L, nat>, threads: seq<Intent<L>>, rank: L -> nat) {
    forall l <- owner ::
      && owner[l] < |threads|
      && !threads[owner[l]].Finished?
      && (threads[owner[l]].Acquires? ==> rank(l) < rank(threads[owner[l]].lock))
  }

  /** As long as some thread is unfinished, following the owners upwards leads to one that can go on. */
  lemma {:induction false} SomeThreadGoesOn<L>(owner: map<L, nat>, threads: seq<Intent<L>>,
                                                 rank: L -> nat, top: nat, t: nat)
    returns (u: nat)
    requires Ordered(owner, threads, rank)
    requires forall l: L :: rank(l) <= top
    requires t < |threads| && !threads[t].Finished?
    ensures CanGoOn(owner, threads, u)
    decreases if threads[t].Acquires? then top - rank(threads[t].lock) else 0
  {
    if CanGoOn(owner, threads, t) {
      u := t;
    } else {
      var holder := owner[threads[t].lock];
      if CanGoOn(owner, threads, holder) {
        u := holder;
      } else {
        u := SomeThreadGoesOn(owner, threads, rank, top, holder);
      }
    }
  }
}
