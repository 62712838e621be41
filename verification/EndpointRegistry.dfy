/**
 * The endpoint manager: two tables of endpoints, nested by address, port and reliability, whose inner maps are
 * pruned when they become empty.  The nested table is shown to be a flat map in canonical form, and the tables
 * of a manager to hold, at any time, what the history of successful calls says.
 */
module EndpointRegistry {
  import opened Common
  import opened UseCount

  datatype Key = Key(ip: string, port: nat, reliable: bool)

  type Nested<T> = map<string, map<nat, map<bool, T>>>

  predicate Present<T>(n: Nested<T>, k: Key) {
    k.ip in n && k.port in n[k.ip] && k.reliable in n[k.ip][k.port]
  }

  function Find<T>(n: Nested<T>, k: Key): Option<T> {
    if Present(n, k) then Some(n[k.ip][k.port][k.reliable]) else None
  }

  /** The ports known for an address, none when the address is new. */
  function Ports<T>(n: Nested<T>, ip: string): map<nat, map<bool, T>> {
    if ip in n then n[ip] else map[]
  }

  function Kinds<T>(ports: map<nat, map<bool, T>>, port: nat): map<bool, T> {
    if port in ports then ports[port] else map[]
  }

  function Store<T>(n: Nested<T>, k: Key, v: T): Nested<T> {
    var ports := Ports(n, k.ip);
    n[k.ip := ports[k.port := Kinds(ports, k.port)[k.reliable := v]]]
  }

  /** Takes a key out, and with it the inner maps that this leaves empty. */
  function Erase<T>(n: Nested<T>, k: Key): Nested<T> {
    if !Present(n, k) then n
    else
      var kinds := n[k.ip][k.port] - {k.reliable};
      var ports := if kinds == map[] then n[k.ip] - {k.port} else n[k.ip][k.port := kinds];
      if ports == map[] then n - {k.ip} else n[k.ip := ports]
  }

  ghost predicate NoEmptyInner<T>(n: Nested<T>) {
    forall ip <- n :: n[ip] != map[] && forall port <- n[ip] :: n[ip][port] != map[]
  }

  /** The flat map that a nested table stands for. */
  ghost function Flat<T>(n: Nested<T>): imap<Key, T> {
    imap k: Key | Find(n, k).Some? :: Find(n, k).value
  }

  /** A flat map that answers every lookup like the table is the one it stands for. */
  lemma IsFlat<T>(n: Nested<T>, flat: imap<Key, T>)
    requires forall j: Key :: Find(n, j) == if j in flat then Some(flat[j]) else None
    ensures Flat(n) == flat
  {
    forall j: Key ensures j in Flat(n) <==> j in flat {
      assert Find(n, j) == if j in flat then Some(flat[j]) else None;
    }
  }

  lemma StoreFinds<T>(n: Nested<T>, k: Key, v: T, j: Key)
    ensures Find(Store(n, k, v), j) == if j == k then Some(v) else Find(n, j)
  {
  }

  lemma StoreRefines<T>(n: Nested<T>, k: Key, v: T)
    ensures Flat(Store(n, k, v)) == Flat(n)[k := v]
    ensures NoEmptyInner(n) ==> NoEmptyInner(Store(n, k, v))
  {
    forall j: Key ensures Find(Store(n, k, v), j) == if j == k then Some(v) else Find(n, j) {
      StoreFinds(n, k, v, j);
    }
    IsFlat(Store(n, k, v), Flat(n)[k := v]);
    if NoEmptyInner(n) {
      StoreKeepsPruned(n, k, v);
    }
  }

  lemma StoreKeepsPruned<T>(n: Nested<T>, k: Key, v: T)
    requires NoEmptyInner(n)
    ensures NoEmptyInner(Store(n, k, v))
  {
    assert k.reliable in Kinds(Ports(n, k.ip), k.port)[k.reliable := v];
    assert k.port in Store(n, k, v)[k.ip];
  }

  lemma EraseRefines<T>(n: Nested<T>, k: Key)
    ensures Flat(Erase(n, k)) == Flat(n) - {k}
    ensures NoEmptyInner(n) ==> NoEmptyInner(Erase(n, k))
  {
    forall j: Key ensures Find(Erase(n, k), j) == if j == k then None else Find(n, j) {
      EraseFinds(n, k, j);
    }
    IsFlat(Erase(n, k), Flat(n) - {k});
    if NoEmptyInner(n) {
      EraseKeepsPruned(n, k);
    }
  }

  lemma EraseKeepsPruned<T>(n: Nested<T>, k: Key)
    requires NoEmptyInner(n)
    ensures NoEmptyInner(Erase(n, k))
  {
  }

  lemma EraseFinds<T>(n: Nested<T>, k: Key, j: Key)
    ensures Find(Erase(n, k), j) == if j == k then None else Find(n, j)
  {
    if Present(n, k) && Present(n, j) && j.ip == k.ip && j != k {
      var kinds := n[k.ip][k.port] - {k.reliable};
      var ports := if kinds == map[] then n[k.ip] - {k.port} else n[k.ip][k.port := kinds];
      if j.port == k.port {
        assert j.reliable in kinds;
      }
      assert j.port in ports;
    }
  }

  /** Both tables answer every lookup alike. */
  ghost predicate SameLookups<T>(n: Nested<T>, m: Nested<T>) {
    forall k: Key :: Find(n, k) == Find(m, k)
  }

  lemma FlatDeterminesLookups<T>(n: Nested<T>, m: Nested<T>)
    requires Flat(n) == Flat(m)
    ensures SameLookups(n, m)
  {
    forall k: Key ensures Find(n, k) == Find(m, k) {
      assert Find(n, k).Some? <==> k in Flat(n);
      assert Find(m, k).Some? <==> k in Flat(m);
    }
  }

  lemma SomePort<V>(m: map<nat, V>)
    requires m != map[]
    ensures exists port :: port in m
  {
    var port :| port in m;
  }

  lemma NoKind<V>(m: map<bool, V>)
    requires true !in m && false !in m
    ensures m == map[]
  {
    forall reliable: bool ensures reliable !in m {
      if reliable {
      } else {
      }
    }
  }

  lemma SomeKind<V>(m: map<bool, V>)
    requires m != map[]
    ensures true in m || false in m
  {
    if true !in m && false !in m {
      NoKind(m);
      assert false;
    }
  }

  /** Pruning makes the table canonical: two pruned tables that stand for the same flat map are the same. */
  lemma Canonical<T>(n: Nested<T>, m: Nested<T>)
    requires NoEmptyInner(n) && NoEmptyInner(m) && Flat(n) == Flat(m)
    ensures n == m
  {
    FlatDeterminesLookups(n, m);
    SameLookupsSameTable(n, m);
  }

  lemma SameLookupsSameTable<T>(n: Nested<T>, m: Nested<T>)
    requires NoEmptyInner(n) && NoEmptyInner(m) && SameLookups(n, m)
    ensures n == m
  {
    forall ip: string ensures ip in n <==> ip in m
                      ensures ip in n && ip in m ==> n[ip] == m[ip] {
      if ip in n {
        SameAddress(n, m, ip);
      }
      if ip in m {
        SameAddress(m, n, ip);
      }
    }
  }

  lemma SameAddress<T>(n: Nested<T>, m: Nested<T>, ip: string)
    requires NoEmptyInner(n) && NoEmptyInner(m) && SameLookups(n, m)
    requires ip in n
    ensures ip in m && n[ip] == m[ip]
  {
    SomePort(n[ip]);
    var some :| some in n[ip];
    SamePort(n, m, ip, some);
    forall port: nat ensures port in n[ip] <==> port in m[ip]
                     ensures port in n[ip] && port in m[ip] ==> n[ip][port] == m[ip][port] {
      if port in n[ip] {
        SamePort(n, m, ip, port);
      }
      if port in m[ip] {
        SamePort(m, n, ip, port);
      }
    }
  }

  lemma SamePort<T>(n: Nested<T>, m: Nested<T>, ip: string, port: nat)
    requires NoEmptyInner(n) && NoEmptyInner(m) && SameLookups(n, m)
    requires ip in n && port in n[ip]
    ensures ip in m && port in m[ip] && n[ip][port] == m[ip][port]
  {
    SomeKind(n[ip][port]);
    var some := true in n[ip][port];
    assert Find(n, Key(ip, port, some)) == Find(m, Key(ip, port, some));
    forall reliable: bool
      ensures reliable in n[ip][port] <==> reliable in m[ip][port]
      ensures reliable in n[ip][port] ==> n[ip][port][reliable] == m[ip][port][reliable]
    {
      assert Find(n, Key(ip, port, reliable)) == Find(m, Key(ip, port, reliable));
    }
  }

  /** Removing what was just stored under a new key restores the very same table. */
  lemma EraseUndoesStore<T>(n: Nested<T>, k: Key, v: T)
    requires NoEmptyInner(n) && !Present(n, k)
    ensures Erase(Store(n, k, v), k) == n
  {
    StoreKeepsPruned(n, k, v);
    EraseKeepsPruned(Store(n, k, v), k);
    forall j: Key ensures Find(Erase(Store(n, k, v), k), j) == Find(n, j) {
      StoreFinds(n, k, v, j);
      EraseFinds(Store(n, k, v), k, j);
    }
    SameLookupsSameTable(Erase(Store(n, k, v), k), n);
  }

  // ---------------------------------------------------------------- histories

  datatype Side = Server | Client

  /** What successful calls did; a call that stores or removes nothing leaves no event. */
  datatype Event<T> = Stored(side: Side, key: Key, endpoint: T) | Removed(side: Side, key: Key)

  function AfterEvent<T>(before: Nested<T>, side: Side, event: Event<T>): Nested<T> {
    if event.side != side then before
    else if event.Stored? then Store(before, event.key, event.endpoint)
    else Erase(before, event.key)
  }

  /** The table of one side after a history. */
  function Table<T>(history: seq<Event<T>>, side: Side): Nested<T> {
    if history == [] then map[]
    else AfterEvent(Table(history[..|history| - 1], side), side, history[|history| - 1])
  }

  /** Event `i` stored `v` under the key, and nothing stored or removed it afterwards. */
  ghost predicate LatestStore<T>(history: seq<Event<T>>, side: Side, k: Key, i: nat, v: T) {
    && i < |history|
    && history[i] == Stored(side, k, v)
    && forall j :: i < j < |history| ==> history[j].side != side || history[j].key != k
  }

  /** No event stored the key without a later one removing it. */
  ghost predicate NoStore<T>(history: seq<Event<T>>, side: Side, k: Key) {
    forall i :: 0 <= i < |history| && history[i].Stored? && history[i].side == side && history[i].key == k ==>
                  exists j :: i < j < |history| && history[j] == Removed(side, k)
  }

  /** What a lookup should find, in terms of the history alone. */
  ghost predicate Explains<T>(history: seq<Event<T>>, side: Side, k: Key, found: Option<T>) {
    if found.Some? then exists i: nat :: LatestStore(history, side, k, i, found.value)
    else NoStore(history, side, k)
  }

  /**
   * Over whole histories: a lookup gives the endpoint of the latest store of that key on that side when no
   * removal of it came later, and nothing when there is none.  Events of other keys and of the other side do
   * not matter, and the table never has an empty inner map.
   */
  lemma {:induction false} FindIsLatestStore<T>(history: seq<Event<T>>, side: Side, k: Key)
    ensures NoEmptyInner(Table(history, side))
    ensures Explains(history, side, k, Find(Table(history, side), k))
  {
    if history == [] {
    } else {
      var front, last := history[..|history| - 1], history[|history| - 1];
      FindIsLatestStore(front, side, k);
      assert history == front + [last];
      if last.side == side {
        TableStep(front, last, k);
      }
      if last.side == side && last.key == k {
        OwnEvent(front, last);
      } else {
        OtherEvent(front, last, side, k, Find(Table(front, side), k));
      }
    }
  }

  lemma OwnEvent<T>(front: seq<Event<T>>, last: Event<T>)
    ensures Explains(front + [last], last.side, last.key, if last.Stored? then Some(last.endpoint) else None)
  {
    var history := front + [last];
    assert history[|front|] == last;
    if last.Stored? {
      assert LatestStore(history, last.side, last.key, |front|, last.endpoint);
    }
  }

  lemma OtherEvent<T>(front: seq<Event<T>>, last: Event<T>, side: Side, k: Key, found: Option<T>)
    requires last.side != side || last.key != k
    requires Explains(front, side, k, found)
    ensures Explains(front + [last], side, k, found)
  {
    var history := front + [last];
    if found.Some? {
      var i: nat :| LatestStore(front, side, k, i, found.value);
      assert LatestStore(history, side, k, i, found.value);
    } else {
      forall i | 0 <= i < |history| && history[i].Stored? && history[i].side == side && history[i].key == k
        ensures exists j :: i < j < |history| && history[j] == Removed(side, k)
      {
        assert front[i].Stored?;
        var j :| i < j < |front| && front[j] == Removed(side, k);
        assert history[j] == Removed(side, k);
      }
    }
  }

  lemma TableSnoc<T>(front: seq<Event<T>>, last: Event<T>, side: Side)
    ensures Table(front + [last], side) == AfterEvent(Table(front, side), side, last)
  {
    assert (front + [last])[..|front + [last]| - 1] == front;
  }

  lemma TableStep<T>(front: seq<Event<T>>, last: Event<T>, k: Key)
    requires NoEmptyInner(Table(front, last.side))
    ensures (front + [last])[..|front|] == front
    ensures NoEmptyInner(Table(front + [last], last.side))
    ensures Find(Table(front + [last], last.side), k)
         == if last.key != k then Find(Table(front, last.side), k)
            else if last.Stored? then Some(last.endpoint)
            else None
  {
    assert (front + [last])[..|front|] == front;
    var before := Table(front, last.side);
    if last.Stored? {
      StoreFinds(before, last.key, last.endpoint, k);
      StoreKeepsPruned(before, last.key, last.endpoint);
    } else {
      EraseFinds(before, last.key, k);
      EraseKeepsPruned(before, last.key);
    }
  }

  // ---------------------------------------------------------------- the manager

  /** How far the construction of an endpoint gets: a bad address or a failing constructor throws. */
  datatype Construction = AddressRejected | ConstructorThrows | Constructed

  /** All endpoints ever stored. */
  ghost function Endpoints(history: seq<Event<Endpoint>>): set<Endpoint> {
    set event <- history | event.Stored? :: event.endpoint
  }

  lemma EndpointsSnoc(history: seq<Event<Endpoint>>, last: Event<Endpoint>)
    ensures Endpoints(history + [last]) == Endpoints(history) + if last.Stored? then {last.endpoint} else {}
  {
    forall e <- Endpoints(history) ensures e in Endpoints(history + [last]) {
      var event :| event in history && event.Stored? && event.endpoint == e;
      assert event in history + [last];
    }
    assert last in history + [last];
  }

  lemma FoundWasStored(history: seq<Event<Endpoint>>, side: Side, k: Key)
    requires Find(Table(history, side), k).Some?
    ensures Find(Table(history, side), k).value in Endpoints(history)
  {
    var found := Find(Table(history, side), k);
    FindIsLatestStore(history, side, k);
    var i: nat :| LatestStore(history, side, k, i, found.value);
    assert history[i] in history;
  }

  /**
   * The gate of a removal in terms of the endpoint's own history: the count is zero exactly when increments
   * minus decrements is at its lowest point.
   */
  lemma UnusedIff(e: Endpoint)
    requires e.Valid()
    ensures Fits(e.operations) ==> (e.useCount == 0 <==> Sum(e.operations) == Lowest(e.operations))
  {
    if Fits(e.operations) {
      CountIsHeight(e.operations);
    }
  }

  class EndpointManager {
    var serverEndpoints: Nested<Endpoint>
    var clientEndpoints: Nested<Endpoint>
    ghost var history: seq<Event<Endpoint>>

    /** The tables are those of the history, and the use counts of all endpoints follow their operations. */
    ghost predicate Valid()
      reads this, Endpoints(history)
    {
      && serverEndpoints == Table(history, Server) && clientEndpoints == Table(history, Client)
      && forall e <- Endpoints(history) :: e.Valid()
    }

    constructor ()
      ensures Valid() && history == []
    {
      serverEndpoints, clientEndpoints, history := map[], map[], [];
    }

    /** Adds an event to the history. */
    ghost method Record(event: Event<Endpoint>)
      modifies this`history
      ensures history == old(history) + [event]
      ensures Endpoints(history) == Endpoints(old(history)) + if event.Stored? then {event.endpoint} else {}
      ensures forall side :: Table(history, side) == AfterEvent(Table(old(history), side), side, event)
    {
      EndpointsSnoc(history, event);
      TableSnoc(history, event, Server);
      TableSnoc(history, event, Client);
      history := history + [event];
    }

    /** Stores an endpoint in the table of its side. */
    method Enter(side: Side, key: Key, endpoint: Endpoint)
      requires Valid() && endpoint.Valid()
      modifies this
      ensures Valid() && history == old(history) + [Stored(side, key, endpoint)]
    {
      match side {
        case Server => serverEndpoints := Insert(serverEndpoints, key, endpoint);
        case Client => clientEndpoints := Insert(clientEndpoints, key, endpoint);
      }
      Record(Stored(side, key, endpoint));
    }

    /**
     * A constructed endpoint is stored and returned even when starting it throws; a construction that fails
     * stores and returns nothing.
     */
    method CreateServerEndpoint(ip: string, port: nat, reliable: bool, construction: Construction, startThrows: bool)
      returns (endpoint: Endpoint?)
      requires Valid()
      modifies this
      ensures Valid()
      ensures construction != Constructed ==> endpoint == null && history == old(history)
      ensures construction == Constructed ==>
                && endpoint != null && fresh(endpoint)
                && endpoint.Valid() && endpoint.useCount == 0 && endpoint.started == !startThrows
                && history == old(history) + [Stored(Server, Key(ip, port, reliable), endpoint)]
    {
      endpoint := null;
      if construction == Constructed {
        endpoint := new Endpoint();
        Enter(Server, Key(ip, port, reliable), endpoint);
        endpoint.Start(startThrows);
      }
    }

    /** As for servers, except that an unreliable client is never constructed. */
    method CreateClientEndpoint(ip: string, port: nat, reliable: bool, construction: Construction, startThrows: bool)
      returns (endpoint: Endpoint?)
      requires Valid()
      modifies this
      ensures Valid()
      ensures construction != Constructed || !reliable ==> endpoint == null && history == old(history)
      ensures construction == Constructed && reliable ==>
                && endpoint != null && fresh(endpoint)
                && endpoint.Valid() && endpoint.useCount == 0 && endpoint.started == !startThrows
                && history == old(history) + [Stored(Client, Key(ip, port, reliable), endpoint)]
    {
      endpoint := null;
      if construction == Constructed {
        if reliable {
          endpoint := new Endpoint();
        }
        if endpoint != null {
          Enter(Client, Key(ip, port, reliable), endpoint);
          endpoint.Start(startThrows);
        }
      }
    }

    method FindServerEndpoint(ip: string, port: nat, reliable: bool) returns (endpoint: Option<Endpoint>)
      requires Valid()
      ensures endpoint == Find(Table(history, Server), Key(ip, port, reliable))
    {
      endpoint := Lookup(serverEndpoints, ip, port, reliable);
    }

    method FindClientEndpoint(ip: string, port: nat, reliable: bool) returns (endpoint: Option<Endpoint>)
      requires Valid()
      ensures endpoint == Find(Table(history, Client), Key(ip, port, reliable))
    {
      endpoint := Lookup(clientEndpoints, ip, port, reliable);
    }

    /**
     * Removes a key exactly when it is there and its endpoint is not in use, which is when increments minus
     * decrements is at its lowest point; otherwise nothing changes.
     */
    method RemoveServerEndpoint(ip: string, port: nat, reliable: bool) returns (removed: bool)
      requires Valid()
      modifies this
      ensures Valid()
      ensures var found := Find(Table(old(history), Server), Key(ip, port, reliable));
              && (removed <==> found.Some? && found.value.useCount == 0)
              && (found.Some? && Fits(found.value.operations) ==>
                    (removed <==> Sum(found.value.operations) == Lowest(found.value.operations)))
      ensures history == if removed then old(history) + [Removed(Server, Key(ip, port, reliable))] else old(history)
    {
      if Find(serverEndpoints, Key(ip, port, reliable)).Some? {
        FoundWasStored(history, Server, Key(ip, port, reliable));
        UnusedIff(Find(serverEndpoints, Key(ip, port, reliable)).value);
      }
      serverEndpoints, removed := RemoveUnused(serverEndpoints, ip, port, reliable);
      if removed {
        Record(Removed(Server, Key(ip, port, reliable)));
      }
    }

    method RemoveClientEndpoint(ip: string, port: nat, reliable: bool) returns (removed: bool)
      requires Valid()
      modifies this
      ensures Valid()
      ensures var found := Find(Table(old(history), Client), Key(ip, port, reliable));
              && (removed <==> found.Some? && found.value.useCount == 0)
              && (found.Some? && Fits(found.value.operations) ==>
                    (removed <==> Sum(found.value.operations) == Lowest(found.value.operations)))
      ensures history == if removed then old(history) + [Removed(Client, Key(ip, port, reliable))] else old(history)
    {
      if Find(clientEndpoints, Key(ip, port, reliable)).Some? {
        FoundWasStored(history, Client, Key(ip, port, reliable));
        UnusedIff(Find(clientEndpoints, Key(ip, port, reliable)).value);
      }
      clientEndpoints, removed := RemoveUnused(clientEndpoints, ip, port, reliable);
      if removed {
        Record(Removed(Client, Key(ip, port, reliable)));
      }
    }
  }

  /** `table[ip][port][reliable] = endpoint`, creating the inner maps that are not there yet. */
  method Insert<T>(table: Nested<T>, k: Key, endpoint: T) returns (table': Nested<T>)
    ensures table' == Store(table, k, endpoint)
  {
    var ports: map<nat, map<bool, T>> := map[];
    if k.ip in table {
      ports := table[k.ip];
    }
    var kinds: map<bool, T> := map[];
    if k.port in ports {
      kinds := ports[k.port];
    }
    kinds := kinds[k.reliable := endpoint];
    ports := ports[k.port := kinds];
    table' := table[k.ip := ports];
  }

  method Lookup<T>(table: Nested<T>, ip: string, port: nat, reliable: bool) returns (endpoint: Option<T>)
    ensures endpoint == Find(table, Key(ip, port, reliable))
  {
    endpoint := None;
    if ip in table {
      var ports: map<nat, map<bool, T>> := table[ip];
      if port in ports {
        var kinds := ports[port];
        if reliable in kinds {
          endpoint := Some(kinds[reliable]);
        }
      }
    }
  }

  method RemoveUnused(table: Nested<Endpoint>, ip: string, port: nat, reliable: bool)
    returns (table': Nested<Endpoint>, removed: bool)
    ensures var found := Find(table, Key(ip, port, reliable));
            removed <==> found.Some? && found.value.useCount == 0
    ensures table' == if removed then Erase(table, Key(ip, port, reliable)) else table
  {
    table', removed := table, false;
    if ip in table {
      var ports: map<nat, map<bool, Endpoint>> := table[ip];
      if port in ports {
        var kinds := ports[port];
        if reliable in kinds {
          if kinds[reliable].useCount == 0 {
            removed := true;
            kinds := kinds - {reliable};
            ports := ports[port := kinds];
            if kinds == map[] {
              ports := ports - {port};
              assert ports == table[ip] - {port};
            }
            table' := table[ip := ports];
            if ports == map[] {
              table' := table' - {ip};
              assert table' == table - {ip};
            }
          }
        }
      }
    }
  }
}
