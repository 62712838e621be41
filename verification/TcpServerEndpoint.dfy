/** The connection table of the TCP server as one thread changes it, with its loops over the table. */
module TcpServerEndpoint {
  import opened Common
  import opened TcpServerConnection
  import opened ReceiveWindow

  /** No connection has two keys. */
  ghost predicate Unique(table: map<nat, Connection>) {
    forall p <- table, q <- table :: table[p] == table[q] ==> p == q
  }

  /** The table without a connection, whatever its keys. */
  ghost function Without(table: map<nat, Connection>, c: Connection): map<nat, Connection> {
    map p | p in table && table[p] != c :: table[p]
  }

  class Server {
    var acceptorOpen: bool
    var connections: map<nat, Connection>

    /** Each key is its connection's `remote_`, so that no connection has two keys. */
    ghost predicate Valid()
      reads this, connections.Values
    {
      forall peer <- connections :: connections[peer].remote == Some(peer)
    }

    constructor ()
      ensures Valid() && acceptorOpen && connections == map[]
    {
      acceptorOpen, connections := true, map[];
    }

    /**
     * The scan stops at the first match.  That is enough: in a valid table it removes the connection
     * completely and touches no other entry.
     */
    method RemoveConnection(c: Connection)
      requires Valid()
      modifies this`connections
      ensures Valid()
      ensures connections == Without(old(connections), c)
    {
      assert Unique(connections);
      var table := connections;
      var ahead := table.Keys;
      while ahead != {}
        invariant connections == table && ahead <= table.Keys
        invariant forall p <- table :: p !in ahead ==> table[p] != c
        decreases ahead
      {
        var p :| p in ahead;
        if table[p] == c {
          connections := connections - {p};
          assert connections == Without(table, c);
          return;
        }
        ahead := ahead - {p};
      }
      assert connections == Without(table, c);
    }

    /** Closes the acceptor and every connection of the table, then empties the table. */
    method Stop()
      requires Valid()
      modifies this, connections.Values
      ensures Valid() && !acceptorOpen && connections == map[]
      ensures forall c <- old(connections).Values :: !c.socketOpen
      ensures forall c <- old(connections).Values :: c.remote == old(c.remote) && c.delivered == old(c.delivered)
    {
      if acceptorOpen {
        acceptorOpen := false;
      }
      var ahead := connections.Keys;
      while ahead != {}
        invariant connections == old(connections) && ahead <= connections.Keys && !acceptorOpen
        invariant forall p <- connections :: p !in ahead ==> !connections[p].socketOpen
        invariant forall c <- connections.Values :: c.remote == old(c.remote) && c.delivered == old(c.delivered)
        decreases ahead
      {
        var p :| p in ahead;
        assert connections[p] in connections.Values;
        connections[p].Stop();
        ahead := ahead - {p};
      }
      connections := map[];
    }

    /** A failed write: the connection is closed and leaves the table, and no other connection is touched. */
    method StopAndRemoveConnection(c: Connection)
      requires Valid()
      modifies this`connections, c`socketOpen
      ensures Valid() && !c.socketOpen
      ensures connections == Without(old(connections), c) && c !in connections.Values
    {
      c.Stop();
      RemoveConnection(c);
    }

    /**
     * A successful accept: the connection gets its remote endpoint and, if its options could be set, is
     * entered under it, displacing an older connection of the same peer, and starts to read; the first read
     * cannot fail for want of memory.
     */
    method Enter(c: Connection, peer: nat, configured: bool, allocationFails: bool)
      requires Valid() && c !in connections.Values
      requires c.Valid() && c.Ready() && c.Abs() == Buffer([], c.cfg.initial, 0, 0)
      requires c.chunks == [] && c.window == None
      modifies this`connections, c, c.recvBuffer, c.recvBuffer.data
      ensures Valid() && c.Valid() && c.remote == Some(peer)
      ensures connections == if configured then old(connections)[peer := c] else old(connections)
      ensures c.socketOpen == old(c.socketOpen)
      ensures c.window == if configured && c.socketOpen then Some(c.cfg.initial) else None
    {
      c.SetRemoteInfo(peer);
      if configured {
        connections := connections[peer := c];
        c.Start(allocationFails);
      }
    }
  }
}
