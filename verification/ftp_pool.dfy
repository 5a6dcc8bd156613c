/** `FTPConnectionPool` of `src/core/ftp_manager.py`: a queue of idle
    connections bounded by the pool size, and a counter of the connections
    the pool has opened.  Connections are values with an identity; whether an
    idle connection still answers `NOOP`, and whether opening a new one
    succeeds, are inputs. */
module FtpPool {
  import opened Wrappers

  /** `FTP_CONNECTION_POOL_SIZE` of `config/settings.py`. */
  const DefaultPoolSize := 10

  /** An `FTPConnection`: its identity and its `is_connected` flag. */
  datatype Session = Session(id: nat, connected: bool)

  /** The pool's state: the idle queue (oldest first), `active_connections`,
      and the number of connection attempts, which names the next new
      connection. */
  datatype PoolState = PoolState(idle: seq<Session>, active: int, attempts: nat)

  /** `get_connection` on a pool of `poolSize` in state `s`: the new state
      and the connection handed out.  `alive` tells whether the oldest idle
      connection answers, `connectOk` whether a new connection opens. */
  function Got(s: PoolState, poolSize: int, alive: bool, connectOk: bool): (PoolState, Option<Session>) {
    if s.idle != [] && alive then (s.(idle := s.idle[1..]), Some(s.idle[0]))
    else
      var rest := if s.idle == [] then [] else s.idle[1..];
      if s.active < poolSize then
        if connectOk then (PoolState(rest, s.active + 1, s.attempts + 1), Some(Session(s.attempts, true)))
        else (PoolState(rest, s.active, s.attempts + 1), None)
      else (s.(idle := rest), None)
  }

  /** `return_connection` of `conn` to a pool of `poolSize` in state `s`. */
  function Returned(s: PoolState, poolSize: int, conn: Session): PoolState {
    if !conn.connected then s
    else if poolSize > 0 && |s.idle| >= poolSize then s.(active := s.active - 1)
    else s.(idle := s.idle + [conn])
  }

  /** A request whose connection, if one is handed out, is given back: what
      `list_date_directories` and `list_xml_files` do to the pool. */
  function Used(s: PoolState, poolSize: int, alive: bool, connectOk: bool): PoolState {
    var g := Got(s, poolSize, alive, connectOk);
    if g.1.Some? then Returned(g.0, poolSize, g.1.value) else g.0
  }

  /** The invariant of a pool's state. */
  predicate ValidState(s: PoolState, poolSize: int) {
    s.active <= (if poolSize < 0 then 0 else poolSize)
    && (poolSize > 0 ==> |s.idle| <= poolSize)
    && forall i :: 0 <= i < |s.idle| ==> s.idle[i].connected
  }

  /** A connection used and given back always goes to the back of the idle
      queue: a live idle connection is rotated from the front to the back
      with the counter unchanged, and a new connection joins the back with
      the counter one higher.  The queue is never full at that point. */
  lemma UseAndReturn(s: PoolState, poolSize: int, alive: bool, connectOk: bool)
    requires ValidState(s, poolSize)
    ensures var u := Used(s, poolSize, alive, connectOk);
      ValidState(u, poolSize)
      && (s.idle != [] && alive ==> u == s.(idle := s.idle[1..] + [s.idle[0]]))
      && (!(s.idle != [] && alive) && s.active < poolSize && connectOk ==>
            u == PoolState((if s.idle == [] then [] else s.idle[1..]) + [Session(s.attempts, true)],
                           s.active + 1, s.attempts + 1))
  {
  }

  class ConnectionPool {
    /** `pool_size`, also the `maxsize` of the idle queue. */
    const poolSize: int
    /** The idle queue, oldest first. */
    var idle: seq<Session>
    var activeConnections: int
    /** Connection attempts so far; the next new connection gets this
        identity. */
    var attempts: nat
    /** The connections handed out and not yet given back. */
    ghost var lent: multiset<Session>

    /** The bound on the counter: `pool_size`, or 0 for a pool that can never
        open a connection. */
    function Capacity(): nat {
      if poolSize < 0 then 0 else poolSize
    }

    /** `Queue.full()`: a queue with `maxsize <= 0` is unbounded. */
    predicate Full()
      reads this
    {
      poolSize > 0 && |idle| >= poolSize
    }

    function State(): PoolState
      reads this
    {
      PoolState(idle, activeConnections, attempts)
    }

    ghost predicate Valid()
      reads this
    {
      activeConnections <= Capacity()
      && (poolSize > 0 ==> |idle| <= poolSize)
      && forall i :: 0 <= i < |idle| ==> idle[i].connected
    }

    constructor(poolSize: int)
      ensures this.poolSize == poolSize
      ensures idle == [] && activeConnections == 0 && attempts == 0 && lent == multiset{}
      ensures Valid()
    {
      this.poolSize := poolSize;
      idle := [];
      activeConnections := 0;
      attempts := 0;
      lent := multiset{};
    }

    /** Whether `get_connection` hands out a connection, given whether the
        oldest idle connection answers and whether a new one would open. */
    predicate Grants(alive: bool, connectOk: bool)
      reads this
    {
      (idle != [] && alive) || (activeConnections < poolSize && connectOk)
    }

    /** `get_connection`.  The oldest idle connection is handed out when it is
        alive; a dead one is dropped without adjusting the counter.  Failing
        that, a new connection is opened and counted only while the counter
        is below the pool size. */
    method GetConnection(alive: bool, connectOk: bool) returns (r: Option<Session>)
      requires Valid()
      modifies this
      ensures Valid()
      ensures r.Some? <==> old(Grants(alive, connectOk))
      ensures old(idle) != [] && alive ==>
        r == Some(old(idle)[0]) && idle == old(idle)[1..]
        && activeConnections == old(activeConnections) && attempts == old(attempts)
      ensures !(old(idle) != [] && alive) ==>
        idle == (if old(idle) == [] then [] else old(idle)[1..])
        && (if old(activeConnections) < poolSize then
              attempts == old(attempts) + 1
              && (if connectOk then r == Some(Session(old(attempts), true))
                                    && activeConnections == old(activeConnections) + 1
                  else r == None && activeConnections == old(activeConnections))
            else r == None && activeConnections == old(activeConnections) && attempts == old(attempts))
      ensures r.Some? ==> r.value.connected && lent == old(lent) + multiset{r.value}
      ensures r.None? ==> lent == old(lent)
      ensures (State(), r) == Got(old(State()), poolSize, alive, connectOk)
    {
      if idle != [] {
        var conn := idle[0];
        idle := idle[1..];
        if alive {
          lent := lent + multiset{conn};
          return Some(conn);
        }
        // the dead connection is disconnected and dropped
      }
      if activeConnections < poolSize {
        var conn := Session(attempts, true);
        attempts := attempts + 1;
        if connectOk {
          activeConnections := activeConnections + 1;
          lent := lent + multiset{conn};
          return Some(conn);
        }
      }
      return None;
    }

    /** `return_connection`.  A connected session goes back to the idle queue;
        when the queue is full it is disconnected and the counter decremented.
        A disconnected session is dropped and the counter left alone. */
    method ReturnConnection(conn: Session)
      requires Valid()
      modifies this
      ensures Valid()
      ensures lent == old(lent) - multiset{conn}
      ensures attempts == old(attempts)
      ensures conn.connected && !old(Full()) ==>
        idle == old(idle) + [conn] && activeConnections == old(activeConnections)
      ensures conn.connected && old(Full()) ==>
        idle == old(idle) && activeConnections == old(activeConnections) - 1
      ensures !conn.connected ==>
        idle == old(idle) && activeConnections == old(activeConnections)
      ensures State() == Returned(old(State()), poolSize, conn)
    {
      if conn.connected {
        if Full() {
          activeConnections := activeConnections - 1;
        } else {
          idle := idle + [conn];
        }
      }
      lent := lent - multiset{conn};
    }

    /** `close_all`: disconnect every idle connection and reset the counter,
        although connections handed out may still be in use. */
    method CloseAll()
      requires Valid()
      modifies this
      ensures Valid()
      ensures idle == [] && activeConnections == 0
      ensures attempts == old(attempts) && lent == old(lent)
    {
      while idle != []
        invariant Valid()
        invariant attempts == old(attempts) && lent == old(lent)
        decreases |idle|
      {
        idle := idle[1..];
      }
      activeConnections := 0;
    }
  }

  /** A connection is handed out, given back and later found dead: the pool
      drops it but keeps counting it, so a pool of size 1 can no longer hand
      out any connection although a new one would open. */
  method DeadConnectionLeaks() returns (r: Option<Session>)
    ensures r == None
  {
    var pool := new ConnectionPool(1);
    var first := pool.GetConnection(false, true);
    pool.ReturnConnection(first.value);
    r := pool.GetConnection(false, true);
  }

  /** Returning a connection to a full queue decrements the counter, which
      `close_all` has already reset to 0 for connections still handed out.
      With a pool of size 1, three connections opened around two `close_all`
      calls and then given back leave the counter at -1, so the pool would
      open two more connections beside the idle one. */
  method CounterGoesNegative() returns (active: int)
    ensures active == -1
  {
    var pool := new ConnectionPool(1);
    var a := pool.GetConnection(false, true);
    pool.CloseAll();
    var b := pool.GetConnection(false, true);
    pool.CloseAll();
    var c := pool.GetConnection(false, true);
    pool.ReturnConnection(c.value);
    pool.ReturnConnection(b.value);
    pool.ReturnConnection(a.value);
    active := pool.activeConnections;
  }
}
