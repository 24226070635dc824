/** The connection pool as the object the source defines: its fields are
    updated in place by its methods, and each method is proved to leave
    the object in the state, and to return the value, that the matching
    function of `PoolModel` gives for the state it started from. */
module Pool {
  import opened PoolTypes
  import opened Rotation
  import opened Retry
  import M = PoolModel
  import P = PoolProps

  /** How one pass of the retry loop of `call` ends: with the call's
      result, or with the retryable failure it recovered from. */
  datatype Pass = Ended(result: Result<string>) | Recovered(failure: Outcome)

  class ConnectionPool {
    const keyspace: string
    const servers: seq<string>
    const poolSize: nat
    const maxRetries: int
    const recycle: int
    /** Whether the `a`-th open attempt of this pool's life succeeds. */
    const opens: nat -> bool

    var listPosition: nat
    var queue: seq<Conn>
    var stats: Counters
    var keyspaceDescription: Option<string>
    /** Open attempts made so far; indexes `opens`. */
    var openAttempts: nat
    /** Ids of the connections closed, in order. */
    var closes: seq<nat>
    /** Backoff sleeps made, in microseconds. */
    var sleeps: seq<nat>
    /** Operations invoked on a client. */
    var invocations: nat

    function Cfg(): M.Config {
      M.Config(servers, maxRetries, recycle, opens)
    }

    function State(): M.State
      reads this
    {
      M.State(queue, listPosition, openAttempts, stats, keyspaceDescription, closes, sleeps, invocations)
    }

    ghost predicate Valid()
      reads this
    {
      M.Ready(Cfg(), State()) && poolSize == M.PoolSize(|servers|)
    }

    /** The fields as the constructor sets them before its initial fill. */
    constructor Init(keyspace: string, configured: Option<seq<string>>, opens: nat -> bool,
                     maxRetries: int := 5, recycle: int := 10000)
      requires maxRetries >= -1
      ensures Valid() && State() == M.Initial()
      ensures this.keyspace == keyspace && servers == ServerList(configured)
      ensures this.maxRetries == maxRetries && this.recycle == recycle && this.opens == opens
      ensures poolSize == M.PoolSize(|servers|)
    {
      this.keyspace := keyspace;
      this.recycle := recycle;
      this.maxRetries := maxRetries;
      this.opens := opens;
      stats := Counters(0, 0, 0);
      var list := ServerList(configured);
      servers := list;
      poolSize := M.PoolSize(|list|);
      queue := [];
      listPosition := 0;
      keyspaceDescription := None;
      openAttempts := 0;
      closes := [];
      sleeps := [];
      invocations := 0;
    }

    /** Construction: set the fields, then open `poolSize` connections,
        failing with the first `make_conn` that fails. */
    static method Open(keyspace: string, configured: Option<seq<string>>, opens: nat -> bool,
                       maxRetries: int := 5, recycle: int := 10000)
      returns (r: Result<ConnectionPool>)
      requires maxRetries >= -1
      ensures var cfg := M.Config(ServerList(configured), maxRetries, recycle, opens);
        match r
        case Ok(pool) =>
          && fresh(pool) && pool.Valid() && pool.Cfg() == cfg && pool.keyspace == keyspace
          && (pool.State(), Ok(())) == M.Construct(cfg)
          && P.Sound(pool.State())
        case Err(e) => M.Construct(cfg).1 == Err(e)
    {
      var pool := new ConnectionPool.Init(keyspace, configured, opens, maxRetries, recycle);
      ghost var cfg := pool.Cfg();
      P.FillSound(cfg, M.Initial(), pool.poolSize);
      var i := 0;
      while i < pool.poolSize
        invariant 0 <= i <= pool.poolSize
        invariant pool.Valid() && pool.Cfg() == cfg
        invariant M.Fill(cfg, pool.State(), pool.poolSize - i) == M.Construct(cfg)
        decreases pool.poolSize - i
      {
        var made := pool.MakeConn();
        if made.Err? {
          return Err(made.error);
        }
        i := i + 1;
      }
      return Ok(pool);
    }

    /** `make_conn`: step the cursor and try to open a connection to the
        server under it, up to twice the server count; append the first
        one that opens. */
    method MakeConn() returns (r: Result<()>)
      requires Valid()
      modifies this
      ensures Valid()
      ensures (State(), r) == M.MakeConn(Cfg(), old(State()))
    {
      ghost var goal := M.MakeConn(Cfg(), State());
      var n := |servers|;
      var i := 1;
      while i <= 2 * n
        invariant 1 <= i <= 2 * n + 1
        invariant Valid()
        invariant M.MakeConnFrom(Cfg(), State(), i) == goal
        decreases 2 * n + 1 - i
      {
        NextMod(listPosition, n);
        listPosition := (listPosition + 1) % n;
        if opens(openAttempts) {
          openAttempts := openAttempts + 1;
          queue := queue + [Conn(stats.created, servers[listPosition], 0)];
          stats := stats.(created := stats.created + 1);
          return Ok(());
        }
        openAttempts := openAttempts + 1;
        stats := stats.(failed := stats.failed + 1);
        i := i + 1;
      }
      return Err(NoServerAvailable);
    }

    /** `get`: take the head of the queue. */
    method Get() returns (c: Option<Conn>)
      modifies this
      ensures (c, State()) == M.Get(old(State()))
    {
      if queue == [] {
        return None;
      }
      c := Some(queue[0]);
      queue := queue[1..];
    }

    /** `return_connection`: queue `connection` again, or, once it has
        served `recycle` operations, close it, open a replacement and queue
        the oldest connection in its place. */
    method ReturnConnection(connection: Conn) returns (r: Result<()>)
      requires Valid()
      modifies this
      ensures Valid()
      ensures (State(), r) == M.ReturnConnection(Cfg(), old(State()), connection)
    {
      var conn := connection;
      if conn.opCount >= recycle {
        stats := stats.(recycled := stats.recycled + 1);
        closes := closes + [conn.id];
        r := MakeConn();
        if r.Err? {
          return;
        }
        var taken := Get();
        conn := taken.value;
      }
      queue := queue + [conn];
      r := Ok(());
    }

    /** `handle_conn_failure`: close the failed connection, count the
        failure, back off for the `k`-th time and open a replacement. */
    method HandleConnFailure(conn: Conn, k: nat) returns (r: Result<()>)
      requires Valid()
      modifies this
      ensures Valid()
      ensures (State(), r) == M.HandleConnFailure(Cfg(), old(State()), conn, k)
    {
      closes := closes + [conn.id];
      stats := stats.(failed := stats.failed + 1);
      sleeps := sleeps + [Backoff(k)];
      r := MakeConn();
    }

    /** `call`: try the operation up to the try budget, handing the
        connection back on success, recovering from the three retryable
        exceptions, and passing any other failure through. */
    method Call(invoke: nat -> Outcome) returns (r: Result<string>)
      requires Valid()
      modifies this
      ensures Valid()
      ensures (State(), r) == M.Call(Cfg(), old(State()), invoke)
    {
      var tries := TryBudget();
      ghost var goal := M.CallFrom(Cfg(), State(), 1, tries, invoke, Other);
      var last: Outcome := Other;
      var k := 1;
      while k <= tries
        invariant 1 <= k <= tries + 1 && tries == Tries(maxRetries)
        invariant Valid()
        invariant k > 1 ==> last == invoke(k - 1) && IsRetryable(last)
        invariant M.CallFrom(Cfg(), State(), k, tries, invoke, last) == goal
        decreases tries + 1 - k
      {
        var pass := Attempt(k, tries, invoke);
        if pass.Ended? {
          return pass.result;
        }
        last := pass.failure;
        k := k + 1;
      }
      return Err(MaxRetriesExceeded(last));
    }

    /** The number of tries `call` makes: `max_retries + 1`, one try when
        retrying is off, and MAX_RETRIES when `max_retries` is -1. */
    method TryBudget() returns (tries: nat)
      requires maxRetries >= -1
      ensures tries == Tries(maxRetries)
    {
      if maxRetries == -1 {
        tries := MaxTries;
      } else if maxRetries == 0 {
        tries := 1;
      } else {
        tries := maxRetries + 1;
      }
    }

    /** One pass of the retry loop of `call`, try number `k`: take a
        connection, count the operation on it and invoke; hand it back on
        success, recover from a retryable failure, pass anything else
        through. */
    method Attempt(k: nat, tries: nat, invoke: nat -> Outcome) returns (pass: Pass)
      requires Valid() && 1 <= k <= tries
      modifies this
      ensures Valid()
      ensures pass.Ended? ==> (State(), pass.result) == M.CallStep(Cfg(), old(State()), k, tries, invoke)
      ensures pass.Recovered? ==>
        && pass.failure == invoke(k) && IsRetryable(pass.failure)
        && M.CallFrom(Cfg(), State(), k + 1, tries, invoke, pass.failure) == M.CallStep(Cfg(), old(State()), k, tries, invoke)
    {
      ghost var before := State();
      var taken := Get();
      if taken.None? {
        return Ended(Err(PoolExhausted));
      }
      var conn := taken.value.(opCount := taken.value.opCount + 1);
      invocations := invocations + 1;
      assert conn == M.Checkout(before).0;
      assert State() == M.Checkout(before).1;
      var o := invoke(k);
      if o.Success? {
        var back := ReturnConnection(conn);
        if back.Err? {
          return Ended(Err(back.error));
        }
        return Ended(Ok(o.reply));
      } else if IsRetryable(o) {
        var handled := HandleConnFailure(conn, k);
        if handled.Err? {
          return Ended(Err(handled.error));
        }
        return Recovered(o);
      }
      return Ended(Err(Raised(o)));
    }

    /** `describe_keyspace`: call the remote operation only while no
        description is cached, and cache a successful reply. */
    method DescribeKeyspace(invoke: nat -> Outcome) returns (r: Result<string>)
      requires Valid()
      modifies this
      ensures Valid()
      ensures (State(), r) == M.DescribeKeyspace(Cfg(), old(State()), invoke)
    {
      if keyspaceDescription.None? {
        var reply := Call(invoke);
        if reply.Err? {
          return reply;
        }
        keyspaceDescription := Some(reply.value);
      }
      return Ok(keyspaceDescription.value);
    }

    /** `dispose`: close every queued connection. */
    method Dispose()
      modifies this
      ensures State() == M.Dispose(old(State()))
    {
      var i := 0;
      while i < |queue|
        invariant 0 <= i <= |queue|
        invariant State() == old(State()).(closes := old(closes) + M.IdsOf(queue[..i]))
        decreases |queue| - i
      {
        assert queue[..i + 1][..i] == queue[..i];
        closes := closes + [queue[i].id];
        i := i + 1;
      }
      assert queue[..i] == queue;
    }

    /** `close`: the same as `dispose`. */
    method Close()
      modifies this
      ensures State() == M.Dispose(old(State()))
    {
      Dispose();
    }

    /** `stats`: the three counters. */
    method Stats() returns (r: Counters)
      ensures r == State().stats
    {
      return stats;
    }
  }
}
