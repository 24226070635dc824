/** The connection pool of lib/phpcassa/Connection/ConnectionPool.php as a
    value: a `State` and one function per operation giving the state after
    it and what it returns. The class in module `Pool` runs the same
    operations step by step and is proved to agree with these functions.

    The two places where the source does I/O become inputs:
    - opening a connection: `cfg.opens(a)` says whether the `a`-th open
      attempt of the pool's life (counted from 0) succeeds;
    - invoking an operation: `invoke(k)` is the outcome of the `k`-th try
      (counted from 1) of one `call`.
    Closing a connection, sleeping and invoking the client are recorded in
    the logs `closes`, `sleeps` and `invocations`. */
module PoolModel {
  import opened PoolTypes
  import opened Rotation
  import opened Retry

  /** What a pool is built with and never changes. */
  datatype Config = Config(servers: seq<string>, maxRetries: int, recycle: int, opens: nat -> bool)

  predicate ValidConfig(cfg: Config) {
    |cfg.servers| >= 1 && cfg.maxRetries >= -1
  }

  datatype State = State(
    queue: seq<Conn>,             // checked-in connections, head first
    position: nat,                // list_position, the server cursor
    attempts: nat,                // open attempts made so far
    stats: Counters,
    description: Option<string>,  // keyspace_description
    closes: seq<nat>,             // ids of connections closed, in order
    sleeps: seq<nat>,             // backoff sleeps, in microseconds
    invocations: nat)             // operations invoked on a client

  predicate Ready(cfg: Config, s: State) {
    ValidConfig(cfg) && s.position < |cfg.servers|
  }

  /** Counters, logs and the open-attempt count never go back. */
  predicate Grew(s: State, t: State) {
    && s.stats.created <= t.stats.created
    && s.stats.failed <= t.stats.failed
    && s.stats.recycled <= t.stats.recycled
    && s.attempts <= t.attempts
    && s.invocations <= t.invocations
    && s.closes <= t.closes
    && s.sleeps <= t.sleeps
  }

  /** max(2 * count(servers), 5). */
  function PoolSize(n: nat): (r: nat)
    ensures r >= 5 && r >= 2 * n
    ensures r == 5 || r == 2 * n
  {
    if 2 * n > 5 then 2 * n else 5
  }

  /** The state of a freshly built pool before its initial fill. */
  function Initial(): (s: State)
    ensures s.queue == [] && s.stats == Counters(0, 0, 0) && s.description.None?
  {
    State([], 0, 0, Counters(0, 0, 0), None, [], [], 0)
  }

  /** The ids of the connections in `q`, in queue order. */
  function IdsOf(q: seq<Conn>): (r: seq<nat>)
    ensures |r| == |q|
    ensures forall i :: 0 <= i < |q| ==> r[i] == q[i].id
  {
    if q == [] then [] else IdsOf(q[..|q| - 1]) + [q[|q| - 1].id]
  }

  /** The open attempts of one `make_conn` from its `i`-th (of 2N) on:
      step the cursor and try the server under it; append the connection
      when it opens, otherwise count the failure and go on. After the
      2N-th failure, NoServerAvailable. */
  function MakeConnFrom(cfg: Config, s: State, i: nat): (r: (State, Result<()>))
    requires Ready(cfg, s) && 1 <= i <= 2 * |cfg.servers| + 1
    ensures Ready(cfg, r.0)
    ensures r.0.description == s.description && r.0.closes == s.closes
    ensures r.0.sleeps == s.sleeps && r.0.invocations == s.invocations
    ensures r.0.stats.recycled == s.stats.recycled
    ensures s.attempts <= r.0.attempts && s.stats.failed <= r.0.stats.failed
    ensures r.1.Ok? ==>
      && r.0.queue == s.queue + [Conn(s.stats.created, cfg.servers[r.0.position], 0)]
      && r.0.stats.created == s.stats.created + 1
    ensures r.1.Err? ==>
      && r.1.error == NoServerAvailable
      && r.0.queue == s.queue && r.0.stats.created == s.stats.created
    decreases 2 * |cfg.servers| + 1 - i, 1
  {
    if i > 2 * |cfg.servers| then (s, Err(NoServerAvailable)) else OpenStep(cfg, s, i)
  }

  /** The `i`-th open attempt of one `make_conn` and the attempts after it. */
  function OpenStep(cfg: Config, s: State, i: nat): (r: (State, Result<()>))
    requires Ready(cfg, s) && 1 <= i <= 2 * |cfg.servers|
    ensures Ready(cfg, r.0)
    ensures r.0.description == s.description && r.0.closes == s.closes
    ensures r.0.sleeps == s.sleeps && r.0.invocations == s.invocations
    ensures r.0.stats.recycled == s.stats.recycled
    ensures s.attempts <= r.0.attempts && s.stats.failed <= r.0.stats.failed
    ensures r.1.Ok? ==>
      && r.0.queue == s.queue + [Conn(s.stats.created, cfg.servers[r.0.position], 0)]
      && r.0.stats.created == s.stats.created + 1
    ensures r.1.Err? ==>
      && r.1.error == NoServerAvailable
      && r.0.queue == s.queue && r.0.stats.created == s.stats.created
    decreases 2 * |cfg.servers| + 1 - i, 0
  {
    var pos := Next(s.position, |cfg.servers|);
    if cfg.opens(s.attempts) then
      (s.(queue := s.queue + [Conn(s.stats.created, cfg.servers[pos], 0)],
          position := pos,
          attempts := s.attempts + 1,
          stats := s.stats.(created := s.stats.created + 1)),
       Ok(()))
    else
      MakeConnFrom(cfg, s.(position := pos,
                           attempts := s.attempts + 1,
                           stats := s.stats.(failed := s.stats.failed + 1)), i + 1)
  }

  /** `make_conn`: up to 2N open attempts, each on the server the cursor
      moves to; the first success is appended to the queue. */
  function MakeConn(cfg: Config, s: State): (r: (State, Result<()>))
    requires Ready(cfg, s)
    ensures Ready(cfg, r.0)
    ensures r.0.description == s.description && r.0.closes == s.closes
    ensures r.0.sleeps == s.sleeps && r.0.invocations == s.invocations
    ensures r.0.stats.recycled == s.stats.recycled
    ensures s.attempts <= r.0.attempts && s.stats.failed <= r.0.stats.failed
    ensures r.1.Ok? ==>
      && r.0.queue == s.queue + [Conn(s.stats.created, cfg.servers[r.0.position], 0)]
      && r.0.stats.created == s.stats.created + 1
    ensures r.1.Err? ==>
      && r.1.error == NoServerAvailable
      && r.0.queue == s.queue && r.0.stats.created == s.stats.created
  {
    MakeConnFrom(cfg, s, 1)
  }

  /** `get`: take the head of the queue, or nothing when it is empty. */
  function Get(s: State): (r: (Option<Conn>, State))
    ensures r.1 == s.(queue := r.1.queue)
    ensures s.queue == [] ==> r.0 == None && r.1.queue == []
    ensures s.queue != [] ==> r.0 == Some(s.queue[0]) && [s.queue[0]] + r.1.queue == s.queue
  {
    if s.queue == [] then (None, s) else (Some(s.queue[0]), s.(queue := s.queue[1..]))
  }

  /** `return_connection`: append `c`, or, once its op count has reached
      the recycle threshold, close it, open a replacement and move the
      oldest queued connection to the tail in its place. */
  function ReturnConnection(cfg: Config, s: State, c: Conn): (r: (State, Result<()>))
    requires Ready(cfg, s)
    ensures Ready(cfg, r.0) && Grew(s, r.0)
    ensures r.0.description == s.description && r.0.sleeps == s.sleeps && r.0.invocations == s.invocations
    ensures c.opCount < cfg.recycle ==> r == (s.(queue := s.queue + [c]), Ok(()))
    ensures c.opCount >= cfg.recycle ==>
      && r.0.closes == s.closes + [c.id]
      && r.0.stats.recycled == s.stats.recycled + 1
      && (r.1.Ok? ==>
            var newConn := Conn(s.stats.created, cfg.servers[r.0.position], 0);
            && r.0.queue == (if s.queue == [] then [newConn] else s.queue[1..] + [newConn, s.queue[0]])
            && r.0.stats.created == s.stats.created + 1)
      && (r.1.Err? ==> r.1.error == NoServerAvailable && r.0.queue == s.queue)
  {
    if c.opCount < cfg.recycle then
      (s.(queue := s.queue + [c]), Ok(()))
    else
      var s1 := s.(stats := s.stats.(recycled := s.stats.recycled + 1), closes := s.closes + [c.id]);
      var made := MakeConn(cfg, s1);
      if made.1.Err? then made
      else
        var taken := Get(made.0);
        (taken.1.(queue := taken.1.queue + [taken.0.value]), Ok(()))
  }

  /** `handle_conn_failure`: close the failed connection, count the
      failure, back off for the `k`-th time and open a replacement. */
  function HandleConnFailure(cfg: Config, s: State, c: Conn, k: nat): (r: (State, Result<()>))
    requires Ready(cfg, s)
    ensures Ready(cfg, r.0) && Grew(s, r.0)
    ensures r.0.description == s.description && r.0.invocations == s.invocations
    ensures r.0.closes == s.closes + [c.id] && r.0.sleeps == s.sleeps + [Backoff(k)]
    ensures r.0.stats.failed >= s.stats.failed + 1 && r.0.stats.recycled == s.stats.recycled
    ensures r.1.Ok? ==>
      && |r.0.queue| == |s.queue| + 1 && r.0.queue[..|s.queue|] == s.queue
      && r.0.stats.created == s.stats.created + 1
    ensures r.1.Err? ==> r.1.error == NoServerAvailable && r.0.queue == s.queue
  {
    var s1 := s.(closes := s.closes + [c.id],
                 stats := s.stats.(failed := s.stats.failed + 1),
                 sleeps := s.sleeps + [Backoff(k)]);
    MakeConn(cfg, s1)
  }

  /** How one try of `call` ends: with the call's result, or with a
      retryable failure that has been recovered from. */
  datatype TryEnd = Done(after: State, result: Result<string>) | Retry(after: State, failure: Outcome)

  /** The checkout at the start of a try: the connection taken from the
      queue with its op count raised by one, and the state once the
      operation has been invoked on it. */
  function Checkout(s: State): (r: (Conn, State))
    requires s.queue != []
    ensures r.0 == s.queue[0].(opCount := s.queue[0].opCount + 1)
    ensures r.1 == s.(queue := s.queue[1..], invocations := s.invocations + 1)
  {
    var taken := Get(s);
    (taken.0.value.(opCount := taken.0.value.opCount + 1), taken.1.(invocations := taken.1.invocations + 1))
  }

  /** One pass of the retry loop, try number `k`: check a connection out,
      count the operation on it and invoke; hand it back on success,
      recover from a retryable failure, pass anything else through. */
  function Try(cfg: Config, s: State, k: nat, invoke: nat -> Outcome): (t: TryEnd)
    requires Ready(cfg, s)
    ensures Ready(cfg, t.after) && Grew(s, t.after)
    ensures t.after.description == s.description
    ensures t.after.invocations <= s.invocations + 1
    ensures s.queue == [] ==> t == Done(s, Err(PoolExhausted))
    ensures t.Retry? ==> t.failure == invoke(k) && IsRetryable(invoke(k))
    ensures t.Retry? ==> |t.after.queue| == |s.queue| && t.after.sleeps == s.sleeps + [Backoff(k)]
    ensures t.Done? && t.result.Ok? ==> invoke(k) == Success(t.result.value)
    ensures t.Done? && t.result.Err? && t.result.error.Raised? ==>
      t.result.error.kind == invoke(k) && !invoke(k).Success? && !IsRetryable(invoke(k))
    ensures t.Done? && t.result.Err? ==> !t.result.error.MaxRetriesExceeded?
  {
    if s.queue == [] then Done(s, Err(PoolExhausted))
    else
      var out := Checkout(s);
      var o := invoke(k);
      if o.Success? then
        var back := ReturnConnection(cfg, out.1, out.0);
        Done(back.0, if back.1.Ok? then Ok(o.reply) else Err(back.1.error))
      else if IsRetryable(o) then
        var handled := HandleConnFailure(cfg, out.1, out.0, k);
        if handled.1.Err? then Done(handled.0, Err(handled.1.error)) else Retry(handled.0, o)
      else
        Done(out.1, Err(Raised(o)))
  }

  /** The retry loop of `call` from its `k`-th pass on, `last` being the
      failure the previous pass recovered from: once the `tries` passes
      are spent, MaxRetriesException with `last`. */
  function CallFrom(cfg: Config, s: State, k: nat, tries: nat, invoke: nat -> Outcome, last: Outcome): (r: (State, Result<string>))
    requires Ready(cfg, s) && 1 <= k <= tries + 1 && tries >= 1
    requires k > 1 ==> last == invoke(k - 1) && IsRetryable(last)
    ensures Ready(cfg, r.0) && Grew(s, r.0)
    ensures r.0.description == s.description
    ensures r.0.invocations <= s.invocations + (tries + 1 - k)
    ensures r.1.Ok? ==>
      exists j :: k <= j <= tries && invoke(j) == Success(r.1.value)
        && forall i :: k <= i < j ==> IsRetryable(invoke(i))
    ensures r.1.Err? && r.1.error.MaxRetriesExceeded? ==>
      r.1.error.last == invoke(tries) && forall i :: k <= i <= tries ==> IsRetryable(invoke(i))
    ensures r.1.Err? && r.1.error.Raised? ==>
      exists j :: k <= j <= tries && invoke(j) == r.1.error.kind
        && !invoke(j).Success? && !IsRetryable(invoke(j))
        && forall i :: k <= i < j ==> IsRetryable(invoke(i))
    decreases tries + 1 - k, 1
  {
    if k > tries then (s, Err(MaxRetriesExceeded(last)))
    else CallStep(cfg, s, k, tries, invoke)
  }

  /** Try `k` of `call` and, unless it ends the call, the passes after it. */
  function CallStep(cfg: Config, s: State, k: nat, tries: nat, invoke: nat -> Outcome): (r: (State, Result<string>))
    requires Ready(cfg, s) && 1 <= k <= tries
    ensures Ready(cfg, r.0) && Grew(s, r.0)
    ensures r.0.description == s.description
    ensures r.0.invocations <= s.invocations + (tries + 1 - k)
    ensures r.1.Ok? ==>
      exists j :: k <= j <= tries && invoke(j) == Success(r.1.value)
        && forall i :: k <= i < j ==> IsRetryable(invoke(i))
    ensures r.1.Err? && r.1.error.MaxRetriesExceeded? ==>
      r.1.error.last == invoke(tries) && forall i :: k <= i <= tries ==> IsRetryable(invoke(i))
    ensures r.1.Err? && r.1.error.Raised? ==>
      exists j :: k <= j <= tries && invoke(j) == r.1.error.kind
        && !invoke(j).Success? && !IsRetryable(invoke(j))
        && forall i :: k <= i < j ==> IsRetryable(invoke(i))
    decreases tries + 1 - k, 0
  {
    match Try(cfg, s, k, invoke)
    case Done(after, result) => (after, result)
    case Retry(after, failure) => CallFrom(cfg, after, k + 1, tries, invoke, failure)
  }

  /** `call`: the tries of one operation under the configured budget. */
  function Call(cfg: Config, s: State, invoke: nat -> Outcome): (r: (State, Result<string>))
    requires Ready(cfg, s)
    ensures Ready(cfg, r.0) && Grew(s, r.0)
    ensures r.0.invocations - s.invocations <= Tries(cfg.maxRetries)
    ensures r.1.Ok? ==>
      exists j :: 1 <= j <= Tries(cfg.maxRetries) && invoke(j) == Success(r.1.value)
        && forall i :: 1 <= i < j ==> IsRetryable(invoke(i))
    ensures r.1.Err? && r.1.error.MaxRetriesExceeded? ==>
      forall i :: 1 <= i <= Tries(cfg.maxRetries) ==> IsRetryable(invoke(i))
  {
    CallFrom(cfg, s, 1, Tries(cfg.maxRetries), invoke, Other)
  }

  /** `describe_keyspace`: the remote call is made only while no
      description is cached; a successful one is cached. */
  function DescribeKeyspace(cfg: Config, s: State, invoke: nat -> Outcome): (r: (State, Result<string>))
    requires Ready(cfg, s)
    ensures Ready(cfg, r.0) && Grew(s, r.0)
    ensures s.description.Some? ==> r == (s, Ok(s.description.value))
    ensures r.1.Ok? ==> r.0.description == Some(r.1.value)
    ensures r.1.Err? ==> r.0.description == s.description
  {
    if s.description.Some? then (s, Ok(s.description.value))
    else
      var called := Call(cfg, s, invoke);
      if called.1.Ok? then (called.0.(description := Some(called.1.value)), called.1) else called
  }

  /** `dispose`: close every queued connection, leaving the queue as it is. */
  function Dispose(s: State): (r: State)
    ensures r.queue == s.queue && Grew(s, r)
    ensures |r.closes| == |s.closes| + |s.queue|
    ensures forall i :: 0 <= i < |s.queue| ==> r.closes[|s.closes| + i] == s.queue[i].id
    ensures r == s.(closes := r.closes)
  {
    s.(closes := s.closes + IdsOf(s.queue))
  }

  /** The initial fill: `count` calls of `make_conn`, stopping at the
      first that fails. */
  function Fill(cfg: Config, s: State, count: nat): (r: (State, Result<()>))
    requires Ready(cfg, s)
    ensures Ready(cfg, r.0) && Grew(s, r.0)
    ensures r.1.Ok? ==>
      && |r.0.queue| == |s.queue| + count && r.0.queue[..|s.queue|] == s.queue
      && r.0.stats.created == s.stats.created + count
    ensures r.1.Err? ==> r.1.error == NoServerAvailable
    ensures r.0.stats.recycled == s.stats.recycled && r.0.closes == s.closes && r.0.sleeps == s.sleeps
    decreases count
  {
    if count == 0 then (s, Ok(()))
    else
      var made := MakeConn(cfg, s);
      if made.1.Err? then made else Fill(cfg, made.0, count - 1)
  }

  /** Pool construction: the initial state filled to the pool size. */
  function Construct(cfg: Config): (r: (State, Result<()>))
    requires ValidConfig(cfg)
    ensures r.1.Ok? ==>
      && |r.0.queue| == PoolSize(|cfg.servers|)
      && r.0.stats.created == PoolSize(|cfg.servers|)
    ensures r.1.Err? ==> r.1.error == NoServerAvailable
  {
    Fill(cfg, Initial(), PoolSize(|cfg.servers|))
  }
}
