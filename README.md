# phpcassa connection pool

A Dafny model of `ConnectionPool`, the client-side pool of Thrift
connections to a Cassandra cluster in phpcassa
(`lib/phpcassa/Connection/ConnectionPool.php`). The pool holds a list of
`host:port` servers and a FIFO queue of open connections. It opens
connections with a rotating cursor that tries every server at most twice,
and hands connections out and takes them back. A connection that has
served `recycle` operations is replaced. `call` runs an operation under a
retry budget. It recovers from timeouts, unavailability and transport
errors by closing the connection, backing off exponentially and opening a
replacement. The model also covers the memoised `describe_keyspace`,
`dispose`/`close` and the `stats` counters.

The project has six modules:

- `PoolTypes` (types.dfy): connections, the counters, the outcomes of an
  operation and the pool's errors.
- `Rotation` (rotation.dfy): the server list and the cursor arithmetic.
- `Retry` (retry.dfy): the try budget and the backoff schedule.
- `PoolModel` (model.dfy): the pool as a value. It has a `State` and one
  function per operation, giving the state after that operation and what
  it returns.
- `PoolProps` (props.dfy): properties that relate several steps. These
  include soundness of the queue, the behaviour of whole calls,
  construction and the description cache.
- `Pool` (pool.dfy): the class `ConnectionPool`. Its fields are updated in
  place, and each method is proved to produce the state and result of the
  matching `PoolModel` function.

The two kinds of I/O the pool does are inputs of the model:

- `opens(a)` says whether the `a`-th connection attempt of the pool's life
  succeeds.
- `invoke(k)` is the outcome of the `k`-th try of one `call`.

Closing a connection, sleeping and invoking the client are recorded as
logs: `closes`, `sleeps` and `invocations`.

## Model

| member | source | states |
|---|---|---|
| Rotation.ServerList | lib/phpcassa/Connection/ConnectionPool.php:53-55 | the server list is never empty: a NULL or empty configuration gives `['localhost:9160']`, any other list is kept as given |
| Rotation.Next | lib/phpcassa/Connection/ConnectionPool.php:83 | the cursor step stays inside the server list |
| Rotation.NextMod | lib/phpcassa/Connection/ConnectionPool.php:83 | the cursor step equals `(list_position + 1) % count(servers)` |
| Rotation.Advance | lib/phpcassa/Connection/ConnectionPool.php:80-83 | the cursor after `k` steps is a valid index |
| Rotation.AdvanceMod | lib/phpcassa/Connection/ConnectionPool.php:80-83 | `k` cursor steps land on `(position + k) % N` |
| Rotation.AdvanceShift | lib/phpcassa/Connection/ConnectionPool.php:80-83 | one step followed by `k` steps is `k + 1` steps |
| Rotation.TwoTurns | lib/phpcassa/Connection/ConnectionPool.php:80-83 | 2N steps bring the cursor back to where it started |
| Rotation.EveryServerTwice | lib/phpcassa/Connection/ConnectionPool.php:77-80 | among the 2N attempts of one `make_conn`, every server is tried twice, N attempts apart |
| Rotation.DistinctSteps | lib/phpcassa/Connection/ConnectionPool.php:80-83 | step counts less than N apart lead to different servers |
| Rotation.RotationVisitsEachOnce | lib/phpcassa/Connection/ConnectionPool.php:80-83 | N consecutive attempts go to N different servers |
| Retry.Tries | lib/phpcassa/Connection/ConnectionPool.php:139-145 | the try budget is at least 1: MAX_RETRIES (2^31 - 1) for `max_retries == -1`, otherwise `max_retries + 1` |
| PoolTypes.IsRetryable | lib/phpcassa/Connection/ConnectionPool.php:155-163 | the exceptions the retry loop recovers from: TimedOut, Unavailable and Transport |
| Retry.Pow2 | lib/phpcassa/Connection/ConnectionPool.php:175 | `pow(2, k)` as an exact integer, at least 1 |
| Retry.Backoff | lib/phpcassa/Connection/ConnectionPool.php:175 | the sleep requested after try `k` is 100000 · 2^k µs, at least 0.1 s |
| Retry.Slept | lib/phpcassa/Connection/ConnectionPool.php:175 | the sleep `usleep` performs: the requested microseconds taken as a C `unsigned int`, below 2^32 |
| Retry.SleptExact | lib/phpcassa/Connection/ConnectionPool.php:175 | up to try 15 the sleep performed is the backoff requested |
| Retry.SleepWraps | lib/phpcassa/Connection/ConnectionPool.php:175 | at try 16 the requested sleep passes 2^32 and wraps, so it is shorter than after try 15 |
| Retry.SleptZero | lib/phpcassa/Connection/ConnectionPool.php:175 | from try 27 to 46 the requested sleep is a multiple of 2^32, so no sleep is performed |
| Retry.BackoffDoubles | lib/phpcassa/Connection/ConnectionPool.php:175 | each backoff is twice the previous one |
| Retry.BackoffIncreasing | lib/phpcassa/Connection/ConnectionPool.php:175 | backoffs grow strictly with the try number |
| Retry.Schedule | lib/phpcassa/Connection/ConnectionPool.php:147-175 | the sleeps after consecutive tries from `from`: element `i` is the backoff of try `from + i` |
| Retry.ScheduleCons | lib/phpcassa/Connection/ConnectionPool.php:147-175 | one sleep followed by the schedule of the next tries is the schedule from this try |
| Retry.ScheduleIncreasing | lib/phpcassa/Connection/ConnectionPool.php:147-175 | the sleeps of one call are strictly increasing |
| PoolModel.PoolSize | lib/phpcassa/Connection/ConnectionPool.php:56 | the pool size is `max(2 * count(servers), 5)`: at least 5 and at least twice the server count |
| PoolModel.Initial | lib/phpcassa/Connection/ConnectionPool.php:48-51 | a new pool has an empty queue, zero counters and no cached description |
| PoolModel.IdsOf | lib/phpcassa/Connection/ConnectionPool.php:123-124 | the ids of the queued connections, one per connection, in queue order |
| PoolModel.MakeConnFrom | lib/phpcassa/Connection/ConnectionPool.php:80-97 | the open attempts from the `i`-th on: the cursor stays valid; on success the new connection, with op count 0, is appended on the server under the cursor and `created` grows by one; on failure the error is NoServerAvailable and the queue is unchanged; nothing but the queue, the cursor, the attempt count and `created`/`failed` changes |
| PoolModel.OpenStep | lib/phpcassa/Connection/ConnectionPool.php:82-94 | one open attempt and the attempts after it, with the same guarantees as `MakeConnFrom` |
| PoolModel.MakeConn | lib/phpcassa/Connection/ConnectionPool.php:76-98 | `make_conn` appends exactly one fresh connection on the server the cursor stands on, or fails with NoServerAvailable and leaves the queue as it was |
| PoolModel.Get | lib/phpcassa/Connection/ConnectionPool.php:100-102 | `get` hands out the head of the queue and leaves the rest in order, or gives nothing when the queue is empty; nothing else changes |
| PoolModel.ReturnConnection | lib/phpcassa/Connection/ConnectionPool.php:104-112 | below the threshold the connection is appended; at the threshold `recycled` grows by one, the connection is closed, and the queue becomes its tail followed by the new connection and then the old head; if the replacement fails the error is NoServerAvailable |
| PoolModel.HandleConnFailure | lib/phpcassa/Connection/ConnectionPool.php:170-177 | the failed connection is closed, `failed` grows by at least one, the sleep is `Backoff(k)`, and on success the queue is the old one plus one connection |
| PoolModel.Checkout | lib/phpcassa/Connection/ConnectionPool.php:148-152 | the head is taken with its op count raised by one, and one invocation is recorded |
| PoolModel.Try | lib/phpcassa/Connection/ConnectionPool.php:147-164 | one try: an empty queue ends the call; a reply is returned only if the invocation succeeded; a retry only follows a retryable failure, which sleeps `Backoff(k)` and keeps the queue length; a non-retryable failure is passed through |
| PoolModel.CallFrom | lib/phpcassa/Connection/ConnectionPool.php:147-167 | the retry loop from try `k` makes at most one invocation per remaining try. A reply is the success of some try `j` in `k..tries` with every try before `j` failed retryably, so the first try that does not fail retryably decides the call. A passed-through exception is that first try's non-retryable failure. MaxRetriesException means every try from `k` to `tries` failed retryably, and it carries the last failure |
| PoolModel.CallStep | lib/phpcassa/Connection/ConnectionPool.php:147-165 | try `k` and the tries after it, with the same guarantees as `CallFrom` |
| PoolModel.Call | lib/phpcassa/Connection/ConnectionPool.php:135-168 | `call` invokes the client at most `Tries(max_retries)` times. A reply is the success of the first try that did not fail retryably. MaxRetriesException means every one of the tries failed retryably |
| PoolModel.DescribeKeyspace | lib/phpcassa/Connection/ConnectionPool.php:114-120 | a cached description is returned with no state change; a successful call is cached; a failed one leaves the cache empty |
| PoolModel.Dispose | lib/phpcassa/Connection/ConnectionPool.php:122-125 | every queued connection is closed, in queue order; the queue and everything else are unchanged |
| PoolModel.Fill | lib/phpcassa/Connection/ConnectionPool.php:72-73 | `count` successful `make_conn`s grow the queue and `created` by `count` and keep the queue's prefix; a failure is NoServerAvailable |
| PoolModel.Construct | lib/phpcassa/Connection/ConnectionPool.php:31-74 | a pool that is built holds exactly `PoolSize` connections and `created == PoolSize`; otherwise the error is NoServerAvailable |
| PoolProps.MakeConnSound | lib/phpcassa/Connection/ConnectionPool.php:76-98 | `make_conn` keeps queued ids distinct, fresh and unclosed, and keeps a connection outside the queue outside it |
| PoolProps.GetSound | lib/phpcassa/Connection/ConnectionPool.php:100-102 | after `get` the state is sound and the connection handed out is not queued |
| PoolProps.GetNotQueued | lib/phpcassa/Connection/ConnectionPool.php:100-102 | `get` queues no new id |
| PoolProps.AppendSound | lib/phpcassa/Connection/ConnectionPool.php:111 | appending a connection from outside the queue keeps the state sound |
| PoolProps.CloseSound | lib/phpcassa/Connection/ConnectionPool.php:107 | closing an unqueued connection keeps the state sound |
| PoolProps.RequeueSound | lib/phpcassa/Connection/ConnectionPool.php:109-111 | moving the head to the tail keeps the state sound |
| PoolProps.ReturnConnectionSound | lib/phpcassa/Connection/ConnectionPool.php:104-112 | handing a connection back keeps the state sound; a recycled connection is closed and never re-enters the queue |
| PoolProps.ReplacementSound | lib/phpcassa/Connection/ConnectionPool.php:108-111 | once a replacement is open, moving the oldest connection to the tail keeps the state sound and the recycled id out of the queue |
| PoolProps.HandleConnFailureSound | lib/phpcassa/Connection/ConnectionPool.php:170-177 | after a failure the state is sound, and the failed connection is closed and not queued |
| PoolProps.TrySound | lib/phpcassa/Connection/ConnectionPool.php:147-164 | one try keeps the state sound |
| PoolProps.CallStepKeeps | lib/phpcassa/Connection/ConnectionPool.php:147-165 | any invariant that every try preserves is preserved by the retry loop |
| PoolProps.CallStepSound | lib/phpcassa/Connection/ConnectionPool.php:147-165 | the retry loop keeps the state sound |
| PoolProps.CallSound | lib/phpcassa/Connection/ConnectionPool.php:135-168 | `call` keeps the state sound: a closed connection is never queued again |
| PoolProps.DescribeKeyspaceSound | lib/phpcassa/Connection/ConnectionPool.php:114-120 | `describe_keyspace` keeps the state sound |
| PoolProps.DisposeLeavesClosedQueued | lib/phpcassa/Connection/ConnectionPool.php:122-125 | after `dispose` the queue still holds its connections, now closed, so the state is no longer sound |
| PoolProps.MakeConnFromFound | lib/phpcassa/Connection/ConnectionPool.php:80-94 | the attempts from the `i`-th on succeed exactly when one of the remaining attempts opens; then the first attempt that opens is the one used, on the server reached by as many cursor steps as attempts, and each earlier attempt counts one failure |
| PoolProps.MakeConnFromExhausted | lib/phpcassa/Connection/ConnectionPool.php:80-97 | when every remaining attempt fails, each one counts one failure and moves the cursor once |
| PoolProps.MakeConnFound | lib/phpcassa/Connection/ConnectionPool.php:76-98 | `make_conn` succeeds exactly when one of its 2N attempts opens, and uses the first that does, on the server reached by one cursor step per attempt; the attempts before it are failures |
| PoolProps.MakeConnExhausted | lib/phpcassa/Connection/ConnectionPool.php:76-98 | a `make_conn` whose attempts all fail counts 2N failures and leaves the cursor where it was |
| PoolProps.MakeConnReachable | lib/phpcassa/Connection/ConnectionPool.php:83-88 | when the next attempt opens, `make_conn` makes one attempt, appends one connection and counts no failure |
| PoolProps.HandleConnFailureReachable | lib/phpcassa/Connection/ConnectionPool.php:170-177 | with an immediate replacement, a failure counts one failure and one creation, sleeps once, and restores the queue length |
| PoolProps.ReturnConnectionReachable | lib/phpcassa/Connection/ConnectionPool.php:104-112 | when no recycling is due, or the replacement opens at its first attempt, handing a connection back grows the queue by exactly one |
| PoolProps.TryRetryReachable | lib/phpcassa/Connection/ConnectionPool.php:155-164 | a retryable failure with an immediate replacement is recovered from, with one failure, one sleep and the queue back at its length |
| PoolProps.TrySuccessReachable | lib/phpcassa/Connection/ConnectionPool.php:152-154 | when no recycling is due, or the replacement opens at its first attempt, a successful try returns its reply with the queue back at its length and no failure counted |
| PoolProps.CallAllRetryable | lib/phpcassa/Connection/ConnectionPool.php:147-167 | when every try fails retryably and every replacement opens at its first attempt, the call makes all its tries, counts each as a failure, replaces each connection, sleeps with the increasing backoffs and raises MaxRetriesException with the last failure |
| PoolProps.RetryAllStep | lib/phpcassa/Connection/ConnectionPool.php:155-165 | the inductive step of `CallAllRetryable` |
| PoolProps.CallSucceedsAt | lib/phpcassa/Connection/ConnectionPool.php:152-154 | when no recycling is due, or the replacement opens at its first attempt, a successful try ends the call with its reply after one invocation |
| PoolProps.RecoverStep | lib/phpcassa/Connection/ConnectionPool.php:155-165 | the inductive step of `CallRecovers` |
| PoolProps.CallRecovers | lib/phpcassa/Connection/ConnectionPool.php:147-165 | when every replacement opens at its first attempt, retryable failures at tries `k..m-1` followed by a success at try `m` return that reply after exactly those tries and sleeps, with the queue length restored |
| PoolProps.CallWithoutRetries | lib/phpcassa/Connection/ConnectionPool.php:142-143 | with `max_retries == 0` there is exactly one try; a retryable failure still sleeps 0.2 s before MaxRetriesException |
| PoolProps.CallPassesThrough | lib/phpcassa/Connection/ConnectionPool.php:151-165 | a non-retryable failure ends the call at once, with no sleep, no count and no replacement, and the connection is neither closed nor returned |
| PoolProps.FillSound | lib/phpcassa/Connection/ConnectionPool.php:72-73 | the initial fill keeps the state sound |
| PoolProps.FirstConnectionServer | lib/phpcassa/Connection/ConnectionPool.php:70-86 | the first connection goes to the server at index `1 % N`, because the cursor starts at 0 and steps before each attempt |
| PoolProps.FillReachable | lib/phpcassa/Connection/ConnectionPool.php:72-73 | when every server answers, construction fills the pool |
| PoolProps.ConstructUnreachable | lib/phpcassa/Connection/ConnectionPool.php:72-97 | with every server unreachable, construction fails with NoServerAvailable after 2N failures and with no connection created |
| PoolProps.ConstructSound | lib/phpcassa/Connection/ConnectionPool.php:31-74 | a constructed pool is sound |
| PoolProps.DescribeRepeatedly | lib/phpcassa/Connection/ConnectionPool.php:114-120 | repeated `describe_keyspace` calls keep the state valid and the counters monotone |
| PoolProps.CachedDescriptionIsFree | lib/phpcassa/Connection/ConnectionPool.php:115-119 | once a description is cached, any number of further calls change nothing and invoke nothing |
| PoolProps.DescribeOnce | lib/phpcassa/Connection/ConnectionPool.php:114-120 | after the first successful `describe_keyspace` the remote call is never issued again |
| PoolProps.DisposeTwice | lib/phpcassa/Connection/ConnectionPool.php:122-129 | disposing twice closes the same connections again, in the same order, and keeps the queue |
| Pool.ConnectionPool.Init | lib/phpcassa/Connection/ConnectionPool.php:31-70 | the constructor's field settings: defaults, the server list, the pool size, zero counters, cursor 0 |
| Pool.ConnectionPool.Open | lib/phpcassa/Connection/ConnectionPool.php:31-74 | construction opens `pool_size` connections and yields the state `Construct` gives, which is sound; if any `make_conn` fails, the error is propagated and no pool is returned |
| Pool.ConnectionPool.MakeConn | lib/phpcassa/Connection/ConnectionPool.php:76-98 | the loop leaves the object in the state, and returns the result, that `PoolModel.MakeConn` gives |
| Pool.ConnectionPool.Get | lib/phpcassa/Connection/ConnectionPool.php:100-102 | agrees with `PoolModel.Get` |
| Pool.ConnectionPool.ReturnConnection | lib/phpcassa/Connection/ConnectionPool.php:104-112 | agrees with `PoolModel.ReturnConnection` |
| Pool.ConnectionPool.HandleConnFailure | lib/phpcassa/Connection/ConnectionPool.php:170-177 | agrees with `PoolModel.HandleConnFailure` |
| Pool.ConnectionPool.Call | lib/phpcassa/Connection/ConnectionPool.php:135-168 | the retry loop leaves the object in the state, and returns the result, that `PoolModel.Call` gives |
| Pool.ConnectionPool.TryBudget | lib/phpcassa/Connection/ConnectionPool.php:139-145 | the number of tries is `Tries(max_retries)` |
| Pool.ConnectionPool.Attempt | lib/phpcassa/Connection/ConnectionPool.php:148-164 | one pass of the loop either ends the call (`Ended`) with the state and result `CallStep` gives, or recovers (`Recovered`) from the retryable failure of try `k` in the state from which `CallFrom` continues |
| Pool.ConnectionPool.DescribeKeyspace | lib/phpcassa/Connection/ConnectionPool.php:114-120 | agrees with `PoolModel.DescribeKeyspace` |
| Pool.ConnectionPool.Dispose | lib/phpcassa/Connection/ConnectionPool.php:122-125 | the loop closes every queued connection in order, as `PoolModel.Dispose` does |
| Pool.ConnectionPool.Close | lib/phpcassa/Connection/ConnectionPool.php:127-129 | `close` is `dispose` |
| Pool.ConnectionPool.Stats | lib/phpcassa/Connection/ConnectionPool.php:131-133 | returns the three counters |

## Left out

- Random permutation of servers: lines 60-69 shuffle only the local `$servers`, after line 55 has stored a copy. The shuffle therefore has no effect, and the model uses the configured order. No random-permutation property is claimed.
- Thrift I/O: opening a connection (ConnectionWrapper) and invoking an operation are inputs, `opens` and `invoke`. Which exceptions the wrapper can raise while connecting is not part of this model; any failure to open counts as a failed attempt.
- Only TException is caught while connecting. Any other exception from ConnectionWrapper would propagate out of `make_conn`, and the model does not represent it.
- Operation names and arguments, send/receive timeouts, credentials and framed transport are only passed through to the wrapper, so they are not modelled.
- Error messages and `error_log` are not modelled. A `make_conn` or call failure carries only its kind (and, for MaxRetriesException, the last failure).
- `usleep` becomes an entry in the `sleeps` log.
- BASE_BACKOFF * pow(2, k) * MICROS is a float product. It is modelled as the exact integer 100000 · 2^k. That is what the product gives while it fits a PHP integer, up to k = 46.
- `max_retries < -1` is excluded by precondition. For such values the source's `range(1, $tries)` counts downwards.
- Pool.ConnectionPool.Call: a checkout from an empty queue ends the call with PoolExhausted and changes nothing. The source dereferences NULL there.
- A try that fails with a retryable exception sleeps even on the last try, because line 175 sleeps after every retryable failure. The model does the same.
- Retry.Tries, PoolModel.Call: line 147 builds the whole array `range(1, $tries)` before the first try. For `max_retries == -1` that is 2^31 - 1 elements, and under an ordinary memory limit PHP stops with a fatal error before any try; a very large `max_retries` fails the same way. The model iterates the tries one at a time and does not capture this failure.
- Retry.Backoff: the `sleeps` log records the sleep requested, not the sleep performed. `Retry.Slept` gives the sleep performed, and it equals the request only up to try 15 (`Retry.SleptExact`). From try 16 the performed sleep wraps modulo 2^32, so `BackoffIncreasing` and `ScheduleIncreasing` hold for the requested amounts only.
- Retry.Slept: from try 47 the float backoff no longer fits a PHP integer. PHP 7 then warns and skips the sleep, and PHP 8 raises a TypeError out of `call`. From try 1024 `pow(2, k)` is INF. None of this is modelled.
- A non-retryable failure leaves its connection neither returned nor closed: it is dropped from the pool, as in the code.
- A `make_conn` failure inside `return_connection` or `handle_conn_failure` propagates out of `call` as NoServerAvailable.
- A `describe_keyspace` reply of NULL would not be cached in PHP; the model's replies are strings, so every successful reply is cached.
- Concurrency: the pool is single-threaded PHP, and no interleaving is modelled.
- Pool.ConnectionPool.Call, ReturnConnection, HandleConnFailure and DescribeKeyspace state agreement with `PoolModel` only. Soundness of the queue is proved on the model (`PoolProps.*Sound`); it is not repeated as a method postcondition, and only `Open` states it.
- Connections are values (id, server, op count) rather than wrapper objects. A connection's closed flag is its id in the `closes` log.
- `Attempt` and `TryBudget` split the body of `call` into methods; they are not separate functions in the source. `TryBudget` is the if-chain of lines 139-145 as statements, and `Retry.Tries` is the function that specifies it.
