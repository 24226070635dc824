/** Properties of the pool model that relate several steps: what a whole
    `call` does under given outcomes, that connections keep distinct ids
    and closed ones never come back into the queue, what construction
    yields, and that a cached keyspace description costs no remote call. */
module PoolProps {
  import opened PoolTypes
  import opened Rotation
  import opened Retry
  import opened PoolModel

  /** Queued connections have distinct ids, were all opened by this pool
      and are not closed; every closed id belongs to a connection this
      pool opened. */
  ghost predicate Sound(s: State) {
    && (forall i, j :: 0 <= i < j < |s.queue| ==> s.queue[i].id != s.queue[j].id)
    && (forall i :: 0 <= i < |s.queue| ==> s.queue[i].id < s.stats.created && s.queue[i].id !in s.closes)
    && (forall i :: 0 <= i < |s.closes| ==> s.closes[i] < s.stats.created)
  }

  /** `c` may be handed back to the pool: this pool opened it, it is not
      closed and it is not queued. */
  ghost predicate Outside(s: State, c: Conn) {
    c.id < s.stats.created && c.id !in s.closes && NotQueued(s, c.id)
  }

  /** No queued connection has id `id`. */
  ghost predicate NotQueued(s: State, id: nat) {
    forall i :: 0 <= i < |s.queue| ==> s.queue[i].id != id
  }

  lemma MakeConnSound(cfg: Config, s: State)
    requires Ready(cfg, s) && Sound(s)
    ensures Sound(MakeConn(cfg, s).0)
    ensures forall c :: Outside(s, c) ==> Outside(MakeConn(cfg, s).0, c)
  {
  }

  /** Checking out keeps the rest sound and leaves the taken connection
      outside the queue. */
  lemma {:induction false} GetSound(s: State)
    requires Sound(s) && s.queue != []
    ensures Sound(Get(s).1) && Outside(Get(s).1, s.queue[0])
  {
    var t := Get(s).1;
    assert t.queue == s.queue[1..];
    forall i | 0 <= i < |t.queue|
      ensures t.queue[i].id != s.queue[0].id
    {
      assert t.queue[i] == s.queue[i + 1];
    }
  }

  /** Checking out queues no new id. */
  lemma GetNotQueued(s: State, id: nat)
    requires NotQueued(s, id)
    ensures NotQueued(Get(s).1, id)
  {
    if s.queue != [] {
      var t := Get(s).1;
      forall i | 0 <= i < |t.queue| ensures t.queue[i].id != id {
        assert t.queue[i] == s.queue[i + 1];
      }
    }
  }

  /** Appending a connection from outside the queue keeps the state
      sound, and queues no id other than its own. */
  lemma {:induction false} AppendSound(s: State, c: Conn, id: nat)
    requires Sound(s) && Outside(s, c) && NotQueued(s, id) && id != c.id
    ensures Sound(s.(queue := s.queue + [c])) && NotQueued(s.(queue := s.queue + [c]), id)
  {
    var q := s.queue + [c];
    assert forall i :: 0 <= i < |s.queue| ==> q[i] == s.queue[i];
  }

  /** Closing a connection that is not queued keeps the state sound. */
  lemma {:induction false} CloseSound(s: State, id: nat, t: State)
    requires Sound(s) && id < s.stats.created && NotQueued(s, id)
    requires t.queue == s.queue && t.stats.created == s.stats.created && t.closes == s.closes + [id]
    ensures Sound(t)
  {
    forall i | 0 <= i < |t.closes| ensures t.closes[i] < t.stats.created {
      if i < |s.closes| { assert t.closes[i] == s.closes[i]; }
    }
  }

  /** Moving the head of the queue to its tail keeps the state sound and
      queues no new id. */
  lemma {:induction false} RequeueSound(s: State, id: nat)
    requires Sound(s) && s.queue != [] && NotQueued(s, id)
    ensures var g := Get(s);
      Sound(g.1.(queue := g.1.queue + [g.0.value])) && NotQueued(g.1.(queue := g.1.queue + [g.0.value]), id)
  {
    GetSound(s);
    GetNotQueued(s, id);
    AppendSound(Get(s).1, s.queue[0], id);
  }

  /** Handing back a connection keeps the state sound; a recycled one is
      closed and does not re-enter the queue. */
  lemma {:induction false} ReturnConnectionSound(cfg: Config, s: State, c: Conn)
    requires Ready(cfg, s) && Sound(s) && Outside(s, c)
    ensures Sound(ReturnConnection(cfg, s, c).0)
    ensures c.opCount >= cfg.recycle ==>
      var t := ReturnConnection(cfg, s, c).0;
      c.id in t.closes && NotQueued(t, c.id)
  {
    if c.opCount >= cfg.recycle {
      var s1 := s.(stats := s.stats.(recycled := s.stats.recycled + 1), closes := s.closes + [c.id]);
      CloseSound(s, c.id, s1);
      MakeConnSound(cfg, s1);
      var made := MakeConn(cfg, s1);
      if made.1.Ok? {
        ReplacementSound(cfg, s1, c.id);
        var g := Get(made.0);
        assert ReturnConnection(cfg, s, c).0 == g.1.(queue := g.1.queue + [g.0.value]);
      } else {
        assert ReturnConnection(cfg, s, c).0 == made.0;
      }
    } else {
      AppendSound(s, c, s.stats.created);
    }
  }

  /** After a replacement has been opened for a recycled connection,
      moving the oldest connection to the tail keeps the state sound and
      keeps the recycled id out of the queue. */
  lemma {:induction false} ReplacementSound(cfg: Config, s: State, id: nat)
    requires Ready(cfg, s) && Sound(s) && id < s.stats.created && NotQueued(s, id)
    requires MakeConn(cfg, s).1.Ok?
    ensures var g := Get(MakeConn(cfg, s).0);
      Sound(g.1.(queue := g.1.queue + [g.0.value])) && NotQueued(g.1.(queue := g.1.queue + [g.0.value]), id)
  {
    var made := MakeConn(cfg, s).0;
    MakeConnSound(cfg, s);
    assert NotQueued(made, id) by {
      assert forall i :: 0 <= i < |s.queue| ==> made.queue[i] == s.queue[i];
    }
    RequeueSound(made, id);
  }

  /** Recovering from a failed try keeps the state sound, and the failed
      connection is closed and not queued. */
  lemma {:induction false} HandleConnFailureSound(cfg: Config, s: State, c: Conn, k: nat)
    requires Ready(cfg, s) && Sound(s) && Outside(s, c)
    ensures Sound(HandleConnFailure(cfg, s, c, k).0)
    ensures var t := HandleConnFailure(cfg, s, c, k).0;
      c.id in t.closes && NotQueued(t, c.id)
  {
    var s1 := s.(closes := s.closes + [c.id],
                 stats := s.stats.(failed := s.stats.failed + 1),
                 sleeps := s.sleeps + [Backoff(k)]);
    CloseSound(s, c.id, s1);
    MakeConnSound(cfg, s1);
    assert forall i :: 0 <= i < |MakeConn(cfg, s1).0.queue| ==> MakeConn(cfg, s1).0.queue[i].id != c.id;
  }

  /** A try keeps the state sound: the connection it closes is not
      queued, and the one it hands back was not. */
  lemma {:induction false} TrySound(cfg: Config, s: State, k: nat, invoke: nat -> Outcome)
    requires Ready(cfg, s) && Sound(s)
    ensures Sound(Try(cfg, s, k, invoke).after)
  {
    if s.queue != [] {
      GetSound(s);
      var out := Checkout(s);
      assert Sound(out.1) && Outside(out.1, out.0);
      if invoke(k).Success? {
        ReturnConnectionSound(cfg, out.1, out.0);
      } else if IsRetryable(invoke(k)) {
        HandleConnFailureSound(cfg, out.1, out.0, k);
      }
    }
  }

  /** Whatever every try preserves, a whole call preserves. */
  lemma {:induction false} CallStepKeeps(cfg: Config, s: State, k: nat, tries: nat, invoke: nat -> Outcome,
                                         inv: State -> bool)
    requires Ready(cfg, s) && inv(s) && 1 <= k <= tries
    requires forall u: State, j: nat :: Ready(cfg, u) && inv(u) ==> inv(Try(cfg, u, j, invoke).after)
    ensures inv(CallStep(cfg, s, k, tries, invoke).0)
    decreases tries - k
  {
    var t := Try(cfg, s, k, invoke);
    if t.Retry? && k < tries {
      CallStepKeeps(cfg, t.after, k + 1, tries, invoke, inv);
    }
  }

  /** A whole call keeps the state sound: no queued connection is ever a
      closed one, and queued ids stay distinct. */
  lemma CallStepSound(cfg: Config, s: State, k: nat, tries: nat, invoke: nat -> Outcome)
    requires Ready(cfg, s) && Sound(s) && 1 <= k <= tries
    ensures Sound(CallStep(cfg, s, k, tries, invoke).0)
  {
    forall u: State, j: nat | Ready(cfg, u) && Sound(u)
      ensures Sound(Try(cfg, u, j, invoke).after)
    {
      TrySound(cfg, u, j, invoke);
    }
    CallStepKeeps(cfg, s, k, tries, invoke, u => Sound(u));
  }

  /** `call` keeps the state sound. */
  lemma CallSound(cfg: Config, s: State, invoke: nat -> Outcome)
    requires Ready(cfg, s) && Sound(s)
    ensures Sound(Call(cfg, s, invoke).0)
  {
    var tries := Tries(cfg.maxRetries);
    assert Call(cfg, s, invoke) == CallStep(cfg, s, 1, tries, invoke);
    CallStepSound(cfg, s, 1, tries, invoke);
  }

  /** `describe_keyspace` keeps the state sound. */
  lemma DescribeKeyspaceSound(cfg: Config, s: State, invoke: nat -> Outcome)
    requires Ready(cfg, s) && Sound(s)
    ensures Sound(DescribeKeyspace(cfg, s, invoke).0)
  {
    if s.description.None? {
      CallSound(cfg, s, invoke);
    }
  }

  /** `dispose` closes the connections but leaves them queued: after it,
      the head of a non-empty queue is a closed connection that `get`
      would still hand out. */
  lemma DisposeLeavesClosedQueued(s: State)
    requires s.queue != []
    ensures var t := Dispose(s);
      t.queue == s.queue && s.queue[0].id in t.closes && !Sound(t)
  {
    var t := Dispose(s);
    assert t.closes[|s.closes|] == s.queue[0].id;
  }

  /** From its `i`-th attempt on, `make_conn` succeeds exactly when one of
      the remaining attempts opens; the connection it appends is the first
      that opens, on the server the cursor has moved to by then, and each
      attempt before it counts one failure. */
  lemma {:induction false} MakeConnFromFound(cfg: Config, s: State, i: nat)
    requires Ready(cfg, s) && 1 <= i <= 2 * |cfg.servers| + 1
    ensures var r := MakeConnFrom(cfg, s, i);
      var m := 2 * |cfg.servers| + 1 - i;
      && (r.1.Ok? <==> exists a :: s.attempts <= a < s.attempts + m && cfg.opens(a))
      && (r.1.Ok? ==>
            && s.attempts < r.0.attempts <= s.attempts + m
            && cfg.opens(r.0.attempts - 1)
            && (forall a :: s.attempts <= a < r.0.attempts - 1 ==> !cfg.opens(a))
            && r.0.position == Advance(s.position, r.0.attempts - s.attempts, |cfg.servers|)
            && r.0.stats.failed == s.stats.failed + (r.0.attempts - s.attempts - 1))
    decreases 2 * |cfg.servers| + 1 - i
  {
    var n := |cfg.servers|;
    if i <= 2 * n {
      var pos := Next(s.position, n);
      if cfg.opens(s.attempts) {
        assert Advance(s.position, 1, n) == pos;
      } else {
        var s1 := s.(position := pos, attempts := s.attempts + 1,
                     stats := s.stats.(failed := s.stats.failed + 1));
        MakeConnFromFound(cfg, s1, i + 1);
        var r := MakeConnFrom(cfg, s1, i + 1);
        if r.1.Ok? {
          AdvanceShift(s.position, r.0.attempts - s1.attempts, n);
        }
      }
    }
  }

  /** When every remaining attempt fails, `make_conn` has counted one
      failure per attempt and moved the cursor once per attempt. */
  lemma {:induction false} MakeConnFromExhausted(cfg: Config, s: State, i: nat)
    requires Ready(cfg, s) && 1 <= i <= 2 * |cfg.servers| + 1
    requires MakeConnFrom(cfg, s, i).1.Err?
    ensures var m := 2 * |cfg.servers| + 1 - i;
      MakeConnFrom(cfg, s, i).0 == s.(position := Advance(s.position, m, |cfg.servers|),
                                      attempts := s.attempts + m,
                                      stats := s.stats.(failed := s.stats.failed + m))
    decreases 2 * |cfg.servers| + 1 - i
  {
    var n := |cfg.servers|;
    if i <= 2 * n {
      var pos := Next(s.position, n);
      var s1 := s.(position := pos, attempts := s.attempts + 1,
                   stats := s.stats.(failed := s.stats.failed + 1));
      MakeConnFromExhausted(cfg, s1, i + 1);
      AdvanceShift(s.position, 2 * n - i, n);
    }
  }

  /** `make_conn` succeeds exactly when one of its 2N attempts opens, and
      then appends a connection to the server the cursor stands on after
      the first attempt that opens; the attempts before it count as
      failures. */
  lemma MakeConnFound(cfg: Config, s: State)
    requires Ready(cfg, s)
    ensures var r := MakeConn(cfg, s);
      && (r.1.Ok? <==> exists a :: s.attempts <= a < s.attempts + 2 * |cfg.servers| && cfg.opens(a))
      && (r.1.Ok? ==>
            && s.attempts < r.0.attempts <= s.attempts + 2 * |cfg.servers|
            && cfg.opens(r.0.attempts - 1)
            && (forall a :: s.attempts <= a < r.0.attempts - 1 ==> !cfg.opens(a))
            && r.0.position == Advance(s.position, r.0.attempts - s.attempts, |cfg.servers|)
            && r.0.stats.failed == s.stats.failed + (r.0.attempts - s.attempts - 1))
  {
    MakeConnFromFound(cfg, s, 1);
  }

  /** A `make_conn` whose 2N attempts all fail counts 2N failures and
      leaves the cursor where it was: two full turns of the list. */
  lemma MakeConnExhausted(cfg: Config, s: State)
    requires Ready(cfg, s) && MakeConn(cfg, s).1.Err?
    ensures MakeConn(cfg, s).0 == s.(attempts := s.attempts + 2 * |cfg.servers|,
                                     stats := s.stats.(failed := s.stats.failed + 2 * |cfg.servers|))
  {
    MakeConnFromExhausted(cfg, s, 1);
    TwoTurns(s.position, |cfg.servers|);
  }

  /** When the next open attempt succeeds, `make_conn` opens exactly one
      connection and counts no failure. */
  lemma MakeConnReachable(cfg: Config, s: State)
    requires Ready(cfg, s) && cfg.opens(s.attempts)
    ensures var r := MakeConn(cfg, s);
      && r.1.Ok? && r.0.attempts == s.attempts + 1
      && |r.0.queue| == |s.queue| + 1 && r.0.stats == s.stats.(created := s.stats.created + 1)
  {
    assert MakeConn(cfg, s) == OpenStep(cfg, s, 1);
  }

  /** When the replacement opens at once, recovering from a failed try
      counts one failure, sleeps once and restores the queue length. */
  lemma HandleConnFailureReachable(cfg: Config, s: State, c: Conn, k: nat)
    requires Ready(cfg, s) && cfg.opens(s.attempts)
    ensures var h := HandleConnFailure(cfg, s, c, k);
      && h.1.Ok? && |h.0.queue| == |s.queue| + 1
      && h.0.stats == s.stats.(created := s.stats.created + 1, failed := s.stats.failed + 1)
      && h.0.sleeps == s.sleeps + [Backoff(k)] && h.0.invocations == s.invocations
      && h.0.attempts == s.attempts + 1
  {
    MakeConnReachable(cfg, s.(closes := s.closes + [c.id],
                              stats := s.stats.(failed := s.stats.failed + 1),
                              sleeps := s.sleeps + [Backoff(k)]));
  }

  /** Handing a connection back grows the queue by one and counts no
      failure when no recycling is due, or when the replacement opens at
      once. */
  lemma ReturnConnectionReachable(cfg: Config, s: State, c: Conn)
    requires Ready(cfg, s) && (c.opCount >= cfg.recycle ==> cfg.opens(s.attempts))
    ensures var r := ReturnConnection(cfg, s, c);
      && r.1.Ok? && |r.0.queue| == |s.queue| + 1 && r.0.stats.failed == s.stats.failed
      && r.0.sleeps == s.sleeps && r.0.invocations == s.invocations
  {
    if c.opCount >= cfg.recycle {
      MakeConnReachable(cfg, s.(stats := s.stats.(recycled := s.stats.recycled + 1), closes := s.closes + [c.id]));
    }
  }

  /** A retryable failure whose replacement opens at once: the try is
      recovered from with one failure counted, one sleep, and the queue
      back at its length. */
  lemma TryRetryReachable(cfg: Config, s: State, k: nat, invoke: nat -> Outcome)
    requires Ready(cfg, s) && s.queue != [] && IsRetryable(invoke(k)) && cfg.opens(s.attempts)
    ensures var t := Try(cfg, s, k, invoke);
      && t == Retry(t.after, invoke(k))
      && |t.after.queue| == |s.queue|
      && t.after.stats.failed == s.stats.failed + 1
      && t.after.stats.created == s.stats.created + 1
      && t.after.attempts == s.attempts + 1
      && t.after.invocations == s.invocations + 1
      && t.after.sleeps == s.sleeps + [Backoff(k)]
  {
    HandleConnFailureReachable(cfg, Checkout(s).1, Checkout(s).0, k);
  }

  /** A successful try, with no recycling due or a replacement that opens
      at once: the reply is returned and the queue is back at its length. */
  lemma TrySuccessReachable(cfg: Config, s: State, k: nat, invoke: nat -> Outcome)
    requires Ready(cfg, s) && s.queue != [] && invoke(k).Success?
    requires s.queue[0].opCount + 1 >= cfg.recycle ==> cfg.opens(s.attempts)
    ensures var t := Try(cfg, s, k, invoke);
      && t == Done(t.after, Ok(invoke(k).reply))
      && |t.after.queue| == |s.queue|
      && t.after.stats.failed == s.stats.failed
      && t.after.invocations == s.invocations + 1
      && t.after.sleeps == s.sleeps
  {
    ReturnConnectionReachable(cfg, Checkout(s).1, Checkout(s).0);
  }

  /** The `count` open attempts from attempt `from` on all succeed. */
  predicate OpensFrom(opens: nat -> bool, from: nat, count: nat)
    decreases count
  {
    count == 0 || (opens(from) && OpensFrom(opens, from + 1, count - 1))
  }

  /** Tries `k`..`tries` all fail with a retryable exception. */
  predicate RetryableFrom(invoke: nat -> Outcome, k: nat, tries: nat)
    decreases if tries >= k then tries - k + 1 else 0
  {
    k > tries || (IsRetryable(invoke(k)) && RetryableFrom(invoke, k + 1, tries))
  }

  /** With every replacement opening at once and every try failing
      retryably, a call makes all its tries, counts each as a failure,
      replaces each failed connection, sleeps with the growing backoffs,
      and ends with MaxRetriesException carrying the last failure. */
  lemma {:induction false} CallAllRetryable(cfg: Config, s: State, k: nat, tries: nat, invoke: nat -> Outcome)
    requires Ready(cfg, s) && 1 <= k <= tries && s.queue != []
    requires OpensFrom(cfg.opens, s.attempts, tries - k + 1)
    requires RetryableFrom(invoke, k, tries)
    ensures var r := CallStep(cfg, s, k, tries, invoke);
      && r.1 == Err(MaxRetriesExceeded(invoke(tries)))
      && r.0.invocations == s.invocations + (tries - k + 1)
      && r.0.stats.failed == s.stats.failed + (tries - k + 1)
      && r.0.stats.created == s.stats.created + (tries - k + 1)
      && |r.0.queue| == |s.queue|
      && r.0.sleeps == s.sleeps + Schedule(k, tries - k + 1)
    decreases tries - k
  {
    TryRetryReachable(cfg, s, k, invoke);
    if k == tries {
      assert Schedule(k, 1) == [Backoff(k)];
    } else {
      CallAllRetryable(cfg, Try(cfg, s, k, invoke).after, k + 1, tries, invoke);
      RetryAllStep(cfg, s, k, tries, invoke);
    }
  }

  /** The step of `CallAllRetryable`: what holds from try `k + 1` on holds
      from try `k` once try `k` has been recovered from. */
  lemma RetryAllStep(cfg: Config, s: State, k: nat, tries: nat, invoke: nat -> Outcome)
    requires Ready(cfg, s) && 1 <= k < tries && s.queue != []
    requires cfg.opens(s.attempts) && IsRetryable(invoke(k))
    requires var t := Try(cfg, s, k, invoke).after;
      var r := CallStep(cfg, t, k + 1, tries, invoke);
      && r.1 == Err(MaxRetriesExceeded(invoke(tries)))
      && r.0.invocations == t.invocations + (tries - k)
      && r.0.stats.failed == t.stats.failed + (tries - k)
      && r.0.stats.created == t.stats.created + (tries - k)
      && |r.0.queue| == |t.queue|
      && r.0.sleeps == t.sleeps + Schedule(k + 1, tries - k)
    ensures var r := CallStep(cfg, s, k, tries, invoke);
      && r.1 == Err(MaxRetriesExceeded(invoke(tries)))
      && r.0.invocations == s.invocations + (tries - k + 1)
      && r.0.stats.failed == s.stats.failed + (tries - k + 1)
      && r.0.stats.created == s.stats.created + (tries - k + 1)
      && |r.0.queue| == |s.queue|
      && r.0.sleeps == s.sleeps + Schedule(k, tries - k + 1)
  {
    TryRetryReachable(cfg, s, k, invoke);
    ScheduleCons(s.sleeps, k, tries - k);
  }

  /** A try that succeeds, with no recycling due or a replacement that
      opens at once, ends the call with its reply. */
  lemma CallSucceedsAt(cfg: Config, s: State, k: nat, tries: nat, invoke: nat -> Outcome)
    requires Ready(cfg, s) && 1 <= k <= tries && s.queue != [] && invoke(k).Success?
    requires s.queue[0].opCount + 1 >= cfg.recycle ==> cfg.opens(s.attempts)
    ensures var r := CallStep(cfg, s, k, tries, invoke);
      && r.1 == Ok(invoke(k).reply)
      && r.0.invocations == s.invocations + 1
      && r.0.stats.failed == s.stats.failed
      && |r.0.queue| == |s.queue|
      && r.0.sleeps == s.sleeps + Schedule(k, 0)
  {
    TrySuccessReachable(cfg, s, k, invoke);
    assert Schedule(k, 0) == [];
  }

  /** The step of `CallRecovers`: what holds from try `k + 1` on holds
      from try `k` once try `k` has been recovered from. */
  lemma RecoverStep(cfg: Config, s: State, k: nat, m: nat, tries: nat, invoke: nat -> Outcome, reply: string)
    requires Ready(cfg, s) && 1 <= k < m <= tries && s.queue != []
    requires cfg.opens(s.attempts) && IsRetryable(invoke(k))
    requires var t := Try(cfg, s, k, invoke).after;
      var r := CallStep(cfg, t, k + 1, tries, invoke);
      && r.1 == Ok(reply)
      && r.0.invocations == t.invocations + (m - k)
      && r.0.stats.failed == t.stats.failed + (m - k - 1)
      && |r.0.queue| == |t.queue|
      && r.0.sleeps == t.sleeps + Schedule(k + 1, m - k - 1)
    ensures var r := CallStep(cfg, s, k, tries, invoke);
      && r.1 == Ok(reply)
      && r.0.invocations == s.invocations + (m - k + 1)
      && r.0.stats.failed == s.stats.failed + (m - k)
      && |r.0.queue| == |s.queue|
      && r.0.sleeps == s.sleeps + Schedule(k, m - k)
  {
    TryRetryReachable(cfg, s, k, invoke);
    ScheduleCons(s.sleeps, k, m - k - 1);
  }

  /** With every replacement opening at once, a call whose tries `k`..`m-1`
      fail retryably and whose try `m` succeeds returns that reply after
      exactly those tries, and leaves the queue as long as it found it. */
  lemma {:induction false} CallRecovers(cfg: Config, s: State, k: nat, m: nat, tries: nat,
                                        invoke: nat -> Outcome, reply: string)
    requires Ready(cfg, s) && 1 <= k <= m <= tries && s.queue != []
    requires OpensFrom(cfg.opens, s.attempts, m - k + 1)
    requires RetryableFrom(invoke, k, m - 1)
    requires invoke(m) == Success(reply)
    ensures var r := CallStep(cfg, s, k, tries, invoke);
      && r.1 == Ok(reply)
      && r.0.invocations == s.invocations + (m - k + 1)
      && r.0.stats.failed == s.stats.failed + (m - k)
      && |r.0.queue| == |s.queue|
      && r.0.sleeps == s.sleeps + Schedule(k, m - k)
    decreases tries - k
  {
    if k == m {
      CallSucceedsAt(cfg, s, k, tries, invoke);
    } else {
      TryRetryReachable(cfg, s, k, invoke);
      var t := Try(cfg, s, k, invoke).after;
      CallRecovers(cfg, t, k + 1, m, tries, invoke, reply);
      RecoverStep(cfg, s, k, m, tries, invoke, reply);
    }
  }

  /** With `max_retries == 0` a call makes exactly one try; a retryable
      failure still closes the connection, sleeps 0.2 s and opens a
      replacement before MaxRetriesException is raised. */
  lemma CallWithoutRetries(cfg: Config, s: State, invoke: nat -> Outcome)
    requires Ready(cfg, s) && cfg.maxRetries == 0 && s.queue != []
    requires cfg.opens(s.attempts)
    requires IsRetryable(invoke(1))
    ensures var r := Call(cfg, s, invoke);
      && r.1 == Err(MaxRetriesExceeded(invoke(1)))
      && r.0.invocations == s.invocations + 1
      && r.0.sleeps == s.sleeps + [200000]
  {
    CallAllRetryable(cfg, s, 1, 1, invoke);
    assert Call(cfg, s, invoke) == CallStep(cfg, s, 1, 1, invoke);
    assert Schedule(1, 1) == [Backoff(1)];
  }

  /** A try that fails with a non-retryable exception ends the call at
      once: the connection is neither closed nor returned, nothing is
      counted, and no sleep or replacement happens. */
  lemma CallPassesThrough(cfg: Config, s: State, k: nat, tries: nat, invoke: nat -> Outcome)
    requires Ready(cfg, s) && 1 <= k <= tries && s.queue != []
    requires !invoke(k).Success? && !IsRetryable(invoke(k))
    ensures var r := CallStep(cfg, s, k, tries, invoke);
      && r.1 == Err(Raised(invoke(k)))
      && r.0 == s.(queue := s.queue[1..], invocations := s.invocations + 1)
  {
  }

  /** Construction keeps the state sound. */
  lemma {:induction false} FillSound(cfg: Config, s: State, count: nat)
    requires Ready(cfg, s) && Sound(s)
    ensures Sound(Fill(cfg, s, count).0)
    decreases count
  {
    if count > 0 {
      MakeConnSound(cfg, s);
      var made := MakeConn(cfg, s);
      if made.1.Ok? {
        FillSound(cfg, made.0, count - 1);
      }
    }
  }

  /** The first connection a pool opens goes to the server at index
      `1 % N`: the cursor starts at 0 and steps before the attempt. */
  lemma FirstConnectionServer(cfg: Config)
    requires ValidConfig(cfg) && cfg.opens(0)
    ensures MakeConn(cfg, Initial()).0.queue == [Conn(0, cfg.servers[1 % |cfg.servers|], 0)]
  {
    assert MakeConn(cfg, Initial()) == OpenStep(cfg, Initial(), 1);
    NextMod(0, |cfg.servers|);
  }

  /** When every server answers, construction fills the pool. */
  lemma {:induction false} FillReachable(cfg: Config, s: State, count: nat)
    requires Ready(cfg, s) && forall a :: cfg.opens(a)
    ensures Fill(cfg, s, count).1.Ok?
    decreases count
  {
    if count > 0 {
      MakeConnReachable(cfg, s);
      FillReachable(cfg, MakeConn(cfg, s).0, count - 1);
    }
  }

  /** With every server unreachable, construction fails with
      NoServerAvailable before any connection exists, after trying every
      server twice. */
  lemma ConstructUnreachable(cfg: Config)
    requires ValidConfig(cfg) && forall a :: !cfg.opens(a)
    ensures var r := Construct(cfg);
      && r.1 == Err(NoServerAvailable)
      && r.0.queue == [] && r.0.stats.created == 0
      && r.0.stats.failed == 2 * |cfg.servers|
  {
    assert Ready(cfg, Initial());
    MakeConnFound(cfg, Initial());
    MakeConnExhausted(cfg, Initial());
    assert Construct(cfg) == MakeConn(cfg, Initial());
  }

  /** A built pool is sound, whether or not its fill completed. */
  lemma ConstructSound(cfg: Config)
    requires ValidConfig(cfg)
    ensures Sound(Construct(cfg).0)
  {
    FillSound(cfg, Initial(), PoolSize(|cfg.servers|));
  }

  /** `describe_keyspace` called repeatedly with the given try outcomes. */
  function DescribeRepeatedly(cfg: Config, s: State, invokes: seq<nat -> Outcome>): (r: State)
    requires Ready(cfg, s)
    ensures Ready(cfg, r) && Grew(s, r)
    decreases |invokes|
  {
    if invokes == [] then s
    else DescribeRepeatedly(cfg, DescribeKeyspace(cfg, s, invokes[0]).0, invokes[1..])
  }

  /** Once a description is cached, any number of further
      `describe_keyspace` calls change nothing and invoke nothing. */
  lemma {:induction false} CachedDescriptionIsFree(cfg: Config, s: State, invokes: seq<nat -> Outcome>)
    requires Ready(cfg, s) && s.description.Some?
    ensures DescribeRepeatedly(cfg, s, invokes) == s
    decreases |invokes|
  {
    if invokes != [] {
      CachedDescriptionIsFree(cfg, s, invokes[1..]);
    }
  }

  /** After the first successful `describe_keyspace`, the remote call is
      never issued again. */
  lemma DescribeOnce(cfg: Config, s: State, first: nat -> Outcome, rest: seq<nat -> Outcome>)
    requires Ready(cfg, s)
    requires DescribeKeyspace(cfg, s, first).1.Ok?
    ensures var s1 := DescribeKeyspace(cfg, s, first).0;
      DescribeRepeatedly(cfg, s1, rest) == s1 && s1.invocations <= s.invocations + Tries(cfg.maxRetries)
  {
    CachedDescriptionIsFree(cfg, DescribeKeyspace(cfg, s, first).0, rest);
  }

  /** `dispose` closes every queued connection once per call and keeps the
      queue; disposing twice closes the same connections again, in the
      same order. */
  lemma DisposeTwice(s: State)
    ensures Dispose(Dispose(s)).queue == s.queue
    ensures Dispose(Dispose(s)).closes == s.closes + IdsOf(s.queue) + IdsOf(s.queue)
  {
  }
}
