/** The configured server list and the rotating cursor that picks the
    server for each open attempt. */
module Rotation {
  import opened PoolTypes

  /** The list used when none (or an empty one) is configured. */
  const DefaultServers: seq<string> := ["localhost:9160"]

  /** The server list a pool works with: the configured one, or the default
      when the configuration gives NULL or an empty array (PHP's loose
      `== NULL` holds for both). */
  function ServerList(configured: Option<seq<string>>): (r: seq<string>)
    ensures |r| >= 1
    ensures configured.Some? && configured.value != [] ==> r == configured.value
    ensures configured.None? || configured.value == [] ==> r == DefaultServers
  {
    if configured.None? || configured.value == [] then DefaultServers else configured.value
  }

  /** The cursor step taken before every open attempt: one position on,
      wrapping at the server count. */
  function Next(position: nat, n: nat): (r: nat)
    requires n >= 1 && position < n
    ensures r < n
  {
    if position == n - 1 then 0 else position + 1
  }

  /** The step is the source's `(position + 1) % n`. */
  lemma NextMod(position: nat, n: nat)
    requires n >= 1 && position < n
    ensures Next(position, n) == (position + 1) % n
  {
    if position == n - 1 {
      ModUnique(position + 1, n, 1, 0);
    } else {
      ModUnique(position + 1, n, 0, position + 1);
    }
  }

  /** Where the cursor stands after `k` steps from `position`. */
  function Advance(position: nat, k: nat, n: nat): (r: nat)
    requires n >= 1 && position < n
    ensures r < n
    decreases k
  {
    if k == 0 then position else Next(Advance(position, k - 1, n), n)
  }

  lemma MulAtLeast(d: int, n: nat)
    requires d >= 1
    ensures d * n >= n
  {
    var e := d - 1;
    assert d * n == e * n + n;
  }

  /** Euclidean division has only one quotient and remainder. */
  lemma ModUnique(a: nat, n: nat, q: nat, r: nat)
    requires n >= 1 && r < n && a == q * n + r
    ensures a % n == r
  {
    var q2, r2 := a / n, a % n;
    assert a == q2 * n + r2;
    if q > q2 {
      MulAtLeast(q - q2, n);
    } else if q < q2 {
      MulAtLeast(q2 - q, n);
    }
  }

  /** Stepping from `a % n` reaches `(a + 1) % n`. */
  lemma ModStep(a: nat, n: nat)
    requires n >= 1
    ensures Next(a % n, n) == (a + 1) % n
  {
    var q, r := a / n, a % n;
    assert a == q * n + r;
    if r + 1 < n {
      ModUnique(a + 1, n, q, r + 1);
    } else {
      assert (q + 1) * n == q * n + n;
      ModUnique(a + 1, n, q + 1, 0);
    }
  }

  /** `k` steps of the cursor move it `k` places round the list. */
  lemma {:induction false} AdvanceMod(position: nat, k: nat, n: nat)
    requires n >= 1 && position < n
    ensures Advance(position, k, n) == (position + k) % n
  {
    if k == 0 {
      ModUnique(position, n, 0, position);
    } else {
      AdvanceMod(position, k - 1, n);
      ModStep(position + k - 1, n);
    }
  }

  /** Stepping first and then `k` times is stepping `k + 1` times. */
  lemma {:induction false} AdvanceShift(position: nat, k: nat, n: nat)
    requires n >= 1 && position < n
    ensures Advance(Next(position, n), k, n) == Advance(position, k + 1, n)
  {
    if k > 0 {
      AdvanceShift(position, k - 1, n);
    }
  }

  /** Two full turns bring the cursor back to where it started, so a
      `make_conn` that fails every attempt leaves the cursor unchanged. */
  lemma TwoTurns(position: nat, n: nat)
    requires n >= 1 && position < n
    ensures Advance(position, 2 * n, n) == position
  {
    AdvanceMod(position, 2 * n, n);
    ModUnique(position + 2 * n, n, 2, position);
  }

  /** Within 2N consecutive attempts starting after `position`, every server
      is tried at least twice: once among the first N attempts and once
      again exactly N attempts later. */
  lemma {:induction false} EveryServerTwice(position: nat, n: nat, target: nat)
    requires n >= 1 && position < n && target < n
    ensures exists i :: 1 <= i <= n && Advance(position, i, n) == target && Advance(position, i + n, n) == target
  {
    var i := if target > position then target - position else target + n - position;
    AdvanceMod(position, i, n);
    AdvanceMod(position, i + n, n);
    if target > position {
      ModUnique(position + i, n, 0, target);
      ModUnique(position + i + n, n, 1, target);
    } else {
      ModUnique(position + i, n, 1, target);
      ModUnique(position + i + n, n, 2, target);
    }
    assert Advance(position, i, n) == target && Advance(position, i + n, n) == target;
  }

  /** Numbers less than `n` apart leave different remainders. */
  lemma ModDistinct(a: nat, b: nat, n: nat)
    requires n >= 1 && a < b < a + n
    ensures a % n != b % n
  {
    var qa, qb := a / n, b / n;
    assert a == qa * n + a % n;
    assert b == qb * n + b % n;
    if a % n == b % n {
      var d := qb - qa;
      assert b - a == qb * n - qa * n;
      assert qb * n - qa * n == d * n;
      if d >= 1 {
        MulAtLeast(d, n);
      }
    }
  }

  /** Two step counts less than N apart lead to different servers. */
  lemma DistinctSteps(position: nat, n: nat, i: nat, j: nat)
    requires n >= 1 && position < n && i < j < i + n
    ensures Advance(position, i, n) != Advance(position, j, n)
  {
    AdvanceMod(position, i, n);
    AdvanceMod(position, j, n);
    ModDistinct(position + i, position + j, n);
  }

  /** N consecutive attempts go to N different servers: the rotation visits
      every server before it repeats one. */
  lemma {:induction false} RotationVisitsEachOnce(position: nat, n: nat)
    requires n >= 1 && position < n
    ensures forall i, j :: 1 <= i < j <= n ==> Advance(position, i, n) != Advance(position, j, n)
  {
    forall i, j | 1 <= i < j <= n
      ensures Advance(position, i, n) != Advance(position, j, n)
    {
      DistinctSteps(position, n, i, j);
    }
  }
}
