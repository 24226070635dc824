/** The retry budget and the exponential backoff of `call`. */
module Retry {
  import opened Rotation

  /** The try budget used when `max_retries` is -1: 2^31 - 1. */
  const MaxTries: nat := 2147483647

  /** BASE_BACKOFF (0.1 s) times MICROS (10^6): the backoff unit in
      microseconds. 0.1 * 10^6 rounds to exactly 100000 in double
      precision, and scaling by a power of two is exact. */
  const BackoffUnit: nat := 100000

  /** How many times `call` tries an operation. */
  function Tries(maxRetries: int): (r: nat)
    requires maxRetries >= -1
    ensures r >= 1
    ensures maxRetries == -1 ==> r == MaxTries
    ensures maxRetries >= 0 ==> r == maxRetries + 1
  {
    if maxRetries == -1 then MaxTries
    else if maxRetries == 0 then 1
    else maxRetries + 1
  }

  function Pow2(k: nat): (r: nat)
    ensures r >= 1
  {
    if k == 0 then 1 else 2 * Pow2(k - 1)
  }

  /** The sleep, in microseconds, after the `k`-th try failed retryably. */
  function Backoff(k: nat): (r: nat)
    ensures r >= BackoffUnit
  {
    BackoffUnit * Pow2(k)
  }

  /** `usleep` receives its argument as a C `unsigned int`, so the
      microseconds it sleeps are taken modulo 2^32. */
  const SleepRange: nat := 0x1_0000_0000

  /** The sleep `usleep` performs after try `k`. Up to `k == 46` the
      backoff is an exact PHP integer; from 47 on it no longer fits one. */
  function Slept(k: nat): (r: nat)
    requires k <= 46
    ensures r < SleepRange
  {
    Backoff(k) % SleepRange
  }

  /** Powers of two multiply by adding exponents. */
  lemma {:induction false} Pow2Add(a: nat, b: nat)
    ensures Pow2(a + b) == Pow2(a) * Pow2(b)
    decreases a
  {
    if a > 0 {
      Pow2Add(a - 1, b);
    }
  }

  /** Up to try 15 the sleep performed is the backoff requested. */
  lemma SleptExact(k: nat)
    requires k <= 15
    ensures Slept(k) == Backoff(k)
  {
    if k < 15 {
      BackoffIncreasing(k, 15);
    }
    Pow2Add(8, 7);
    assert Pow2(8) == 256 && Pow2(7) == 128;
  }

  /** At try 16 the requested backoff passes 2^32 and wraps round: the
      sleep performed is shorter than after try 15. */
  lemma SleepWraps()
    ensures Slept(16) < Slept(15)
  {
    SleptExact(15);
    Pow2Add(8, 8);
    assert Pow2(8) == 256;
  }

  /** From try 27 on the backoff is a multiple of 2^32, so no sleep is
      performed at all. */
  lemma SleptZero(k: nat)
    requires 27 <= k <= 46
    ensures Slept(k) == 0
  {
    var x := Pow2(k - 27);
    Pow2Add(27, k - 27);
    TwoToThe27();
    assert Pow2(k) == 134217728 * x;
    assert Backoff(k) == (3125 * x) * SleepRange;
    ModUnique(Backoff(k), SleepRange, 3125 * x, 0);
  }

  /** 2^27: with 100000 = 3125 * 2^5, the backoff of try 27 is 3125 * 2^32. */
  lemma TwoToThe27()
    ensures Pow2(27) == 134217728
  {
    Pow2Add(24, 3);
    Pow2Add(16, 8);
    Pow2Add(8, 8);
    assert Pow2(8) == 256 && Pow2(3) == 8;
  }

  /** Each backoff is twice the previous one. */
  lemma BackoffDoubles(k: nat)
    ensures Backoff(k + 1) == 2 * Backoff(k)
  {
  }

  /** Backoffs grow strictly with the try number. */
  lemma {:induction false} BackoffIncreasing(i: nat, j: nat)
    requires i < j
    ensures Backoff(i) < Backoff(j)
  {
    BackoffDoubles(j - 1);
    if i < j - 1 {
      BackoffIncreasing(i, j - 1);
    }
  }

  /** The sleeps made after tries `from`, `from + 1`, ... in order. */
  function Schedule(from: nat, count: nat): (r: seq<nat>)
    ensures |r| == count
    ensures forall i :: 0 <= i < count ==> r[i] == Backoff(from + i)
    decreases count
  {
    if count == 0 then [] else [Backoff(from)] + Schedule(from + 1, count - 1)
  }

  /** Sleeping after try `k` and then after the `n` tries that follow it
      is sleeping after the `n + 1` tries from `k` on. */
  lemma ScheduleCons(before: seq<nat>, k: nat, n: nat)
    ensures before + [Backoff(k)] + Schedule(k + 1, n) == before + Schedule(k, n + 1)
  {
    assert Schedule(k, n + 1) == [Backoff(k)] + Schedule(k + 1, n);
  }

  /** The sleeps of one call are strictly increasing. */
  lemma {:induction false} ScheduleIncreasing(from: nat, count: nat)
    ensures forall i, j :: 0 <= i < j < count ==> Schedule(from, count)[i] < Schedule(from, count)[j]
  {
    var s := Schedule(from, count);
    forall i, j | 0 <= i < j < count
      ensures s[i] < s[j]
    {
      BackoffIncreasing(from + i, from + j);
    }
  }
}
