/**
 * The previous/next buttons and the completion rollover move through the
 * catalog with `(i + 1) % N` and `(i - 1 + N) % N`. Both operands are never
 * negative, so Java's `%` gives the wrap-around of a ring of N tracks.
 */
module TrackIndex {
  import opened JavaInt

  /** `(i + 1) % n`: the following track, the first one after the last. */
  function Next(i: int, n: int): (r: int)
    requires 0 <= i < n
    ensures 0 <= r < n
    ensures r == if i == n - 1 then 0 else i + 1
  {
    Rem(i + 1, n)
  }

  /** `(i - 1 + n) % n`: the preceding track, the last one before the first. */
  function Previous(i: int, n: int): (r: int)
    requires 0 <= i < n
    ensures 0 <= r < n
    ensures r == if i == 0 then n - 1 else i - 1
  {
    Rem(i - 1 + n, n)
  }

  /** Previous undoes next, and next undoes previous. */
  lemma PreviousUndoesNext(i: int, n: int)
    requires 0 <= i < n
    ensures Previous(Next(i, n), n) == i
    ensures Next(Previous(i, n), n) == i
  {
  }

  /** The track reached by pressing next `k` times from track `i`. */
  function NextTimes(i: int, n: int, k: nat): (r: int)
    requires 0 <= i < n
    ensures 0 <= r < n
  {
    if k == 0 then i else Next(NextTimes(i, n, k - 1), n)
  }

  /** The track reached by pressing previous `k` times from track `i`. */
  function PreviousTimes(i: int, n: int, k: nat): (r: int)
    requires 0 <= i < n
    ensures 0 <= r < n
  {
    if k == 0 then i else Previous(PreviousTimes(i, n, k - 1), n)
  }

  lemma MulAtLeast(n: int, d: int)
    requires n > 0 && d >= 1
    ensures n * d >= n
  {
  }

  /** The Euclidean remainder is the only one in 0..n-1. */
  lemma ModUnique(x: int, n: int, q: int, r: int)
    requires n > 0 && 0 <= r < n && x == n * q + r
    ensures x % n == r
  {
    var q', r' := x / n, x % n;
    assert x == n * q' + r';
    if q < q' {
      assert n * q' == n * q + n * (q' - q);
      MulAtLeast(n, q' - q);
    } else if q > q' {
      assert n * q == n * q' + n * (q - q');
      MulAtLeast(n, q - q');
    }
  }

  /** One step forward on the ring of remainders. */
  lemma ModSucc(x: int, n: int)
    requires n > 0
    ensures (x + 1) % n == if x % n == n - 1 then 0 else x % n + 1
  {
    var q := x / n;
    assert x == n * q + x % n;
    if x % n == n - 1 {
      ModUnique(x + 1, n, q + 1, 0);
    } else {
      ModUnique(x + 1, n, q, x % n + 1);
    }
  }

  /** One step back on the ring of remainders. */
  lemma ModPred(x: int, n: int)
    requires n > 0
    ensures (x - 1) % n == if x % n == 0 then n - 1 else x % n - 1
  {
    var q := x / n;
    assert x == n * q + x % n;
    if x % n == 0 {
      ModUnique(x - 1, n, q - 1, n - 1);
    } else {
      ModUnique(x - 1, n, q, x % n - 1);
    }
  }

  /** Pressing next `k` times advances by `k` around the ring. */
  lemma {:induction false} NextTimesAdvances(i: int, n: int, k: nat)
    requires 0 <= i < n
    ensures NextTimes(i, n, k) == (i + k) % n
  {
    if k == 0 {
      ModUnique(i, n, 0, i);
    } else {
      NextTimesAdvances(i, n, k - 1);
      ModSucc(i + k - 1, n);
    }
  }

  /** Pressing previous `k` times goes back by `k` around the ring. */
  lemma {:induction false} PreviousTimesRetreats(i: int, n: int, k: nat)
    requires 0 <= i < n
    ensures PreviousTimes(i, n, k) == (i - k) % n
  {
    if k == 0 {
      ModUnique(i, n, 0, i);
    } else {
      PreviousTimesRetreats(i, n, k - 1);
      ModPred(i - k + 1, n);
    }
  }

  /** Pressing next N times, or previous N times, comes back to the start. */
  lemma FullCircle(i: int, n: int)
    requires 0 <= i < n
    ensures NextTimes(i, n, n) == i
    ensures PreviousTimes(i, n, n) == i
  {
    NextTimesAdvances(i, n, n);
    PreviousTimesRetreats(i, n, n);
    ModUnique(i + n, n, 1, i);
    ModUnique(i - n, n, -1, i);
  }
}
