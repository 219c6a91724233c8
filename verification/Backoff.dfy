/** Retry delays in signed 64-bit nanoseconds: doubling with a cap, and jitter of up to a half. */
module Backoff {

  newtype int64 = x: int | -0x8000_0000_0000_0000 <= x < 0x8000_0000_0000_0000

  const DEFAULT_BASE: int64 := 2_000_000_000
  const DEFAULT_CAP: int64 := 60_000_000_000

  datatype Schedule = Schedule(base: int64, cap: int64)

  /** Settings that are not positive select the defaults. */
  function WithDefaults(s: Schedule): (r: Schedule)
    ensures r.base > 0 && r.cap > 0
    ensures s.base > 0 ==> r.base == s.base
    ensures s.cap > 0 ==> r.cap == s.cap
  {
    Schedule(if s.base <= 0 then DEFAULT_BASE else s.base, if s.cap <= 0 then DEFAULT_CAP else s.cap)
  }

  function Min(a: int, b: int): int { if a <= b then a else b }

  function Pow2(n: nat): nat { if n == 0 then 1 else 2 * Pow2(n - 1) }

  /** The delay before retry k without jitter: the base doubled k - 1 times, up to the cap. */
  function Undithered(base: int, cap: int, k: nat): int
    requires k >= 1
  { Min(base * Pow2(k - 1), cap) }

  /** A sleep: the delay, clamped to the maximum, plus a jitter of at most half of it, clamped again.
      `draw(n)` is the random source's number below n; every intermediate value stays within 64 bits. */
  method RetryDelay(delay: int64, maximum: int64, draw: int64 -> int64) returns (sleep: int64)
    requires forall n: int64 :: n > 0 ==> 0 <= draw(n) < n
    ensures maximum <= 0 ==> sleep == 0
    ensures maximum > 0 ==>
              var d := Min(if delay < 0 then 0 else delay as int, maximum as int);
              d <= sleep as int <= Min(maximum as int, d + d / 2)
  {
    if maximum <= 0 { return 0; }
    var d := delay;
    if d < 0 { d := 0; }
    if d > maximum { d := maximum; }
    var limit := d / 2;
    var jitter := draw(limit + 1);
    if d >= maximum - jitter { return maximum; }
    sleep := d + jitter;
  }

  /** The next delay: doubled unless that would pass the maximum, which is tested without adding. */
  method NextRetryDelay(delay: int64, maximum: int64) returns (next: int64)
    ensures maximum <= 0 ==> next == 0
    ensures maximum > 0 && delay > 0 ==> next as int == Min(2 * delay as int, maximum as int)
    ensures maximum > 0 && delay <= 0 ==> next == 0
  {
    if maximum <= 0 { return 0; }
    if delay >= maximum { return maximum; }
    if delay <= 0 { return 0; }
    if delay > maximum - delay { return maximum; }
    next := delay * 2;
  }

  lemma {:induction false} Pow2Positive(n: nat)
    ensures Pow2(n) >= 1
  {
    if n > 0 { Pow2Positive(n - 1); }
  }

  /** Doubling the capped delay and capping again is capping the doubled base. */
  lemma UnditheredNext(base: int, cap: int, k: nat)
    requires base > 0 && cap > 0 && k >= 1
    ensures Undithered(base, cap, k + 1) == Min(2 * Undithered(base, cap, k), cap)
    ensures 0 < Undithered(base, cap, k) <= cap
  {
    Pow2Positive(k - 1);
    var p := Pow2(k - 1);
    assert Pow2(k) == 2 * p;
    assert base * (2 * p) == 2 * (base * p);
    assert base * p >= base;
  }

  function Total(sleeps: seq<int64>): int {
    if sleeps == [] then 0 else Total(sleeps[..|sleeps| - 1]) + sleeps[|sleeps| - 1] as int
  }

  lemma TotalSnoc(sleeps: seq<int64>, s: int64)
    ensures Total(sleeps + [s]) == Total(sleeps) + s as int
  {
    assert (sleeps + [s])[..|sleeps|] == sleeps;
  }

  /** Sleep k lies between the delay and one and a half times the delay, never above the cap. */
  ghost predicate SleepOk(s: Schedule, k: nat, sleep: int64)
    requires k >= 1
  {
    var u := Undithered(s.base as int, s.cap as int, k);
    u <= sleep as int <= Min(s.cap as int, u + u / 2)
  }

  /** The sleeps of a sequence whose every attempt but the last fails transiently. */
  method Sleeps(schedule: Schedule, attempts: int, draws: (nat, int64) -> int64) returns (sleeps: seq<int64>)
    requires forall k, n: int64 :: n > 0 ==> 0 <= draws(k, n) < n
    ensures |sleeps| == if attempts < 1 then 0 else attempts - 1
    ensures forall k :: 0 <= k < |sleeps| ==> SleepOk(WithDefaults(schedule), k + 1, sleeps[k])
    ensures Total(sleeps) <= |sleeps| * WithDefaults(schedule).cap as int
  {
    var s := WithDefaults(schedule);
    var delay, last := s.base, if attempts < 1 then 1 else attempts;
    sleeps := [];
    var attempt := 1;
    while attempt < last
      invariant 1 <= attempt <= last && |sleeps| == attempt - 1
      invariant delay > 0 && Min(delay as int, s.cap as int) == Undithered(s.base as int, s.cap as int, attempt)
      invariant forall k :: 0 <= k < |sleeps| ==> SleepOk(s, k + 1, sleeps[k])
      invariant Total(sleeps) <= |sleeps| * s.cap as int
    {
      var sleep := RetryDelay(delay, s.cap, n => draws(attempt, n));
      UnditheredNext(s.base as int, s.cap as int, attempt);
      TotalSnoc(sleeps, sleep);
      MoreTime(|sleeps|, s.cap as int);
      delay := NextRetryDelay(delay, s.cap);
      sleeps := sleeps + [sleep];
      attempt := attempt + 1;
    }
  }

  lemma MoreTime(n: nat, cap: int)
    ensures (n + 1) * cap == n * cap + cap
  {}
}
