/**
 The attempts at a bulk batch: how a batch ends, which of its attempts are calls, and what each call
 costs the accounts it is admitted by.
 */
module BulkScript {
  import opened Common
  import A = Admission

  datatype Class = Transient | DataError | Fatal | Unknown
  datatype Mode = FailFast | Quarantine | Skip

  /** How one attempt at a batch ends: its context is done before it starts, admission refuses it, a
      meter fails, the call gives the wrong number of results, it answers, or it fails with a class.
      The environment refuses where the context is done or a rate limiter fails; budgets do so themselves. */
  datatype Attempt = Cancelled | Refused | MeterFails | WrongCount | Answers | Errs(cls: Class, done: bool, journalFails: bool)

  function Sum(s: seq<nat>): nat { if s == [] then 0 else Sum(s[..|s| - 1]) + s[|s| - 1] }

  /** How a batch's attempts end as a whole. */
  datatype End = Broke | Flagged(cls: Class, made: nat) | Got

  function Same(units: nat, k: nat): (r: seq<nat>)
    ensures |r| == k
  { seq(k, _ => units) }

  type Script = (nat, nat) -> Attempt

  /** Attempt a failed in a way that is tried again. */
  predicate Retried(script: Script, b: nat, a: nat, attempts: nat) {
    var now := script(b, a);
    now.Errs? && !now.done && now.cls == Transient && a < attempts && !now.journalFails
  }

  /** The last attempt of a batch that has come to attempt a. */
  function LastFrom(script: Script, b: nat, a: nat, attempts: nat): (r: nat)
    requires a <= attempts
    ensures a <= r <= attempts && !Retried(script, b, r, attempts)
    ensures forall x :: a <= x < r ==> Retried(script, b, x, attempts)
    decreases attempts - a
  { if Retried(script, b, a, attempts) then LastFrom(script, b, a + 1, attempts) else a }

  /** Whether an attempt is a call, and whether a retry is counted for it (before it is journaled). */
  function CallsAt(now: Attempt): nat { if now.Cancelled? || now.Refused? then 0 else 1 }

  function RetriesAt(now: Attempt, a: nat, attempts: nat): nat {
    if now.Errs? && !now.done && now.cls == Transient && a < attempts then 1 else 0
  }

  /** How a batch ends whose last attempt is this one: with values, as data, or with an error. */
  function EndAt(now: Attempt, a: nat, attempts: nat, mode: Mode): End {
    match now
    case Answers => Got
    case Errs(cls, done, _) =>
      if done || cls == Unknown || cls == Fatal || mode == FailFast || (cls == Transient && a < attempts) then Broke else Flagged(cls, a)
    case _ => Broke
  }

  function EndOf(script: Script, b: nat, attempts: nat, mode: Mode): End
    requires attempts >= 1
  {
    var last := LastFrom(script, b, 1, attempts);
    EndAt(script(b, last), last, attempts, mode)
  }

  /** Every attempt is a call, except a last one that was cancelled or refused before its call. */
  function CallsOf(script: Script, b: nat, attempts: nat): nat
    requires attempts >= 1
  {
    var last := LastFrom(script, b, 1, attempts);
    last - 1 + CallsAt(script(b, last))
  }

  function RetriesOf(script: Script, b: nat, attempts: nat): nat
    requires attempts >= 1
  {
    var last := LastFrom(script, b, 1, attempts);
    last - 1 + RetriesAt(script(b, last), last, attempts)
  }

  /** A batch comes to attempt a. */
  ghost predicate Reached(script: Script, b: nat, a: nat, attempts: nat) {
    1 <= a <= attempts && LastFrom(script, b, 1, attempts) == LastFrom(script, b, a, attempts)
  }

  lemma ReachedFirst(script: Script, b: nat, attempts: nat)
    requires attempts >= 1
    ensures Reached(script, b, 1, attempts) == true
  {}

  /** An attempt that is reached is followed by the next, or is the last, which then decides. */
  lemma ReachedNext(script: Script, b: nat, a: nat, attempts: nat, mode: Mode)
    requires Reached(script, b, a, attempts)
    ensures if Retried(script, b, a, attempts) then a < attempts && Reached(script, b, a + 1, attempts) == true && RetriesAt(script(b, a), a, attempts) == 1 == CallsAt(script(b, a))
            else
              && EndOf(script, b, attempts, mode) == EndAt(script(b, a), a, attempts, mode)
              && CallsOf(script, b, attempts) == a - 1 + CallsAt(script(b, a))
              && RetriesOf(script, b, attempts) == a - 1 + RetriesAt(script(b, a), a, attempts)
  {}

  /** A broken batch may leave one counted sequence or retry without its call; any other end leaves none. */
  lemma CallsBehind(script: Script, b: nat, attempts: nat, mode: Mode)
    requires attempts >= 1
    ensures var behind := RetriesOf(script, b, attempts) + (if CallsOf(script, b, attempts) > 0 then 1 else 0) - CallsOf(script, b, attempts);
      Slack(0, behind, EndOf(script, b, attempts, mode).Broke?)
  {
    var now := script(b, LastFrom(script, b, 1, attempts));
    assert now.Answers? || now.Errs? || now.Cancelled? || now.Refused? || now.MeterFails? || now.WrongCount?;
  }

  ghost predicate Slack(before: int, after: int, bad: bool) { if bad then before <= after <= before + 1 else after == before }

  // ----- paying -------------------------------------------------------------------------------------------

  /** The resources of a step, and where their limiters are found. */
  datatype Purse = Purse(limiters: map<string, A.Limiter>, names: seq<string>)

  /** What paying depends on: how often each account is charged per call, whether the limiters grant,
      and what the accounts hold. */
  datatype Wallet = Wallet(marks: multiset<A.Account>, consent: bool, balance: A.Balance) {
    /** What is left when `paid` units have been charged. */
    ghost function After(paid: int): Wallet { Wallet(marks, consent, A.Charged(balance, marks, paid)) }

    ghost predicate Admits(units: nat) { A.Admissible(marks, consent, false, units, balance) }

    /** Every budget holds at least n units for every occurrence, and every bucket can hold `most`. */
    ghost predicate Covers(n: nat, most: nat) {
      consent && forall b :: b in marks ==> b in balance && if b.rated then most <= b.limit else A.Times(n, marks[b]) <= balance[b]
    }
  }

  ghost function WalletOf(purse: Purse, balance: A.Balance): Wallet {
    var ls := A.Named(purse.limiters, purse.names);
    Wallet(A.AllLeaves(ls), A.AllConsent(ls), balance)
  }

  /** What becomes of an attempt that the environment lets through: the accounts have the last word. */
  ghost function Heard(now: Attempt, w: Wallet, units: nat): Attempt {
    if now.Cancelled? || now.Refused? || w.Admits(units) then now else Refused
  }

  /** Attempt a of a batch comes after a - 1 paid ones. */
  ghost function HeardAt(now: Attempt, w: Wallet, units: nat, a: nat): Attempt {
    if a == 0 then now else Heard(now, w.After(A.Times(units, a - 1)), units)
  }

  ghost function Hearing(script: Script, w: Wallet, units: nat): Script { (b: nat, a: nat) => HeardAt(script(b, a), w, units, a) }

  /** The units paid by the first t batches of a schedule. */
  ghost function PaidUpTo(script: Script, sizes: seq<nat>, order: seq<nat>, attempts: nat, w: Wallet, t: nat): int
    requires attempts >= 1 && t <= |order| && forall u :: 0 <= u < |order| ==> order[u] < |sizes|
  {
    if t == 0 then 0
    else
      var p, b := PaidUpTo(script, sizes, order, attempts, w, t - 1), order[t - 1];
      p + A.Times(sizes[b], CallsOf(Hearing(script, w.After(p), sizes[b]), b, attempts))
  }

  lemma PaidNothing(script: Script, sizes: seq<nat>, order: seq<nat>, attempts: nat, w: Wallet)
    requires attempts >= 1 && forall u :: 0 <= u < |order| ==> order[u] < |sizes|
    ensures PaidUpTo(script, sizes, order, attempts, w, 0) == 0
  {}

  /** What really happens at each attempt of a schedule, given what the environment lets through. */
  ghost function RealScript(script: Script, sizes: seq<nat>, order: seq<nat>, attempts: nat, w: Wallet): Script
    requires attempts >= 1 && forall u :: 0 <= u < |order| ==> order[u] < |sizes|
  { (b: nat, a: nat) => RealAttempt(script, sizes, order, attempts, w, b, a) }

  ghost function RealAttempt(script: Script, sizes: seq<nat>, order: seq<nat>, attempts: nat, w: Wallet, b: nat, a: nat): Attempt
    requires attempts >= 1 && forall u :: 0 <= u < |order| ==> order[u] < |sizes|
  {
    if t: nat :| t < |order| && order[t] == b then
      HeardAt(script(b, a), w.After(PaidUpTo(script, sizes, order, attempts, w, t)), sizes[b], a)
    else script(b, a)
  }

  /** At every attempt of the batch that is t-th to start, the accounts decide by what is left of them after
      the calls before it. */
  lemma RealAt(script: Script, sizes: seq<nat>, order: seq<nat>, attempts: nat, w: Wallet, t: nat, a: nat)
    requires attempts >= 1 && (forall u :: 0 <= u < |order| ==> order[u] < |sizes|) && Distinct(order) && t < |order|
    ensures RealScript(script, sizes, order, attempts, w)(order[t], a)
            == HeardAt(script(order[t], a), w.After(PaidUpTo(script, sizes, order, attempts, w, t)), sizes[order[t]], a)
  {
    hide PaidUpTo, HeardAt;
    forall u: nat | u < |order| && order[u] == order[t] ensures u == t {}
  }

  lemma {:induction false} SameLast(s1: Script, s2: Script, b: nat, a: nat, attempts: nat)
    requires a <= attempts && forall x: nat :: x >= 1 ==> s1(b, x) == s2(b, x)
    requires a >= 1
    ensures LastFrom(s1, b, a, attempts) == LastFrom(s2, b, a, attempts)
    decreases attempts - a
  {
    assert Retried(s1, b, a, attempts) == Retried(s2, b, a, attempts);
    if Retried(s1, b, a, attempts) { SameLast(s1, s2, b, a + 1, attempts); }
  }

  lemma SameCalls(s1: Script, s2: Script, b: nat, attempts: nat)
    requires attempts >= 1 && forall x: nat :: x >= 1 ==> s1(b, x) == s2(b, x)
    ensures CallsOf(s1, b, attempts) == CallsOf(s2, b, attempts)
  {
    SameLast(s1, s2, b, 1, attempts);
    hide LastFrom;
  }

  lemma {:induction false} SumConcat(s: seq<nat>, units: nat, k: nat)
    ensures Sum(s + Same(units, k)) == Sum(s) + A.Times(units, k)
  {
    if k == 0 { assert s + Same(units, 0) == s; } else {
      SumConcat(s, units, k - 1);
      var more := s + Same(units, k);
      assert more[..|more| - 1] == s + Same(units, k - 1) && more[|more| - 1] == units;
    }
  }

  lemma {:induction false} TimesPlus(u: int, v: int, n: nat)
    ensures A.Times(u + v, n) == A.Times(u, n) + A.Times(v, n)
  {
    if n > 0 { TimesPlus(u, v, n - 1); }
  }

  lemma {:induction false} TimesMonotone(u: int, v: int, n: nat)
    requires u <= v
    ensures A.Times(u, n) <= A.Times(v, n)
  {
    if n > 0 { TimesMonotone(u, v, n - 1); }
  }

  /** Charging twice is charging the sum. */
  lemma ChargedOn(rem: A.Balance, m: multiset<A.Account>, u: int, v: int)
    ensures A.Charged(A.Charged(rem, m, u), m, v) == A.Charged(rem, m, u + v)
  {
    forall b | b in rem ensures A.Charged(A.Charged(rem, m, u), m, v)[b] == A.Charged(rem, m, u + v)[b] { TimesPlus(u, v, m[b]); }
  }

  lemma ChargedNothing(rem: A.Balance, m: multiset<A.Account>)
    ensures A.Charged(rem, m, 0) == rem
  {
    forall b | b in rem ensures A.Charged(rem, m, 0)[b] == rem[b] { A.TimesIsProduct(0, m[b]); }
  }

  /** An admitted charge leaves no budget overdrawn. */
  lemma StaysWithin(w: Wallet, units: nat)
    requires A.Within(w.balance) && w.Admits(units)
    ensures A.Within(A.Charged(w.balance, w.marks, units))
  {
    forall b | b in w.balance ensures A.Charged(w.balance, w.marks, units)[b] <= b.limit && (b.rated || 0 <= A.Charged(w.balance, w.marks, units)[b]) {
      A.TimesIsProduct(units, w.marks[b]);
      if b in w.marks { assert A.Affords(b, w.marks[b], units, w.balance[b]); A.TimesGrows(units, 0, w.marks[b]); }
    }
  }

  /** A wallet that covers n units admits any positive part of what has not been paid of them. */
  lemma CoveredAdmits(w: Wallet, n: nat, most: nat, paid: nat, units: nat)
    requires w.Covers(n, most) && paid + units <= n && 1 <= units <= most
    ensures w.After(paid).Admits(units)
  {
    forall b | b in w.marks ensures b in w.After(paid).balance && A.Affords(b, w.marks[b], units, w.After(paid).balance[b]) {
      TimesPlus(paid, units, w.marks[b]);
      TimesMonotone(paid + units, n, w.marks[b]);
    }
  }
}
