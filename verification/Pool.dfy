/** The bounded worker pool: a feeder hands items over an unbuffered channel to a fixed number of
    workers, each of which prices, admits and works one item at a time. */
module Pool {
  import opened Common

  type Value = string

  /** `work(i)` is what working item i gives, None for an error; `limited` says whether a limiter is set. */
  datatype Config = Config(n: nat, asked: int, limited: bool, cost: nat -> int, work: nat -> Option<Value>)
  {
    /** Between one and n workers. */
    function Workers(): nat { if asked < 1 || n <= 1 then 1 else if asked < n then asked else n }
  }

  datatype Hand = Idle | Has(item: nat) | Working(item: nat) | Gone(ok: bool)

  /** Items below `fed` have been handed over; `started` lists the works begun, in order; `units` is
      what the limiter has granted for them; `quit` says that the feeder gave up on a done context. */
  datatype State = State(fed: nat, quit: bool, hands: seq<Hand>, started: seq<nat>, units: int,
                         results: map<nat, Value>, stopped: bool, errored: bool)

  ghost predicate Init(c: Config, s: State) {
    s == State(0, false, seq(c.Workers(), _ => Idle), [], 0, map[], false, false)
  }

  function Fail(s: State): State { s.(stopped := true, errored := true) }

  /** One move of worker w from hand h. */
  ghost predicate Move(c: Config, h: Hand, s: State, h': Hand, s': State) {
    match h
    case Idle =>
      || (s.fed < c.n && !s.quit && h' == Has(s.fed) && s' == s.(fed := s.fed + 1))
      || ((s.fed >= c.n || s.quit) && h' == Gone(true) && s' == s)
    case Has(i) =>
      if c.cost(i) < 1 then h' == Gone(false) && s' == Fail(s)
      else
        || (c.limited && h' == Gone(false) && s' == Fail(s))     // the limiter refused
        || (h' == Working(i) && s' == s.(started := s.started + [i], units := s.units + if c.limited then c.cost(i) else 0))
    case Working(i) =>
      (match c.work(i)
       case Some(v) => h' == Idle && s' == s.(results := s.results[i := v])
       case None => h' == Gone(false) && s' == Fail(s))
    case Gone(_) => false
  }

  ghost predicate WorkerStep(c: Config, w: nat, h': Hand, s: State, s': State) {
    w < |s.hands| && s'.hands == s.hands[w := h'] && Move(c, s.hands[w], s, h', s'.(hands := s.hands))
  }

  ghost predicate SomeWorker(c: Config, s: State, s': State) { exists w: nat, h' :: WorkerStep(c, w, h', s, s') }

  ghost predicate Next(c: Config, s: State, s': State) {
    || SomeWorker(c, s, s')
    || (s.stopped && !s.quit && s.fed < c.n && s' == Fail(s).(quit := true))   // the feeder gives up
    || s' == s.(stopped := true)                                             // the caller cancels
  }

  ghost predicate Run(c: Config, tr: seq<State>) {
    |tr| > 0 && Init(c, tr[0]) && forall t :: 0 <= t < |tr| - 1 ==> Next(c, tr[t], tr[t + 1])
  }

  /** The pool has drained: every worker, and the feeder, has returned. */
  ghost predicate Drained(c: Config, s: State) {
    (forall h :: h in s.hands ==> h.Gone?) && (s.fed >= c.n || s.quit)
  }

  // ----- what every state keeps ---------------------------------------------------------------------

  function SumCost(c: Config, started: seq<nat>): int {
    if started == [] then 0 else SumCost(c, started[..|started| - 1]) + c.cost(started[|started| - 1])
  }

  /** Where item i below `fed` is: held, being worked, done, or lost to a failure. */
  ghost predicate ItemOk(c: Config, s: State, i: nat) {
    && (i in s.started ==> i < s.fed)
    && (i in s.results ==> i in s.started && c.work(i) == Some(s.results[i]))
    && (!s.errored && i < s.fed ==> i in s.results || exists w :: 0 <= w < |s.hands| && Holds(s.hands[w], i))
  }

  predicate Holds(h: Hand, i: nat) { h == Has(i) || h == Working(i) }

  ghost predicate HandOk(s: State, w: nat)
    requires w < |s.hands|
  {
    match s.hands[w]
    case Has(i) => i < s.fed && i !in s.started
    case Working(i) => i in s.started
    case Gone(ok) => !ok ==> s.errored
    case Idle => true
  }

  ghost predicate Priced(c: Config, started: seq<nat>) { forall p :: 0 <= p < |started| ==> c.cost(started[p]) >= 1 }

  /** No two workers hold one item. */
  ghost predicate Apart(hands: seq<Hand>) {
    forall u, v, i: nat :: 0 <= u < v < |hands| && Holds(hands[u], i) ==> !Holds(hands[v], i)
  }

  ghost predicate Inv(c: Config, s: State) {
    && |s.hands| == c.Workers() && s.fed <= c.n && (s.quit ==> s.errored)
    && Distinct(s.started) && Apart(s.hands)
    && s.units == (if c.limited then SumCost(c, s.started) else 0)
    && (forall i: nat :: ItemOk(c, s, i))
    && (forall w: nat :: w < |s.hands| ==> HandOk(s, w))
    && Priced(c, s.started)
  }

  lemma StartMore(c: Config, started: seq<nat>, i: nat)
    requires Distinct(started) && Priced(c, started) && i !in started && c.cost(i) >= 1
    ensures Distinct(started + [i]) && Priced(c, started + [i]) && SumCost(c, started + [i]) == SumCost(c, started) + c.cost(i)
  {
    assert (started + [i])[..|started|] == started;
  }

  lemma WorkerInv(c: Config, w: nat, h': Hand, s: State, s': State)
    requires Inv(c, s) && WorkerStep(c, w, h', s, s')
    ensures Inv(c, s')
  {
    hide ItemOk, HandOk, Apart;
    WorkerSums(c, w, h', s, s');
    hide Move, SumCost;
    forall i: nat ensures ItemOk(c, s', i) { WorkerItem(c, w, h', s, s', i); }
    forall v: nat | v < |s'.hands| ensures HandOk(s', v) { WorkerHand(c, w, h', s, s', v); }
    StillApart(c, w, h', s, s');
  }

  lemma WorkerSums(c: Config, w: nat, h': Hand, s: State, s': State)
    requires Inv(c, s) && WorkerStep(c, w, h', s, s')
    ensures |s'.hands| == |s.hands| && s'.fed <= c.n && (s'.quit ==> s'.errored) && Distinct(s'.started) && Priced(c, s'.started)
    ensures s'.units == if c.limited then SumCost(c, s'.started) else 0
  {
    assert HandOk(s, w);
    hide ItemOk, HandOk, Apart, Distinct, Priced, SumCost;
    if s.hands[w].Has? && c.cost(s.hands[w].item) >= 1 { StartMore(c, s.started, s.hands[w].item); }
  }

  lemma WorkerItem(c: Config, w: nat, h': Hand, s: State, s': State, i: nat)
    requires Inv(c, s) && WorkerStep(c, w, h', s, s')
    ensures ItemOk(c, s', i)
  {
    assert HandOk(s, w) && ItemOk(c, s, i);
    if !s'.errored && i < s'.fed && i !in s'.results {
      if i < s.fed {
        var v :| 0 <= v < |s.hands| && Holds(s.hands[v], i);
        assert Holds(s'.hands[v], i);
      } else { assert Holds(s'.hands[w], i); }
    }
  }

  lemma WorkerHand(c: Config, w: nat, h': Hand, s: State, s': State, v: nat)
    requires Inv(c, s) && WorkerStep(c, w, h', s, s') && v < |s'.hands|
    ensures HandOk(s', v)
  {
    assert HandOk(s, w) && HandOk(s, v) && ItemOk(c, s, s.fed);
    if v != w && s.hands[w].Has? && s.hands[v].Has? {
      assert Holds(s.hands[w], s.hands[w].item);
      assert !Holds(s.hands[v], s.hands[w].item);
    }
  }

  lemma StillApart(c: Config, w: nat, h': Hand, s: State, s': State)
    requires Inv(c, s) && WorkerStep(c, w, h', s, s')
    ensures Apart(s'.hands)
  {
    var h := s.hands[w];
    assert Holds(h', s.fed) ==> forall u :: 0 <= u < |s.hands| ==> !Holds(s.hands[u], s.fed) by {
      forall u | 0 <= u < |s.hands| && Holds(s.hands[u], s.fed) ensures false { HeldBelow(c, s, u); }
    }
    forall u, v, i: nat | 0 <= u < v < |s'.hands| && Holds(s'.hands[u], i) ensures !Holds(s'.hands[v], i) {
      if u != w && v != w { assert s'.hands[u] == s.hands[u] && s'.hands[v] == s.hands[v]; }
      else if h.Has? || h.Working? { assert Holds(s'.hands[w], h.item) || s'.hands[w] == h' ; }
    }
  }

  lemma HeldBelow(c: Config, s: State, u: nat)
    requires Inv(c, s) && u < |s.hands| && (s.hands[u].Has? || s.hands[u].Working?)
    ensures s.hands[u].item < s.fed
  {
    assert HandOk(s, u) && ItemOk(c, s, s.hands[u].item);
  }

  lemma OtherInv(c: Config, s: State, s': State)
    requires Inv(c, s)
    requires s' == s.(stopped := true) || s' == Fail(s).(quit := true)
    ensures Inv(c, s')
  {
    forall i: nat ensures ItemOk(c, s', i) {
      assert ItemOk(c, s, i);
      if !s'.errored && i < s'.fed && i !in s'.results {
        var v :| 0 <= v < |s.hands| && Holds(s.hands[v], i);
        assert Holds(s'.hands[v], i);
      }
    }
    forall v: nat | v < |s'.hands| ensures HandOk(s', v) { assert HandOk(s, v); }
  }

  lemma {:induction false} RunInv(c: Config, tr: seq<State>, t: nat)
    requires Run(c, tr) && t < |tr|
    ensures Inv(c, tr[t])
  {
    hide Inv, WorkerStep;
    if t == 0 { InitInv(c, tr[0]); } else {
      RunInv(c, tr, t - 1);
      assert Next(c, tr[t - 1], tr[t - 1 + 1]);
      if SomeWorker(c, tr[t - 1], tr[t]) {
        var w, h' :| WorkerStep(c, w, h', tr[t - 1], tr[t]);
        WorkerInv(c, w, h', tr[t - 1], tr[t]);
      } else { OtherInv(c, tr[t - 1], tr[t]); }
    }
  }

  lemma InitInv(c: Config, s: State)
    requires Init(c, s)
    ensures Inv(c, s)
  {}

  // ----- what the pool promises -----------------------------------------------------------------------

  function Busy(hands: seq<Hand>): nat {
    if hands == [] then 0 else (if hands[0].Working? then 1 else 0) + Busy(hands[1..])
  }

  lemma {:induction false} BusyBound(hands: seq<Hand>)
    ensures Busy(hands) <= |hands|
  {
    if hands != [] { BusyBound(hands[1..]); }
  }

  /** In every reachable state, failed and cancelled runs included: no item is worked twice, at most
      max(1, min(asked, n)) works are in progress, and the limiter has granted exactly the costs of the
      items whose work started. */
  lemma BoundedAndPaid(c: Config, tr: seq<State>, t: nat)
    requires Run(c, tr) && t < |tr|
    ensures Distinct(tr[t].started) && forall p :: 0 <= p < |tr[t].started| ==> tr[t].started[p] < c.n
    ensures Busy(tr[t].hands) <= if c.asked < 1 || c.n < 1 then 1 else if c.asked < c.n then c.asked else c.n
    ensures c.limited ==> tr[t].units == SumCost(c, tr[t].started)
  {
    RunInv(c, tr, t);
    BusyBound(tr[t].hands);
    forall p | 0 <= p < |tr[t].started| ensures tr[t].started[p] < c.n { assert ItemOk(c, tr[t], tr[t].started[p]); }
  }

  /** A pool that drained without an error worked every item exactly once and returned its result at its
      own index. */
  lemma CompleteWithoutError(c: Config, tr: seq<State>, t: nat, i: nat)
    requires Run(c, tr) && t < |tr| && Drained(c, tr[t]) && !tr[t].errored && i < c.n
    ensures i in tr[t].started && i in tr[t].results && c.work(i) == Some(tr[t].results[i])
  {
    RunInv(c, tr, t);
    var s := tr[t];
    assert ItemOk(c, s, i);
    forall w | 0 <= w < |s.hands| ensures !Holds(s.hands[w], i) { assert s.hands[w] in s.hands; }
  }

  // ----- it always drains -------------------------------------------------------------------------------

  function Rank(h: Hand): nat {
    match h
    case Gone(_) => 0
    case Idle => 1
    case Working(_) => 2
    case Has(_) => 3
  }

  function Ranks(hands: seq<Hand>): nat { if hands == [] then 0 else Rank(hands[0]) + Ranks(hands[1..]) }

  /** What is left to do: items not handed over, steps the workers still have to make, and the feeder's exit. */
  function Remaining(c: Config, s: State): nat {
    (if s.fed < c.n then 3 * (c.n - s.fed) else 0) + Ranks(s.hands) + if s.quit then 0 else 1
  }

  lemma {:induction false} RanksUpdate(hands: seq<Hand>, w: nat, h: Hand)
    requires w < |hands|
    ensures Ranks(hands[w := h]) == Ranks(hands) - Rank(hands[w]) + Rank(h)
    ensures Ranks(hands) >= Rank(hands[w])
  {
    if w == 0 { assert hands[w := h][1..] == hands[1..]; } else {
      RanksUpdate(hands[1..], w - 1, h);
      assert hands[w := h][1..] == hands[1..][w - 1 := h];
    }
  }

  /** Every step but a cancellation by the caller leaves less to do, so a run makes at most as many as there is at first. */
  lemma {:induction false} RunsAreFinite(c: Config, tr: seq<State>, t: nat)
    requires Run(c, tr) && t < |tr|
    ensures Remaining(c, tr[t]) + Steps(tr, t) <= Remaining(c, tr[0])
  {
    if t > 0 {
      RunsAreFinite(c, tr, t - 1);
      assert Next(c, tr[t - 1], tr[t - 1 + 1]);
      StepCosts(c, tr[t - 1], tr[t]);
      hide Next, Remaining, Init;
    }
  }

  lemma StepCosts(c: Config, s: State, s': State)
    requires Next(c, s, s')
    ensures Remaining(c, s') + (if s' == s.(stopped := true) then 0 else 1) <= Remaining(c, s)
  {
    if SomeWorker(c, s, s') {
      var w: nat, h' :| WorkerStep(c, w, h', s, s');
      MoveCosts(c, s.hands[w], s, h', s'.(hands := s.hands));
      RanksUpdate(s.hands, w, h');
      hide Ranks, Move;
    } else { hide Ranks; }
  }

  lemma MoveCosts(c: Config, h: Hand, s: State, h': Hand, s': State)
    requires Move(c, h, s, h', s')
    ensures s'.quit == s.quit && Rank(h') + (if s'.fed < c.n then 3 * (c.n - s'.fed) else 0) < Rank(h) + if s.fed < c.n then 3 * (c.n - s.fed) else 0
  {}

  /** The steps of the pool itself among the first t of a run. */
  function Steps(tr: seq<State>, t: nat): nat
    requires t < |tr|
  { if t == 0 then 0 else Steps(tr, t - 1) + if tr[t] == tr[t - 1].(stopped := true) then 0 else 1 }

  /** An error stops the pool, and a worker leaves in peace only when there is nothing left to take. */
  ghost predicate Orderly(c: Config, s: State) {
    && (s.errored ==> s.stopped)
    && |s.hands| >= 1
    && forall h :: h in s.hands && h.Gone? ==> if h.ok then s.fed >= c.n || s.quit else s.errored
  }

  lemma {:induction false} RunOrderly(c: Config, tr: seq<State>, t: nat)
    requires Run(c, tr) && t < |tr|
    ensures Orderly(c, tr[t])
  {
    if t > 0 {
      RunOrderly(c, tr, t - 1);
      var s, s' := tr[t - 1], tr[t];
      assert Next(c, s, tr[t - 1 + 1]);
      if SomeWorker(c, s, s') {
        var w, h' :| WorkerStep(c, w, h', s, s');
        forall h | h in s'.hands && h != h' ensures h in s.hands {}
      }
    }
  }

  /** Hand h holds an item that cannot be worked. */
  predicate Hopeless(c: Config, h: Hand) { (h.Has? && c.cost(h.item) < 1) || (h.Working? && c.work(h.item).None?) }

  /** Until it has drained the pool can go on, and without a bad cost, a failing work or a done context it
      can go on without an error. */
  lemma NeverStuck(c: Config, tr: seq<State>, t: nat)
    requires Run(c, tr) && t < |tr| && !Drained(c, tr[t])
    ensures exists s' :: Next(c, tr[t], s') && s' != tr[t].(stopped := true)
              && (s'.errored ==> tr[t].errored || tr[t].stopped || exists h :: h in tr[t].hands && Hopeless(c, h))
  {
    RunOrderly(c, tr, t);
    var s := tr[t];
    if forall h :: h in s.hands ==> h.Gone? {
      assert s.hands[0] in s.hands;
      var s' := Fail(s).(quit := true);
      assert Next(c, s, s') && s' != s.(stopped := true);
    } else {
      var h :| h in s.hands && !h.Gone?;
      var w: nat :| w < |s.hands| && s.hands[w] == h;
      var h', s' := OneMove(c, h, s);
      var next := s'.(hands := s.hands[w := h']);
      assert next.hands[w] == h' && next.(hands := s.hands) == s';
      assert WorkerStep(c, w, h', s, next);
    }
  }

  lemma OneMove(c: Config, h: Hand, s: State) returns (h': Hand, s': State)
    requires !h.Gone?
    ensures Move(c, h, s, h', s') && h' != h && s'.hands == s.hands && (s'.errored ==> s.errored || Hopeless(c, h))
  {
    match h
    case Idle =>
      if s.fed < c.n && !s.quit { h', s' := Has(s.fed), s.(fed := s.fed + 1); } else { h', s' := Gone(true), s; }
    case Has(i) =>
      if c.cost(i) < 1 { h', s' := Gone(false), Fail(s); }
      else { h', s' := Working(i), s.(started := s.started + [i], units := s.units + if c.limited then c.cost(i) else 0); }
    case Working(i) =>
      match c.work(i)
      case Some(v) => h', s' := Idle, s.(results := s.results[i := v]);
      case None => h', s' := Gone(false), Fail(s);
  }
}
