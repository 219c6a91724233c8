/** No reachable state of the worker pool is stuck, and every run is finite. */
module EngineProgress {
  import opened Common
  import opened Engine
  import opened EngineSafety
  import opened EngineTheorems
  import opened EngineAccounting
  import opened EngineBooks

  /** Steps left to an item whose attempt a is about to start its work call. */
  function Ladder(c: Config, a: nat): nat
    decreases c.attempts - a
  {
    if a >= c.attempts then 10 + c.R() else Ladder(c, a + 1) + c.R() + 5
  }

  function Rank(c: Config, p: Pc): int {
    match p
    case Exited(_) => 0
    case Idle => 1
    case Emitting(_, _) => 2
    case Publishing(_, _) => 3
    case FollowEvent(_, _) => 3
    case HitFound(_, _) => 4
    case Saved(_, _) => 4
    case Flagging(_, _) => 4
    case Following(_) => 4
    case Saving(_, _) => 5
    case Refunding(_, _, h) => 4 + h
    case Waiting(_, a) => Ladder(c, a) - 3
    case Retrying(_, a) => Ladder(c, a) - 2
    case Doing(_, a) => Ladder(c, a) - 1
    case Admitting(_, a, h) => Ladder(c, a) + 1 + c.R() - h
    case Loading(_) => Ladder(c, 1) + c.R() + 2
    case Lookup(_) => Top(c)
  }

  function Top(c: Config): int { Ladder(c, 1) + c.R() + 3 }

  function TotalRank(c: Config, pcs: seq<Pc>): int {
    if pcs == [] then 0 else Rank(c, pcs[0]) + TotalRank(c, pcs[1..])
  }

  lemma {:induction false} RankUpdate(c: Config, pcs: seq<Pc>, w: nat, p: Pc)
    requires w < |pcs|
    ensures TotalRank(c, pcs[w := p]) == TotalRank(c, pcs) - Rank(c, pcs[w]) + Rank(c, p)
  {
    if w == 0 { assert pcs[0 := p][1..] == pcs[1..]; }
    else {
      RankUpdate(c, pcs[1..], w - 1, p);
      assert pcs[w := p][1..] == pcs[1..][w - 1 := p];
    }
  }

  ghost predicate InRange(c: Config, p: Pc) {
    && (p.Admitting? || p.Refunding? ==> 1 <= p.attempt <= c.attempts && p.held <= c.R())
    && (p.Doing? ==> 1 <= p.attempt <= c.attempts)
    && (p.Retrying? || p.Waiting? ==> 1 <= p.attempt < c.attempts)
  }

  lemma {:induction false} LadderFloor(c: Config, a: nat)
    ensures Ladder(c, a) >= 10 + c.R()
    decreases c.attempts - a
  {
    if a < c.attempts { LadderFloor(c, a + 1); }
  }

  /** Every move descends, except taking a new item. */
  lemma Descends(c: Config, p: Pc, p': Pc)
    requires Edge(c, p, p') && InRange(c, p) && InRange(c, p')
    ensures Rank(c, p) >= 0 && Rank(c, p') >= 0
    ensures if p.Idle? && p'.HasItem() then Rank(c, p') <= Top(c) else Rank(c, p') < Rank(c, p)
  {
    LadderFloor(c, 1);
    if p.Admitting? || p.Refunding? || p.Doing? || p.Retrying? || p.Waiting? { LadderFloor(c, p.attempt); }
    if p'.Admitting? || p'.Refunding? || p'.Doing? || p'.Retrying? || p'.Waiting? { LadderFloor(c, p'.attempt); }
  }

  function Measure(c: Config, s: State): int {
    (|s.g.items| - Sum(Taken, s.g.items)) * Top(c) + TotalRank(c, s.pcs)
  }

  lemma RankNat(c: Config, p: Pc)
    requires InRange(c, p)
    ensures Rank(c, p) >= 0 && Top(c) >= 0
  {
    LadderFloor(c, 1);
    if p.Admitting? || p.Doing? || p.Retrying? || p.Waiting? { LadderFloor(c, p.attempt); }
  }

  lemma MeasureNat(c: Config, s: State)
    requires Inv(c, s)
    ensures Measure(c, s) >= 0
  {
    hide Inv, Rank, Top;
    TakenBound(s.g.items);
    RankNat(c, Idle);
    forall w: nat | w < |s.pcs| ensures Rank(c, s.pcs[w]) >= 0 {
      RangeOf(c, s, w);
      RankNat(c, s.pcs[w]);
    }
    RanksNat(c, s.pcs);
    assert (|s.g.items| - Sum(Taken, s.g.items)) * Top(c) >= 0;
  }

  lemma {:induction false} RanksNat(c: Config, pcs: seq<Pc>)
    requires forall w: nat :: w < |pcs| ==> Rank(c, pcs[w]) >= 0
    ensures TotalRank(c, pcs) >= 0
  {
    if pcs != [] { RanksNat(c, pcs[1..]); }
  }

  lemma {:induction false} TakenBound(items: seq<Item>)
    ensures 0 <= Sum(Taken, items) <= |items|
  {
    if items != [] { TakenBound(items[1..]); }
  }

  /** Every worker's move, under any schedule, strictly decreases the measure. */
  lemma MoveDecreases(c: Config, w: nat, s: State, s': State)
    requires Inv(c, s) && Books(c, s) && Ledgered(s) && WorkerStep(c, w, s, s')
    ensures Measure(c, s') < Measure(c, s)
  {
    var p, p' := s.pcs[w], s'.pcs[w];
    TakenChange(c, w, s, s');
    hide *;
    RankUpdate(c, s.pcs, w, p');
    assert s'.pcs == s.pcs[w := p'] by { PcsChange(c, w, s, s'); }
    if p.Idle? { IdleRank(c, p); }
    MeasureFalls(c, s, s', if p.Idle? && p'.HasItem() then 1 else 0);
  }

  lemma PcsChange(c: Config, w: nat, s: State, s': State)
    requires WorkerStep(c, w, s, s')
    ensures s'.pcs == s.pcs[w := s'.pcs[w]]
  {
    hide Move;
  }

  /** What a move does to the count of taken items, and to the mover's rank. */
  lemma TakenChange(c: Config, w: nat, s: State, s': State)
    requires Inv(c, s) && Books(c, s) && Ledgered(s) && WorkerStep(c, w, s, s')
    ensures var p, p' := s.pcs[w], s'.pcs[w];
      && |s'.g.items| == |s.g.items|
      && Sum(Taken, s'.g.items) == Sum(Taken, s.g.items) + (if p.Idle? && p'.HasItem() then 1 else 0)
      && (if p.Idle? && p'.HasItem() then Rank(c, p') <= Top(c) else Rank(c, p') < Rank(c, p))
  {
    hide Cell, Track, Guarantee, Move, Sum, Rank, Top, Ladder;
    var p, p' := s.pcs[w], s'.pcs[w];
    StepFacts(c, w, s, s');
    RangeOf(c, s, w);
    RangeOf(c, s', w);
    SumsStep(c, w, p, s.g, p', s'.g);
    Descends(c, p, p');
    SameLength(c, w, p, s.g, p', s'.g);
    assert Sum(Taken, s'.g.items) == Sum(Taken, s.g.items) + Change(c, Taken, p, p');
  }

  lemma MeasureFalls(c: Config, s: State, s': State, taken: nat)
    requires |s'.g.items| == |s.g.items| && Sum(Taken, s'.g.items) == Sum(Taken, s.g.items) + taken && taken <= 1
    requires if taken == 1 then TotalRank(c, s'.pcs) <= TotalRank(c, s.pcs) - 1 + Top(c) else TotalRank(c, s'.pcs) < TotalRank(c, s.pcs)
    ensures Measure(c, s') < Measure(c, s)
  {
    var left := |s.g.items| - Sum(Taken, s.g.items);
    assert (left - 1) * Top(c) == left * Top(c) - Top(c);
  }

  lemma IdleRank(c: Config, p: Pc)
    requires p.Idle?
    ensures Rank(c, p) == 1
  {}

  lemma SameLength(c: Config, w: nat, p: Pc, g: Shared, p': Pc, g': Shared)
    requires Track(c, w, p, g, p', g')
    ensures |g'.items| == |g.items|
  {}

  lemma RangeOf(c: Config, s: State, w: nat)
    requires Inv(c, s) && w < |s.pcs|
    ensures InRange(c, s.pcs[w])
  {
    assert Cell(c, s.g, w, s.pcs[w]);
  }

  /** The moves of the workers among the first n steps of a run (a move always changes a program counter). */
  ghost function Moves(tr: seq<State>, n: nat): nat
    requires n < |tr|
  {
    if n == 0 then 0 else Moves(tr, n - 1) + if tr[n].pcs != tr[n - 1].pcs then 1 else 0
  }

  /** Every run is finite: however the workers and the environment are scheduled, the workers make at
      most as many moves as the initial measure, a function of items, attempts and resources alone. */
  lemma {:induction false} RunsAreFinite(c: Config, tr: seq<State>, n: nat)
    requires Run(c, tr) && n < |tr|
    ensures Moves(tr, n) + Measure(c, tr[n]) <= Measure(c, tr[0]) && Measure(c, tr[n]) >= 0
  {
    hide Measure, Inv, Books, Ledgered;
    RunBooks(c, tr, n);
    MeasureNat(c, tr[n]);
    if n > 0 {
      RunsAreFinite(c, tr, n - 1);
      RunBooks(c, tr, n - 1);
      assert Next(c, tr[n - 1], tr[n - 1 + 1]);
      if EnvStep(c, tr[n - 1], tr[n]) { MeasureEnv(c, tr[n - 1], tr[n]); }
      else {
        var w :| WorkerStep(c, w, tr[n - 1], tr[n]);
        MoveDecreases(c, w, tr[n - 1], tr[n]);
      }
    }
  }

  lemma MeasureEnv(c: Config, s: State, s': State)
    requires EnvStep(c, s, s')
    ensures Measure(c, s') == Measure(c, s)
  {}

  // ----- nobody is stuck --------------------------------------------------------------------------

  /** A move that nothing forced to fail: it starts a failure only when a key cannot be built, a
      budget is out, or the worker follows a failed leader. */
  ghost predicate Sound(c: Config, p: Pc, g: Shared, p': Pc) {
    Faulty(p') ==>
      || Faulty(p)
      || (p.Lookup? && !c.HasKey(p.item))
      || (p.Admitting? && p.held < c.R() && p.held < |g.spent| && g.spent[p.held] >= c.limits[p.held])
      || (p.Following? && c.HasKey(p.item) && c.KeyOf(p.item) in g.inflight && g.inflight[c.KeyOf(p.item)].outcome.Failed?)
  }

  ghost predicate CanMove(c: Config, w: nat, p: Pc, g: Shared) {
    exists p', g' :: Move(c, w, p, g, p', g') && Sound(c, p, g, p')
  }

  lemma Shows(c: Config, w: nat, p: Pc, g: Shared, p': Pc, g': Shared)
    requires Move(c, w, p, g, p', g') && Sound(c, p, g, p')
    ensures CanMove(c, w, p, g)
  {}

  /** A waiting follower's call is closed, or led by a different worker that is not itself waiting. */
  lemma FollowersHaveLeaders(c: Config, s: State, w: nat)
    requires Inv(c, s) && w < |s.pcs| && s.pcs[w].Following?
    ensures c.HasKey(s.pcs[w].item) && c.KeyOf(s.pcs[w].item) in s.g.inflight
    ensures var call := s.g.inflight[c.KeyOf(s.pcs[w].item)];
            call.outcome.Running? ==> call.owner != w && call.owner < |s.pcs| && s.pcs[call.owner].Leads()
  {
    assert Cell(c, s.g, w, s.pcs[w]);
    assert CallOk(c, s.pcs, s.g, c.KeyOf(s.pcs[w].item));
  }

  /** What a worker needs beyond its cell in order to move. */
  ghost predicate Movable(c: Config, w: nat, p: Pc, g: Shared) {
    && Cell(c, g, w, p) && Sized(c, g) && !p.Exited?
    && (p.Refunding? && p.held > 0 ==> p.held <= |g.spent| && g.spent[p.held - 1] > 0)
    && (p.Following? ==> !g.inflight[c.KeyOf(p.item)].outcome.Running?)
  }

  lemma ArriveUnblocked(c: Config, w: nat, p: Pc, g: Shared)
    requires Movable(c, w, p, g) && !p.Leads()
    ensures CanMove(c, w, p, g)
  {
    hide CanMove;
    match p
    case Idle =>
      if i: nat :| At(g, i, Todo) {
        var g' := Put(g, i, g.items[i].(place := With(w))).(counts := g.counts.(items := g.counts.items + 1));
        Shows(c, w, p, g, if c.cached then Lookup(i) else Admitting(i, 1, 0), g');
      } else {
        Shows(c, w, p, g, Exited(true), g);
      }
    case Lookup(i) =>
      if !c.HasKey(i) { Shows(c, w, p, g, Exited(false), Lose(g, i)); }
      else if c.KeyOf(i) in g.inflight { Shows(c, w, p, g, Following(i), g); }
      else { Shows(c, w, p, g, Loading(i), g.(inflight := g.inflight[c.KeyOf(i) := Call(w, i, Running)])); }
    case Following(i) =>
      var o := g.inflight[c.KeyOf(i)].outcome;
      if o.Failed? { Shows(c, w, p, g, Exited(false), Lose(g, i)); }
      else { Shows(c, w, p, g, FollowEvent(i, o.result), g.(counts := CountCopied(g.counts, o.result))); }
    case FollowEvent(i, r) => Shows(c, w, p, g, Emitting(i, Copy(i, r)), Noted(g, Event(i, CopiedEvent(r))));
    case Emitting(i, r) => Shows(c, w, p, g, Idle, Put(g, i, g.items[i].(place := Out(r))));
  }

  lemma LoadUnblocked(c: Config, w: nat, p: Pc, g: Shared)
    requires Movable(c, w, p, g) && (p.Loading? || p.HitFound?)
    ensures CanMove(c, w, p, g)
  {
    hide CanMove;
    match p
    case Loading(i) =>
      var n, h := g.counts, Put(g, i, g.items[i].(loads := g.items[i].loads + 1));
      if c.KeyOf(i) in g.store { Shows(c, w, p, g, HitFound(i, g.store[c.KeyOf(i)]), h.(counts := n.(hits := n.hits + 1))); }
      else { Shows(c, w, p, g, Admitting(i, 1, 0), h.(counts := n.(misses := n.misses + 1))); }
    case HitFound(i, v) => Shows(c, w, p, g, Publishing(i, Resolved(Fine(v, Hit))), Noted(g, Event(i, HitEvent)));
  }

  lemma AdmitUnblocked(c: Config, w: nat, p: Pc, g: Shared)
    requires Movable(c, w, p, g) && (p.Admitting? || p.Refunding?)
    ensures CanMove(c, w, p, g)
  {
    hide CanMove;
    match p
    case Admitting(i, a, h) =>
      if h < c.R() {
        if g.spent[h] < c.limits[h] { Shows(c, w, p, g, Admitting(i, a, h + 1), g.(spent := g.spent[h := g.spent[h] + 1])); }
        else { Shows(c, w, p, g, Refunding(i, a, h), Err(g)); }
      } else {
        var n := if a == 1 then g.counts.(sequences := g.counts.sequences + 1) else g.counts;
        Shows(c, w, p, g, Doing(i, a),
              Put(g, i, g.items[i].(does := g.items[i].does + 1)).(counts := n, started := g.started + 1));
      }
    case Refunding(i, a, h) =>
      if h == 0 { Shows(c, w, p, g, Publishing(i, Failed), Abandon(g, a > 1)); }
      else { Shows(c, w, p, g, Refunding(i, a, h - 1), Err(g).(spent := g.spent[h - 1 := g.spent[h - 1] - 1])); }
  }

  lemma LabourUnblocked(c: Config, w: nat, p: Pc, g: Shared)
    requires Movable(c, w, p, g) && p.Leads() && !p.Loading? && !p.HitFound? && !p.Admitting? && !p.Refunding?
    ensures CanMove(c, w, p, g)
  {
    hide CanMove;
    match p
    case Doing(i, a) =>
      var h := g.(counts := g.counts.(workCalls := g.counts.workCalls + 1));
      Shows(c, w, p, g, Saving(i, ""), Put(h, i, h.items[i].(made := Some(""))));
    case Retrying(i, a) => Shows(c, w, p, g, Waiting(i, a), Noted(g, Event(i, RetryEvent)));
    case Waiting(i, a) => Shows(c, w, p, g, Admitting(i, a + 1, 0), g);
    case Saving(i, v) =>
      if c.cached {
        Shows(c, w, p, g, Saved(i, v), g.(store := g.store[c.KeyOf(i) := v], counts := g.counts.(stored := g.counts.stored + 1)));
      } else { Shows(c, w, p, g, Saved(i, v), g); }
    case Saved(i, v) => Shows(c, w, p, g, Publishing(i, Resolved(Fine(v, FreshState(c)))), Noted(g, Event(i, FreshEvent(c))));
    case Flagging(i, r) => Shows(c, w, p, g, Publishing(i, Resolved(r)), Noted(g, Event(i, FlagEvent(r))));
    case Publishing(i, o) =>
      var h := if c.cached then g.(inflight := g.inflight[c.KeyOf(i) := g.inflight[c.KeyOf(i)].(outcome := o)]) else g;
      if o.Resolved? { Shows(c, w, p, g, Emitting(i, o.result), h); } else { Shows(c, w, p, g, Exited(false), Lose(h, i)); }
  }

  lemma {:induction false} HeldBelow(c: Config, m: Meter, pcs: seq<Pc>, w: nat)
    requires w < |pcs|
    ensures Weight(c, m, pcs[w]) <= Total(c, m, pcs)
  {
    TotalBound(c, m, pcs[1..]);
    if w > 0 { HeldBelow(c, m, pcs[1..], w - 1); }
  }

  lemma Unblocked(c: Config, w: nat, s: State)
    requires Inv(c, s) && Books(c, s) && w < |s.pcs| && !s.pcs[w].Exited?
    requires s.pcs[w].Following? ==> c.HasKey(s.pcs[w].item) && c.KeyOf(s.pcs[w].item) in s.g.inflight && !s.g.inflight[c.KeyOf(s.pcs[w].item)].outcome.Running?
    ensures CanMove(c, w, s.pcs[w], s.g)
  {
    hide CanMove;
    var p := s.pcs[w];
    assert Cell(c, s.g, w, p);
    if p.Refunding? && p.held > 0 {
      var m := Held(p.held - 1);
      assert Metered(c, m, s.g);
      assert Side(m, s.g) == Total(c, m, s.pcs);
      HeldBelow(c, m, s.pcs, w);
    }
    if !p.Leads() { ArriveUnblocked(c, w, p, s.g); }
    else if p.Loading? || p.HitFound? { LoadUnblocked(c, w, p, s.g); }
    else if p.Admitting? || p.Refunding? { AdmitUnblocked(c, w, p, s.g); }
    else { LabourUnblocked(c, w, p, s.g); }
  }

  /** No reachable state is stuck: while any worker has not exited, some worker can make a sound move. */
  lemma NeverStuck(c: Config, tr: seq<State>, t: nat)
    requires Run(c, tr) && t < |tr| && !Drained(tr[t])
    ensures exists w: nat :: w < |tr[t].pcs| && CanMove(c, w, tr[t].pcs[w], tr[t].g)
  {
    hide CanMove, Books, Ledgered;
    RunBooks(c, tr, t);
    var s := tr[t];
    var w: nat :| w < |s.pcs| && !s.pcs[w].Exited?;
    var u := w;
    if s.pcs[w].Following? {
      FollowersHaveLeaders(c, s, w);
      var call := s.g.inflight[c.KeyOf(s.pcs[w].item)];
      if call.outcome.Running? { u := call.owner; }
    }
    Unblocked(c, u, s);
  }
}
