/** The books balance in every reachable state; what that means once a stage has drained. */
module EngineBooks {
  import opened Engine
  import opened EngineSafety
  import opened EngineTheorems
  import opened EngineAccounting

  ghost predicate Meters(c: Config, s: State)
    requires Sized(c, s.g)
  {
    forall m :: Metered(c, m, s.g) ==> Side(m, s.g) == Total(c, m, s.pcs)
  }

  ghost predicate Budgets(c: Config, g: Shared)
    requires Sized(c, g)
  {
    forall r :: 0 <= r < c.R() ==> g.spent[r] <= c.limits[r]
  }

  ghost predicate Tallies(c: Config, s: State) {
    var g := s.g;
    && g.started == Sum(WorkCalls, g.items) && g.counts.items == Sum(Taken, g.items)
    && (!g.errored ==> forall fate :: Side(Carried(fate), g) == Total(c, Carried(fate), s.pcs))
    && g.abandoned <= Total(c, Broken, s.pcs)
    && |c.store0| + g.counts.stored <= |g.store|
    && (!g.errored ==> |c.store0| + g.counts.stored == |g.store|)
  }

  ghost predicate Books(c: Config, s: State) {
    Sized(c, s.g) && Meters(c, s) && Budgets(c, s.g) && Tallies(c, s)
  }

  lemma SaneWorker(c: Config, s: State, w: nat)
    requires Inv(c, s) && w < |s.pcs|
    ensures Sane(c, s.pcs[w])
  {
    var p := s.pcs[w];
    assert Cell(c, s.g, w, p);
    if p.FollowEvent? { assert CallOk(c, s.pcs, s.g, c.KeyOf(p.item)); }
  }

  lemma MeterStep(c: Config, w: nat, s: State, s': State, m: Meter)
    requires Sized(c, s.g) && Sized(c, s'.g) && Meters(c, s) && w < |s.pcs| && |s'.pcs| == |s.pcs| && s'.pcs == s.pcs[w := s'.pcs[w]]
    requires Sane(c, s.pcs[w]) && Sane(c, s'.pcs[w]) && Posted(c, s.pcs[w], s.g, s'.pcs[w], s'.g)
    requires Metered(c, m, s'.g) && !m.Carried?
    ensures Side(m, s'.g) == Total(c, m, s'.pcs)
  {
    var p, p' := s.pcs[w], s'.pcs[w];
    assert Metered(c, m, s.g);
    assert Side(m, s'.g) - Side(m, s.g) == Weight(c, m, p') - Weight(c, m, p) by {
      hide Posted, Sane, Side, Weight;
      match m
      case Held(_) => MoneyBalances(c, m, p, s.g, p', s'.g);
      case InCall => MoneyBalances(c, m, p, s.g, p', s'.g);
      case Open => MoneyBalances(c, m, p, s.g, p', s'.g);
      case MissOwed => MissesBalance(c, m, p, s.g, p', s'.g);
      case DoneOwed => MissesBalance(c, m, p, s.g, p', s'.g);
      case Uncounted => WorkBalances(c, m, p, s.g, p', s'.g);
      case Working => WorkBalances(c, m, p, s.g, p', s'.g);
      case _ => EventsBalance(c, m, p, s.g, p', s'.g);
    }
    TotalUpdate(c, m, s.pcs, w, p');
  }

  /** The one item a move touches. */
  lemma ItemDiff(c: Config, w: nat, p: Pc, g: Shared, p': Pc, g': Shared) returns (j: int)
    requires Track(c, w, p, g, p', g') && (p.HasItem() ==> p.item < |g.items|) && (p'.HasItem() ==> p'.item < |g.items|)
    ensures j == (if p.HasItem() then p.item else Of(p'))
    ensures if j < 0 then g'.items == g.items else j < |g.items| && g'.items == g.items[j := g'.items[j]]
  {
    j := if p.HasItem() then p.item else Of(p');
    if j < 0 { assert g'.items == g.items; } else { assert g'.items == g.items[j := g'.items[j]]; }
  }

  lemma SumStep(c: Config, t: Tally, w: nat, p: Pc, g: Shared, p': Pc, g': Shared)
    requires Track(c, w, p, g, p', g') && Edge(c, p, p')
    requires (p.HasItem() ==> At(g, p.item, With(w))) && (p'.HasItem() ==> At(g', p'.item, With(w)))
    requires p.Idle? && p'.HasItem() ==> At(g, p'.item, Todo)
    ensures Sum(t, g'.items) - Sum(t, g.items) == Change(c, t, p, p')
  {
    var j := ItemDiff(c, w, p, g, p', g');
    if j >= 0 {
      SumUpdate(t, g.items, j, g'.items[j]);
    }
  }

  function Posts(fate: Fate, e: Entry): int {
    match fate
    case Hits => e.hits
    case Quarantines => e.quarantined
    case Skips => e.skipped
  }

  function Change(c: Config, t: Tally, p: Pc, p': Pc): int {
    match t
    case WorkCalls => Post(c, p, p').started
    case Taken => Post(c, p, p').items
    case Emitted(fate) => Is(p.Emitting? && p'.Idle? && Meets(fate, p.result))
  }

  /** A counted result stays with its worker until it is emitted or lost to a failure. */
  lemma FateFollows(c: Config, fate: Fate, p: Pc, p': Pc)
    requires Edge(c, p, p') && Sane(c, p) && Sane(c, p') && !Faulty(p') && !Faulty(p)
    ensures Is(Carries(fate, p')) - Is(Carries(fate, p)) == Posts(fate, Post(c, p, p')) - Change(c, Emitted(fate), p, p')
  {}

  lemma BrokenGrows(c: Config, p: Pc, p': Pc)
    requires Edge(c, p, p')
    ensures Post(c, p, p').abandoned <= Weight(c, Broken, p') - Weight(c, Broken, p)
  {}

  lemma StoreSize(c: Config, w: nat, p: Pc, g: Shared, p': Pc, g': Shared)
    requires Cell(c, g, w, p) && Cell(c, g', w, p') && Track(c, w, p, g, p', g') && Posted(c, p, g, p', g')
    ensures |g.store| + Post(c, p, p').stored <= |g'.store|
    ensures !g'.errored ==> |g'.store| == |g.store| + Post(c, p, p').stored
  {}

  /** What the accounting needs to know of one worker's step. */
  ghost predicate Facts(c: Config, w: nat, p: Pc, g: Shared, p': Pc, g': Shared) {
    && Sized(c, g) && Sized(c, g') && Cell(c, g, w, p) && Cell(c, g', w, p') && Sane(c, p) && Sane(c, p')
    && Track(c, w, p, g, p', g') && Posted(c, p, g, p', g')
    && (p.Idle? && p'.HasItem() ==> At(g, p'.item, Todo))
    && (Faulty(p) ==> g.errored)
  }

  lemma StepFacts(c: Config, w: nat, s: State, s': State)
    requires Inv(c, s) && WorkerStep(c, w, s, s') && (Faulty(s.pcs[w]) ==> s.g.errored)
    ensures Inv(c, s') && Facts(c, w, s.pcs[w], s.g, s'.pcs[w], s'.g)
  {
    hide Cell, Track, Posted, Guarantee, Sane, Faulty;
    StepInv(c, w, s, s');
    MoveCell(c, w, s, s');
    SaneWorker(c, s, w);
    SaneWorker(c, s', w);
    assert Cell(c, s.g, w, s.pcs[w]) && Cell(c, s'.g, w, s'.pcs[w]);
    if s.pcs[w].Idle? && s'.pcs[w].HasItem() { Arrives(c, w, s, s'); }
    MovePosts(c, w, s.pcs[w], s.g, s'.pcs[w], s'.g);
  }

  lemma Arrives(c: Config, w: nat, s: State, s': State)
    requires Inv(c, s) && WorkerStep(c, w, s, s') && s.pcs[w].Idle? && s'.pcs[w].HasItem()
    ensures At(s.g, s'.pcs[w].item, Todo)
  {}

  lemma SumsStep(c: Config, w: nat, p: Pc, g: Shared, p': Pc, g': Shared)
    requires Facts(c, w, p, g, p', g')
    ensures forall t :: Sum(t, g'.items) == Sum(t, g.items) + Change(c, t, p, p')
    ensures g'.started == g.started + Change(c, WorkCalls, p, p')
    ensures g'.counts.items == g.counts.items + Change(c, Taken, p, p')
  {
    hide Sane, Sum;
    forall t ensures Sum(t, g'.items) == Sum(t, g.items) + Change(c, t, p, p') { SumStep(c, t, w, p, g, p', g'); }
  }

  lemma TalliesStep(c: Config, w: nat, s: State, s': State)
    requires Tallies(c, s) && w < |s.pcs| && |s'.pcs| == |s.pcs| && s'.pcs == s.pcs[w := s'.pcs[w]]
    requires Facts(c, w, s.pcs[w], s.g, s'.pcs[w], s'.g)
    ensures Tallies(c, s')
  {
    var p, p', g, g' := s.pcs[w], s'.pcs[w], s.g, s'.g;
    SumsStep(c, w, p, g, p', g');
    StoreSize(c, w, p, g, p', g');
    BrokenGrows(c, p, p');
    TotalUpdate(c, Broken, s.pcs, w, p');
    hide Cell, Track, Sane, Sum, Total;
    if !g'.errored { forall fate ensures Side(Carried(fate), g') == Total(c, Carried(fate), s'.pcs) { FatesStep(c, w, s, s', fate); } }
  }

  lemma FatesStep(c: Config, w: nat, s: State, s': State, fate: Fate)
    requires Tallies(c, s) && w < |s.pcs| && |s'.pcs| == |s.pcs| && s'.pcs == s.pcs[w := s'.pcs[w]] && !s'.g.errored
    requires Facts(c, w, s.pcs[w], s.g, s'.pcs[w], s'.g)
    ensures Side(Carried(fate), s'.g) == Total(c, Carried(fate), s'.pcs)
  {
    var p, p', g, g' := s.pcs[w], s'.pcs[w], s.g, s'.g;
    assert Side(Carried(fate), g) == Total(c, Carried(fate), s.pcs);
    SumsStep(c, w, p, g, p', g');
    TotalUpdate(c, Carried(fate), s.pcs, w, p');
    FateFollows(c, fate, p, p');
    hide Cell, Track, Edge, Sum, Total, Post, Carries, Meets;
  }

  lemma BooksStep(c: Config, w: nat, s: State, s': State)
    requires Inv(c, s) && Books(c, s) && Ledgered(s) && WorkerStep(c, w, s, s')
    ensures Books(c, s') && Ledgered(s')
  {
    hide Cell, Track, Move, Guarantee, Tallies, Side, Total;
    var p, p', g, g' := s.pcs[w], s'.pcs[w], s.g, s'.g;
    StepFacts(c, w, s, s');
    assert Meters(c, s') by {
      hide Posted, Sane;
      forall m | Metered(c, m, g') ensures Side(m, g') == Total(c, m, s'.pcs) { MeterStep(c, w, s, s', m); }
    }
    TalliesStep(c, w, s, s');
    assert Budgets(c, g') by { BudgetsStep(c, w, p, g, p', g'); }
    LedgeredStep(c, w, s, s');
  }

  /** Failed workers have been recorded, and a recorded failure cancels the stage or is about to;
      a worker leaves quietly only when nothing is left to take. */
  ghost predicate Ledgered(s: State) {
    && (forall w :: 0 <= w < |s.pcs| && Faulty(s.pcs[w]) ==> s.g.errored)
    && (s.g.errored ==> s.g.cancelled || exists w :: 0 <= w < |s.pcs| && Faulty(s.pcs[w]))
    && (forall w, i: nat :: 0 <= w < |s.pcs| && s.pcs[w] == Exited(true) && !s.g.cancelled ==> !At(s.g, i, Todo))
  }

  lemma LedgeredStep(c: Config, w: nat, s: State, s': State)
    requires Ledgered(s) && WorkerStep(c, w, s, s') && Facts(c, w, s.pcs[w], s.g, s'.pcs[w], s'.g)
    ensures Ledgered(s')
  {
    hide Cell, Sane, Move;
    var p, p', g, g' := s.pcs[w], s'.pcs[w], s.g, s'.g;
    TodoShrinks(c, w, p, g, p', g');
    if g'.errored && !g'.cancelled && !Faulty(p') {
      if Faulty(p) { FaultEnds(c, w, p, g, p', g'); }
      var u :| 0 <= u < |s.pcs| && Faulty(s.pcs[u]);
      assert u != w && s'.pcs[u] == s.pcs[u];
    }
  }

  lemma TodoShrinks(c: Config, w: nat, p: Pc, g: Shared, p': Pc, g': Shared)
    requires Facts(c, w, p, g, p', g') && Move(c, w, p, g, p', g')
    ensures forall i: nat :: At(g', i, Todo) ==> At(g, i, Todo)
    ensures p' == Exited(true) && !g'.cancelled ==> forall i: nat :: !At(g', i, Todo)
  {}

  lemma FaultEnds(c: Config, w: nat, p: Pc, g: Shared, p': Pc, g': Shared)
    requires Facts(c, w, p, g, p', g') && Faulty(p)
    ensures Faulty(p') || g'.cancelled
  {}

  lemma BudgetsStep(c: Config, w: nat, p: Pc, g: Shared, p': Pc, g': Shared)
    requires Facts(c, w, p, g, p', g') && Budgets(c, g) && Move(c, w, p, g, p', g')
    ensures Budgets(c, g')
  {}

  lemma InitBooks(c: Config, s: State)
    requires Init(c, s)
    ensures Books(c, s) && Ledgered(s)
  {
    forall m { TotalZero(c, m, s.pcs); }
    SumZero(WorkCalls, s.g.items);
    SumZero(Taken, s.g.items);
    forall fate { SumZero(Emitted(fate), s.g.items); }
  }

  lemma {:induction false} SumZero(t: Tally, items: seq<Item>)
    requires forall i :: 0 <= i < |items| ==> Tick(t, items[i]) == 0
    ensures Sum(t, items) == 0
  {
    if items != [] { SumZero(t, items[1..]); }
  }

  lemma EnvLedgered(c: Config, s: State, s': State)
    requires Ledgered(s) && EnvStep(c, s, s')
    ensures Ledgered(s')
  {
    forall w, i: nat | 0 <= w < |s'.pcs| && s'.pcs[w] == Exited(true) && !s'.g.cancelled ensures !At(s'.g, i, Todo) {
      assert !At(s.g, i, Todo);
    }
    if s'.g.errored && !s'.g.cancelled {
      var u :| 0 <= u < |s.pcs| && Faulty(s.pcs[u]);
      assert Faulty(s'.pcs[u]);
    }
  }

  lemma EnvBooks(c: Config, s: State, s': State)
    requires Books(c, s) && Ledgered(s) && EnvStep(c, s, s')
    ensures Books(c, s') && Ledgered(s')
  {
    hide Total, Sum, Count;
    EnvLedgered(c, s, s');
    hide Ledgered;
    forall m | Metered(c, m, s'.g) ensures Side(m, s'.g) == Total(c, m, s'.pcs) {
      assert Metered(c, m, s.g);
    }
  }

  /** The books balance in every state of every run. */
  lemma {:induction false} RunBooks(c: Config, tr: seq<State>, t: nat)
    requires Run(c, tr) && t < |tr|
    ensures Inv(c, tr[t]) && Books(c, tr[t]) && Ledgered(tr[t])
  {
    hide Inv, Init, EnvStep, WorkerStep, Books, Ledgered;
    if t == 0 { InitInv(c, tr[0]); InitBooks(c, tr[0]); } else {
      RunBooks(c, tr, t - 1);
      assert Next(c, tr[t - 1], tr[t - 1 + 1]);
      if EnvStep(c, tr[t - 1], tr[t]) {
        EnvInv(c, tr[t - 1], tr[t]);
        EnvBooks(c, tr[t - 1], tr[t]);
      } else {
        var w :| WorkerStep(c, w, tr[t - 1], tr[t]);
        StepInv(c, w, tr[t - 1], tr[t]);
        BooksStep(c, w, tr[t - 1], tr[t]);
      }
    }
  }
}
