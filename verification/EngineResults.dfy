/** The engine's accounting promises, for every run under every schedule. */
module EngineResults {
  import opened Engine
  import opened EngineSafety
  import opened EngineTheorems
  import opened EngineAccounting
  import opened EngineBooks

  /** Every physical attempt is paid exactly once: in every reachable state a budget is within its
      limit and holds exactly the started work calls, what others hold, and reservations still in
      flight; once the workers have drained, failed and cancelled runs included, only the calls. */
  lemma PaidExactlyOnce(c: Config, tr: seq<State>, t: nat, r: nat)
    requires Run(c, tr) && t < |tr| && r < c.R()
    ensures var g := tr[t].g;
            && |g.spent| == |g.others| == c.R()
            && g.spent[r] <= c.limits[r]
            && g.started == Sum(WorkCalls, g.items)
            && g.spent[r] == g.others[r] + g.started + Total(c, Held(r), tr[t].pcs)
            && g.counts.workCalls + Total(c, InCall, tr[t].pcs) == g.started
            && (Drained(tr[t]) ==> g.spent[r] == g.others[r] + g.counts.workCalls && g.counts.workCalls == Sum(WorkCalls, g.items))
  {
    RunBooks(c, tr, t);
    var s := tr[t];
    assert Metered(c, Held(r), s.g) && Metered(c, InCall, s.g);
    assert Side(Held(r), s.g) == Total(c, Held(r), s.pcs) && Side(InCall, s.g) == Total(c, InCall, s.pcs);
    if Drained(s) {
      TotalZero(c, Held(r), s.pcs);
      TotalZero(c, InCall, s.pcs);
    }
  }

  lemma {:induction false} OpenOrBroken(c: Config, pcs: seq<Pc>)
    ensures Total(c, Open, pcs) + Total(c, Broken, pcs) <= |pcs|
  {
    if pcs != [] { OpenOrBroken(c, pcs[1..]); }
  }

  /** In every reachable state, failed runs included, the work calls lag the admitted sequences and
      counted retries by at most one per worker. */
  lemma CallsTrackSequences(c: Config, tr: seq<State>, t: nat)
    requires Run(c, tr) && t < |tr|
    ensures var n := tr[t].g.counts;
            n.workCalls <= n.sequences + n.retries <= n.workCalls + c.workers
  {
    RunBooks(c, tr, t);
    var s := tr[t];
    assert Metered(c, Open, s.g);
    assert Side(Open, s.g) == Total(c, Open, s.pcs);
    OpenOrBroken(c, s.pcs);
    TotalBound(c, Open, s.pcs);
  }

  /** A stage that ended without an error and was not cancelled delivered every item. */
  lemma SuccessDelivers(c: Config, tr: seq<State>, t: nat)
    requires Run(c, tr) && t < |tr| && Succeeded(tr[t])
    ensures !tr[t].g.errored && |tr[t].g.items| == c.N()
    ensures forall i: nat :: i < c.N() ==> tr[t].g.items[i].place.Out? && Settled(c, tr[t].g, i, tr[t].g.items[i].place.result)
  {
    RunBooks(c, tr, t);
    var s := tr[t];
    assert s.pcs[0] == Exited(true);
    forall i: nat | i < c.N() ensures s.g.items[i].place.Out? && Settled(c, s.g, i, s.g.items[i].place.result) {
      assert PlaceOk(c, s.pcs, s.g, i);
      assert !At(s.g, i, Todo);
    }
  }

  lemma {:induction false} AllTaken(items: seq<Item>)
    requires forall i :: 0 <= i < |items| ==> items[i].place.Out?
    ensures Sum(Taken, items) == |items|
  {
    if items != [] { AllTaken(items[1..]); }
  }

  /** Nothing is owed when a stage has succeeded. */
  lemma NothingOwed(c: Config, s: State, m: Meter)
    requires Books(c, s) && Succeeded(s) && Metered(c, m, s.g)
    ensures Side(m, s.g) == 0
  {
    assert Side(m, s.g) == Total(c, m, s.pcs);
    TotalZero(c, m, s.pcs);
  }

  /** Report and journal of a successful stage reconcile. */
  lemma SuccessReconciles(c: Config, tr: seq<State>, t: nat)
    requires Run(c, tr) && t < |tr| && Succeeded(tr[t])
    ensures var n, j := tr[t].g.counts, tr[t].g.journal;
      && n.items == c.N()
      && n.workCalls == n.sequences + n.retries == Sum(WorkCalls, tr[t].g.items)
      && Count(j, HitEvent) == n.hits == Sum(Emitted(Hits), tr[t].g.items)
      && Count(j, QuarantinedEvent) == n.quarantined == Sum(Emitted(Quarantines), tr[t].g.items)
      && Count(j, SkippedEvent) == n.skipped == Sum(Emitted(Skips), tr[t].g.items) && Count(j, RetryEvent) == n.retries
      && |tr[t].g.store| == |c.store0| + n.stored
      && (c.cached ==> n.items == n.hits + n.misses && Count(j, StoredEvent) == n.misses - n.quarantined - n.skipped)
      && (!c.cached ==> Count(j, DoneEvent) == n.items - n.quarantined - n.skipped)
      && (c.cached && n.quarantined == 0 && n.skipped == 0 ==> n.sequences == n.stored)
  {
    RunBooks(c, tr, t);
    SuccessDelivers(c, tr, t);
    var s := tr[t];
    AllTaken(s.g.items);
    forall fate ensures CountOf(fate, s.g.counts) == Sum(Emitted(fate), s.g.items) {
      TotalZero(c, Carried(fate), s.pcs);
      assert Side(Carried(fate), s.g) == Total(c, Carried(fate), s.pcs);
    }
    assert CountOf(Hits, s.g.counts) == s.g.counts.hits && CountOf(Quarantines, s.g.counts) == s.g.counts.quarantined
           && CountOf(Skips, s.g.counts) == s.g.counts.skipped;
    hide Total, Sum, Count, Inv, Ledgered, Settled, Meters;
    NothingOwed(c, s, InCall);
    NothingOwed(c, s, HitOwed);
    NothingOwed(c, s, QuarantineOwed);
    NothingOwed(c, s, SkipOwed);
    NothingOwed(c, s, RetryOwed);
    NothingOwed(c, s, Open);
    assert s.g.abandoned == 0 by { NoneBroken(c, s); }
    if c.cached {
      NothingOwed(c, s, MissOwed);
      NothingOwed(c, s, Uncounted);
      if s.g.counts.quarantined == 0 && s.g.counts.skipped == 0 { NothingOwed(c, s, Working); }
    } else {
      NothingOwed(c, s, DoneOwed);
    }
  }

  lemma NoneBroken(c: Config, s: State)
    requires Books(c, s) && Succeeded(s)
    ensures s.g.abandoned == 0
  {
    TotalZero(c, Broken, s.pcs);
  }
}
