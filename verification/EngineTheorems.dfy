/** What the invariant means for whole runs of the engine. */
module EngineTheorems {
  import opened Engine
  import opened EngineSafety

  /** The invariant holds in every state of every run, under every schedule. */
  lemma {:induction false} RunInv(c: Config, tr: seq<State>, t: nat)
    requires Run(c, tr) && t < |tr|
    ensures Inv(c, tr[t])
  {
    hide Inv, Init, EnvStep, WorkerStep;
    if t == 0 { InitInv(c, tr[0]); } else {
      RunInv(c, tr, t - 1);
      assert Next(c, tr[t - 1], tr[t - 1 + 1]);
      if EnvStep(c, tr[t - 1], tr[t]) { EnvInv(c, tr[t - 1], tr[t]); }
      else {
        var w :| WorkerStep(c, w, tr[t - 1], tr[t]);
        StepInv(c, w, tr[t - 1], tr[t]);
      }
    }
  }

  /** Loads (or work calls) made on behalf of key k by the first n items. */
  ghost function KeyLoads(c: Config, items: seq<Item>, k: Key, n: nat): nat
    requires n <= |items|
  {
    if n == 0 then 0
    else KeyLoads(c, items, k, n - 1) + if c.HasKey(n - 1) && c.KeyOf(n - 1) == k then items[n - 1].loads else 0
  }

  ghost function KeyDoes(c: Config, items: seq<Item>, k: Key, n: nat): nat
    requires n <= |items|
  {
    if n == 0 then 0
    else KeyDoes(c, items, k, n - 1) + if c.HasKey(n - 1) && c.KeyOf(n - 1) == k then items[n - 1].does else 0
  }

  /** All the loads and work calls of a key are its leader's. */
  lemma {:induction false} OnlyTheLeader(c: Config, g: Shared, k: Key, n: nat)
    requires c.cached && n <= |g.items| && History(c, g)
    ensures KeyLoads(c, g.items, k, n) == if k in g.inflight && LedBelow(c, g, k, n) then g.items[g.inflight[k].leader].loads else 0
    ensures KeyDoes(c, g.items, k, n) == if k in g.inflight && LedBelow(c, g, k, n) then g.items[g.inflight[k].leader].does else 0
  {
    if n > 0 {
      OnlyTheLeader(c, g, k, n - 1);
      assert Bounded(c, g, n - 1);
    }
  }

  predicate LedBelow(c: Config, g: Shared, k: Key, n: nat)
    requires k in g.inflight
  {
    var i := g.inflight[k].leader;
    i < n && i < |g.items| && c.HasKey(i) && c.KeyOf(i) == k
  }

  /** In every reachable state a key has been loaded at most once and worked at most `attempts`
      times, however many items share it; without a cache the bound is per item. */
  lemma WorkPerKeyBounded(c: Config, tr: seq<State>, t: nat, k: Key, i: nat)
    requires Run(c, tr) && t < |tr|
    ensures c.cached ==> var items := tr[t].g.items;
              KeyLoads(c, items, k, |items|) <= 1 && KeyDoes(c, items, k, |items|) <= c.attempts
    ensures i < |tr[t].g.items| ==> tr[t].g.items[i].does <= c.attempts
  {
    RunInv(c, tr, t);
    var g := tr[t].g;
    if i < |g.items| { assert Bounded(c, g, i); }
    if c.cached {
      OnlyTheLeader(c, g, k, |g.items|);
      if k in g.inflight && LedBelow(c, g, k, |g.items|) { assert Bounded(c, g, g.inflight[k].leader); }
    }
  }

  /** Once a key has a leader it keeps it, and once its outcome is known it keeps that too. */
  ghost predicate CallKept(a: Shared, b: Shared, k: Key) {
    k in a.inflight ==>
      && k in b.inflight && b.inflight[k].leader == a.inflight[k].leader
      && (!a.inflight[k].outcome.Running? ==> b.inflight[k] == a.inflight[k])
  }

  ghost predicate EntryKept(a: Shared, b: Shared, k: Key) {
    k in a.store ==> Has(b.store, k, a.store[k])
  }

  ghost predicate ResultKept(a: Shared, b: Shared, i: nat) {
    i < |a.items| && a.items[i].place.Out? ==> i < |b.items| && b.items[i].place == a.items[i].place
  }

  lemma KeptByStep(c: Config, s: State, s': State, k: Key, i: nat)
    requires Inv(c, s) && Next(c, s, s')
    ensures CallKept(s.g, s'.g, k) && EntryKept(s.g, s'.g, k) && ResultKept(s.g, s'.g, i)
  {
    if !EnvStep(c, s, s') {
      hide Inv, WorkerStep, Move, Cell;
      var w :| WorkerStep(c, w, s, s');
      MoveCell(c, w, s, s');
      if i < |s.g.items| { assert OwnItem(w, s.g.items[i], s'.g.items[i]); }
    }
  }

  /** Leaders, outcomes, stored entries and emitted results never change later in the run. */
  lemma {:induction false} NothingIsRewritten(c: Config, tr: seq<State>, t: nat, u: nat, k: Key, i: nat)
    requires Run(c, tr) && t <= u < |tr|
    ensures CallKept(tr[t].g, tr[u].g, k) && EntryKept(tr[t].g, tr[u].g, k) && ResultKept(tr[t].g, tr[u].g, i)
    decreases u - t
  {
    hide Inv, Init, Next;
    if t < u {
      NothingIsRewritten(c, tr, t, u - 1, k, i);
      RunInv(c, tr, u - 1);
      assert Next(c, tr[u - 1], tr[u - 1 + 1]);
      KeptByStep(c, tr[u - 1], tr[u], k, i);
    }
  }

  /** Items that share a key finish with one outcome, each under its own index; an unflagged one
      is exactly what the store holds under that key. */
  lemma SameKeySameOutcome(c: Config, tr: seq<State>, t: nat, i: nat, j: nat)
    requires Run(c, tr) && t < |tr| && c.cached && c.HasKey(i) && c.HasKey(j) && c.KeyOf(i) == c.KeyOf(j)
    requires i < |tr[t].g.items| && tr[t].g.items[i].place.Out?
    requires j < |tr[t].g.items| && tr[t].g.items[j].place.Out?
    ensures var g, ri, rj := tr[t].g, tr[t].g.items[i].place.result, tr[t].g.items[j].place.result;
            && Copy(j, ri) == rj
            && (ri.Fine? ==> ri == rj && Has(g.store, c.KeyOf(i), ri.value) && (ri.state.Hit? <==> c.KeyOf(i) in c.store0))
            && (ri.Quarantined? ==> ri.index == i)
  {
    RunInv(c, tr, t);
    var g := tr[t].g;
    assert PlaceOk(c, tr[t].pcs, g, i) && PlaceOk(c, tr[t].pcs, g, j);
    assert CallOk(c, tr[t].pcs, g, c.KeyOf(i));
  }
}
