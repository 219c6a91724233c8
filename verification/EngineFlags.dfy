/** Which failures become data: how a failed work call is resolved, by its class and the step's mode. */
module EngineFlags {
  import opened Common
  import opened Engine
  import opened EngineSafety
  import opened EngineTheorems
  import opened EngineAccounting
  import opened EngineBooks

  /** The last work call made for the item returned an error. */
  predicate FailedLast(it: Item) { it.failure.Some? && it.failure.value.attempt == it.does >= 1 }

  /** That error counts against the item: it came on a live context, and is a data error, or still transient
      when the attempts were used up. */
  predicate GaveUp(c: Config, it: Item) {
    FailedLast(it) && !it.failure.value.done
    && (it.failure.value.cls.DataError? || (it.failure.value.cls.Transient? && it.does == c.attempts))
  }

  /** The item will be called again. */
  predicate Retried(c: Config, it: Item) {
    FailedLast(it) && !it.failure.value.done && it.failure.value.cls.Transient? && it.does < c.attempts
  }

  /** A result that what was done for its leader accounts for. */
  predicate Justified(c: Config, it: Item, r: Result) {
    match r
    case Fine(_, Hit) => it.does == 0 && it.failure.None?
    case Fine(_, _) => it.does >= 1 && !FailedLast(it)
    case Quarantined(_, cls, a) => c.mode.Quarantine? && GaveUp(c, it) && cls == it.failure.value.cls && a == it.does
    case Skipped => c.mode.Skip? && GaveUp(c, it)
  }

  /** What a worker's program counter says about the calls made for its item. */
  predicate ItemFair(c: Config, p: Pc, it: Item) {
    match p
    case Loading(_) => it.failure.None?
    case HitFound(_, _) => it.failure.None?
    case Admitting(_, a, _) => if a <= 1 then it.failure.None? else it.failure == Some(Failure(Transient, false, a - 1))
    case Doing(_, a) => it.failure.Some? ==> it.failure.value.attempt < a
    case Retrying(_, a) => it.failure == Some(Failure(Transient, false, a))
    case Waiting(_, a) => it.failure == Some(Failure(Transient, false, a))
    case Saving(_, _) => it.does >= 1 && !FailedLast(it)
    case Saved(_, _) => it.does >= 1 && !FailedLast(it)
    case Flagging(_, r) => !r.Fine? && Justified(c, it, r)
    case Publishing(_, o) => o.Resolved? ==> Justified(c, it, o.result)
    case Emitting(_, r) => !c.cached ==> Justified(c, it, r)
    case _ => true
  }

  ghost predicate PcFair(c: Config, g: Shared, p: Pc) { p.HasItem() && p.item < |g.items| ==> ItemFair(c, p, g.items[p.item]) }

  ghost predicate CallFair(c: Config, g: Shared, k: Key)
    requires k in g.inflight
  {
    var call := g.inflight[k];
    call.outcome.Resolved? && call.leader < |g.items| ==> Justified(c, g.items[call.leader], call.outcome.result)
  }

  ghost predicate PlaceFair(c: Config, g: Shared, i: nat)
    requires i < |g.items|
  {
    match g.items[i].place
    case Out(r) => !c.cached ==> Justified(c, g.items[i], r)
    case Lost => g.errored
    case _ => true
  }

  ghost predicate Fair(c: Config, s: State) {
    && (forall w :: 0 <= w < |s.pcs| ==> PcFair(c, s.g, s.pcs[w]))
    && (forall k :: k in s.g.inflight ==> CallFair(c, s.g, k))
    && (forall i: nat :: i < |s.g.items| ==> PlaceFair(c, s.g, i))
  }

  // ----- one step -----------------------------------------------------------------------------------------

  /** How a work call's return is resolved: `error` is the error it returned, if any, and the verdict is by
      class, mode and attempts alone. */
  ghost predicate Verdict(c: Config, i: nat, a: nat, error: Failure, p': Pc) {
    var ours, again := !error.done && (error.cls.Transient? || error.cls.DataError?), error.cls.Transient? && a < c.attempts;
    && (p' == Retrying(i, a) <==> ours && again)
    && (p' == Flagging(i, Skipped) <==> ours && !again && c.mode.Skip?)
    && (p' == Flagging(i, Quarantined(i, error.cls, a)) <==> ours && !again && c.mode.Quarantine?)
    && (p' == Publishing(i, Failed) <==> !ours || (!again && c.mode.FailFast?))
  }

  lemma DoFair(c: Config, i: nat, a: nat, g: Shared, p': Pc, g': Shared)
    requires i < |g.items| && Do(c, i, a, g, p', g') && 1 <= a <= c.attempts
    requires g.items[i].does == a && ItemFair(c, Doing(i, a), g.items[i])
    ensures i < |g'.items| && ItemFair(c, p', g'.items[i])
    ensures FailedLast(g'.items[i]) ==> Verdict(c, i, a, g'.items[i].failure.value, p') && g'.items[i].failure.value.done == g.cancelled
    ensures !FailedLast(g'.items[i]) ==> p'.Saving? || p' == Publishing(i, Failed)
  {
    hide WorkFailed, Verdict;
    var n := g.(counts := g.counts.(workCalls := g.counts.workCalls + 1));
    if cls :| WorkFailed(c, i, a, cls, Put(n, i, n.items[i].(failure := Some(Failure(cls, g.cancelled, a)))), p', g') {
      FailedFair(c, i, a, cls, Put(n, i, n.items[i].(failure := Some(Failure(cls, g.cancelled, a)))), p', g');
    }
  }

  lemma FailedFair(c: Config, i: nat, a: nat, cls: Class, h: Shared, p': Pc, g': Shared)
    requires i < |h.items| && h.items[i].does == a && 1 <= a <= c.attempts && h.items[i].failure == Some(Failure(cls, h.cancelled, a))
    requires WorkFailed(c, i, a, cls, h, p', g')
    ensures g'.items == h.items && Verdict(c, i, a, Failure(cls, h.cancelled, a), p')
    ensures ItemFair(c, p', g'.items[i])
  {}

  /** What the safety proof knows about the calls made so far. */
  predicate Counted(c: Config, p: Pc, it: Item) {
    match p
    case Loading(_) => it.does == 0
    case HitFound(_, _) => it.does == 0
    case Admitting(_, a, _) => 1 <= a && it.does == a - 1
    case Waiting(_, a) => 1 <= a
    case Lookup(_) => it.failure.None? && it.does == 0
    case Following(_) => c.cached
    case FollowEvent(_, _) => c.cached
    case _ => true
  }

  lemma CellCounts(c: Config, w: nat, g: Shared, p: Pc)
    requires Cell(c, g, w, p) && p.HasItem()
    ensures p.item < |g.items| && Counted(c, p, g.items[p.item])
    ensures p.Doing? ==> 1 <= p.attempt <= c.attempts && g.items[p.item].does == p.attempt
  {}

  /** Every move but a work call's return leaves the record of errors alone. */
  lemma EdgeFair(c: Config, p: Pc, it: Item, p': Pc, it': Item)
    requires Edge(c, p, p') && p.HasItem() && !p.Doing? && p'.HasItem()
    requires Counted(c, p, it) && ItemFair(c, p, it)
    requires it'.failure == it.failure && it'.does == it.does + if p.Admitting? && p'.Doing? then 1 else 0
    ensures ItemFair(c, p', it')
  {}

  lemma TrackKeeps(c: Config, w: nat, p: Pc, g: Shared, p': Pc, g': Shared)
    requires Track(c, w, p, g, p', g') && p.HasItem() && !p.Doing? && p.item < |g.items| && p'.HasItem()
    ensures p'.item == p.item && p.item < |g'.items| && g'.items[p.item].failure == g.items[p.item].failure
    ensures g'.items[p.item].does == g.items[p.item].does + if p.Admitting? && p'.Doing? then 1 else 0
  {}

  lemma MoveFair(c: Config, w: nat, p: Pc, g: Shared, p': Pc, g': Shared)
    requires Facts(c, w, p, g, p', g') && Move(c, w, p, g, p', g') && History(c, g) && PcFair(c, g, p)
    ensures PcFair(c, g', p')
  {
    hide Cell, Track, Move, MoneyPosted, CountsPosted, Sane, ItemFair, Counted;
    if p.HasItem() && p'.HasItem() {
      CellCounts(c, w, g, p);
      if p.Doing? {
        assert Do(c, p.item, p.attempt, g, p', g') by { OnlyDo(c, w, p, g, p', g'); }
        DoFair(c, p.item, p.attempt, g, p', g');
        DoStays(c, p.item, p.attempt, g, p', g');
      } else {
        TrackKeeps(c, w, p, g, p', g');
        EdgeFair(c, p, g.items[p.item], p', g'.items[p.item]);
      }
    } else if p'.HasItem() { Starts(c, w, p, g, p', g'); }
  }

  lemma OnlyDo(c: Config, w: nat, p: Pc, g: Shared, p': Pc, g': Shared)
    requires Move(c, w, p, g, p', g') && p.Doing?
    ensures p.item < |g.items| && Do(c, p.item, p.attempt, g, p', g')
  { hide Do; }

  lemma DoStays(c: Config, i: nat, a: nat, g: Shared, p': Pc, g': Shared)
    requires i < |g.items| && Do(c, i, a, g, p', g')
    ensures p'.HasItem() && p'.item == i
  {}

  lemma Starts(c: Config, w: nat, p: Pc, g: Shared, p': Pc, g': Shared)
    requires Facts(c, w, p, g, p', g') && History(c, g) && !p.HasItem() && p'.HasItem()
    ensures PcFair(c, g', p')
  {
    hide Cell, MoneyPosted, CountsPosted, Sane;
    assert Untouched(c, g, p'.item);
    assert p'.Lookup? || (p'.Admitting? && p'.attempt == 1);
  }

  /** Nothing that a result was judged by changes once its call is resolved. */
  lemma CallsFair(c: Config, w: nat, s: State, s': State)
    requires Inv(c, s) && Fair(c, s) && WorkerStep(c, w, s, s') && Facts(c, w, s.pcs[w], s.g, s'.pcs[w], s'.g)
    ensures forall k :: k in s'.g.inflight ==> CallFair(c, s'.g, k)
  {
    hide Move, Posted, Sane, History, StoreGrown, Truth, Cell, CallFair, CallOk, Track, ItemFair;
    assert Cell(c, s.g, w, s.pcs[w]) && PcFair(c, s.g, s.pcs[w]);
    forall k | k in s'.g.inflight ensures CallFair(c, s'.g, k) {
      if k in s.g.inflight {
        assert CallFair(c, s.g, k) && CallOk(c, s.pcs, s.g, k);
        OldCallFair(c, w, s.pcs[w], s.pcs, s.g, s'.pcs[w], s'.g, k);
      } else { NewCallFair(c, w, s.pcs[w], s.g, s'.pcs[w], s'.g, k); }
    }
  }

  lemma NewCallFair(c: Config, w: nat, p: Pc, g: Shared, p': Pc, g': Shared, k: Key)
    requires Cell(c, g, w, p) && Track(c, w, p, g, p', g') && k in g'.inflight && k !in g.inflight
    ensures CallFair(c, g', k)
  {}

  lemma OldCallFair(c: Config, w: nat, p: Pc, pcs: seq<Pc>, g: Shared, p': Pc, g': Shared, k: Key)
    requires Cell(c, g, w, p) && Track(c, w, p, g, p', g') && PcFair(c, g, p) && k in g.inflight && k in g'.inflight
    requires CallFair(c, g, k) && CallOk(c, pcs, g, k) && (p.Idle? && p'.HasItem() ==> At(g, p'.item, Todo)) && Sized(c, g) && History(c, g)
    ensures CallFair(c, g', k)
  {
    hide Truth, Justified;
    var call := g'.inflight[k];
    if call.outcome.Resolved? && call.leader < |g.items| {
      if call == g.inflight[k] {
        assert Unworked(g, g', call.leader) by { hide Knows; }
        Unchanged(c, g.items[call.leader], g'.items[call.leader], call.outcome.result);
      } else {
        assert p.Publishing? && call == Call(w, p.item, p.outcome);
        Unchanged(c, g.items[call.leader], g'.items[call.leader], call.outcome.result);
      }
    }
  }

  predicate Unworked(g: Shared, g': Shared, i: nat) {
    i < |g.items| && i < |g'.items| && g'.items[i].does == g.items[i].does && g'.items[i].failure == g.items[i].failure
  }

  lemma Unchanged(c: Config, it: Item, it': Item, r: Result)
    requires Justified(c, it, r) && it'.does == it.does && it'.failure == it.failure
    ensures Justified(c, it', r)
  {}

  /** What was emitted stays as it was; what is emitted now was judged before. */
  lemma PlacesFair(c: Config, w: nat, s: State, s': State)
    requires Inv(c, s) && Fair(c, s) && WorkerStep(c, w, s, s') && Facts(c, w, s.pcs[w], s.g, s'.pcs[w], s'.g)
    ensures forall i: nat :: i < |s'.g.items| ==> PlaceFair(c, s'.g, i)
  {
    hide Move, Posted, Sane, History, StoreGrown, Truth, Cell, CallFair, CallOk, Track, ItemFair, PlaceFair;
    assert Cell(c, s.g, w, s.pcs[w]) && PcFair(c, s.g, s.pcs[w]);
    forall i: nat | i < |s'.g.items| ensures PlaceFair(c, s'.g, i) {
      assert PlaceFair(c, s.g, i);
      OnePlaceFair(c, w, s.pcs[w], s.g, s'.pcs[w], s'.g, i);
    }
  }

  lemma OnePlaceFair(c: Config, w: nat, p: Pc, g: Shared, p': Pc, g': Shared, i: nat)
    requires Cell(c, g, w, p) && Track(c, w, p, g, p', g') && Posted(c, p, g, p', g') && PcFair(c, g, p)
    requires i < |g.items| && i < |g'.items| && PlaceFair(c, g, i) && (p.Idle? && p'.HasItem() ==> At(g, p'.item, Todo))
    requires Cell(c, g', w, p')
    ensures PlaceFair(c, g', i)
  {
    hide Knows, MoneyPosted, CountsPosted, Justified;
    if i == Of(p) && p.Emitting? && p'.Idle? && !c.cached { Unchanged(c, g.items[i], g'.items[i], p.result); }
  }

  lemma OthersFair(c: Config, w: nat, s: State, s': State, u: nat)
    requires Inv(c, s) && Fair(c, s) && WorkerStep(c, w, s, s') && Track(c, w, s.pcs[w], s.g, s'.pcs[w], s'.g)
    requires u < |s.pcs| && u != w
    ensures PcFair(c, s'.g, s.pcs[u])
  {
    hide Move, History, StoreGrown, Knows, CallOk, PlaceOk, ItemFair, PlaceFair, CallFair;
    assert Cell(c, s.g, u, s.pcs[u]) && Cell(c, s.g, w, s.pcs[w]);
    assert PcFair(c, s.g, s.pcs[u]);
    var p := s.pcs[u];
    if p.HasItem() { SamePcFair(c, p, s.g.items[p.item], s'.g.items[p.item]); }
  }

  lemma SamePcFair(c: Config, p: Pc, it: Item, it': Item)
    requires ItemFair(c, p, it) && it'.does == it.does && it'.failure == it.failure
    ensures ItemFair(c, p, it')
  {}

  lemma StepFair(c: Config, w: nat, s: State, s': State)
    requires Inv(c, s) && Fair(c, s) && Ledgered(s) && WorkerStep(c, w, s, s')
    ensures Fair(c, s')
  {
    hide PcFair, Track, Move, History, Cell, CallFair, PlaceFair, Posted, Sane;
    StepFacts(c, w, s, s');
    assert PcFair(c, s.g, s.pcs[w]);
    CallsFair(c, w, s, s');
    PlacesFair(c, w, s, s');
    MoveFair(c, w, s.pcs[w], s.g, s'.pcs[w], s'.g);
    forall u | 0 <= u < |s'.pcs| ensures PcFair(c, s'.g, s'.pcs[u]) {
      if u != w { OthersFair(c, w, s, s', u); }
    }
  }

  lemma EnvFair(c: Config, s: State, s': State)
    requires Fair(c, s) && EnvStep(c, s, s')
    ensures Fair(c, s')
  {
    hide ItemFair, Justified;
    forall w | 0 <= w < |s'.pcs| ensures PcFair(c, s'.g, s'.pcs[w]) { assert PcFair(c, s.g, s.pcs[w]); }
    forall k | k in s'.g.inflight ensures CallFair(c, s'.g, k) { assert CallFair(c, s.g, k); }
    forall i: nat | i < |s'.g.items| ensures PlaceFair(c, s'.g, i) { assert PlaceFair(c, s.g, i); }
  }

  lemma {:induction false} RunFair(c: Config, tr: seq<State>, t: nat)
    requires Run(c, tr) && t < |tr|
    ensures Fair(c, tr[t])
  {
    hide Inv, Init, EnvStep, WorkerStep, Fair, Ledgered, Books;
    if t == 0 { InitFair(c, tr[0]); } else {
      RunFair(c, tr, t - 1);
      RunInv(c, tr, t - 1);
      RunBooks(c, tr, t - 1);
      assert Next(c, tr[t - 1], tr[t - 1 + 1]);
      if EnvStep(c, tr[t - 1], tr[t]) { EnvFair(c, tr[t - 1], tr[t]); }
      else {
        var w :| WorkerStep(c, w, tr[t - 1], tr[t]);
        StepFair(c, w, tr[t - 1], tr[t]);
      }
    }
  }

  lemma InitFair(c: Config, s: State)
    requires Init(c, s)
    ensures Fair(c, s)
  {}

  // ----- whole runs ---------------------------------------------------------------------------------------

  /** The item whose calls decide item i's result: the leader of its key, or itself without a cache. */
  function Decider(c: Config, g: Shared, i: nat): nat {
    if c.cached && c.HasKey(i) && c.KeyOf(i) in g.inflight then g.inflight[c.KeyOf(i)].leader else i
  }

  /** An emitted item is flagged exactly when the last call made for it returned an error, and then that error
      came on a live context and was a data error, or a transient one at the last attempt.  It is dropped exactly
      under Skip, and otherwise quarantined, under Quarantine, with that error's class and the number of calls. */
  lemma FlagsFollowPolicy(c: Config, tr: seq<State>, t: nat, i: nat)
    requires Run(c, tr) && t < |tr| && i < |tr[t].g.items| && tr[t].g.items[i].place.Out?
    ensures var g, r, j := tr[t].g, tr[t].g.items[i].place.result, Decider(c, tr[t].g, i);
      && j < |g.items|
      && var it := g.items[j];
        && (!r.Fine? <==> it.failure.Some? && it.failure.value.attempt == it.does >= 1)
        && (!r.Fine? ==> !it.failure.value.done && (it.failure.value.cls.DataError? || (it.failure.value.cls.Transient? && it.does == c.attempts)))
        && (r.Skipped? ==> c.mode.Skip?)
        && (r.Quarantined? ==> c.mode.Quarantine? && r.index == i && r.cls == it.failure.value.cls && r.attempts == it.does)
  {
    RunInv(c, tr, t);
    RunFair(c, tr, t);
    var g := tr[t].g;
    assert PlaceOk(c, tr[t].pcs, g, i) && PlaceFair(c, g, i);
    if c.cached { assert CallFair(c, g, c.KeyOf(i)) && CallOk(c, tr[t].pcs, g, c.KeyOf(i)); }
  }

  /** How the engine resolves an error that a work call has just returned, in any reachable state: retried,
      dropped, quarantined or failed, by its class, the mode and the number of attempts, and in no other way. */
  lemma ErrorsAreResolved(c: Config, tr: seq<State>, t: nat, w: nat)
    requires Run(c, tr) && t + 1 < |tr| && WorkerStep(c, w, tr[t], tr[t + 1]) && tr[t].pcs[w].Doing?
    ensures var i, a, p' := tr[t].pcs[w].item, tr[t].pcs[w].attempt, tr[t + 1].pcs[w];
      && i < |tr[t + 1].g.items| && tr[t + 1].g.items[i].does == a <= c.attempts
      && var failure := tr[t + 1].g.items[i].failure;
        if failure.Some? && failure.value.attempt == a then Verdict(c, i, a, failure.value, p') && failure.value.done == tr[t].g.cancelled
        else p'.Saving? || p' == Publishing(i, Failed)
  {
    RunInv(c, tr, t);
    RunFair(c, tr, t);
    var p, g, g' := tr[t].pcs[w], tr[t].g, tr[t + 1].g;
    assert Cell(c, g, w, p) && PcFair(c, g, p);
    CellCounts(c, w, g, p);
    MoveCell(c, w, tr[t], tr[t + 1]);
    OnlyDo(c, w, p, g, tr[t + 1].pcs[w], g');
    hide Do, Cell, Guarantee, Verdict;
    DoFair(c, p.item, p.attempt, g, tr[t + 1].pcs[w], g');
  }

  lemma TodoFresh(c: Config, g: Shared, i: nat)
    requires History(c, g) && i < |g.items|
    ensures g.items[i].place.Todo? ==> g.items[i].failure.None?
  {
    assert g.items[i].place.Todo? ==> At(g, i, Todo);
  }

  /** While no worker has failed, an item whose last call failed as transient before the last attempt is with a
      worker that is about to call again. */
  lemma TransientsAreRetried(c: Config, tr: seq<State>, t: nat, i: nat)
    requires Run(c, tr) && t < |tr| && !tr[t].g.errored && i < |tr[t].g.items| && Retried(c, tr[t].g.items[i])
    ensures var a := tr[t].g.items[i].does;
      exists w :: 0 <= w < |tr[t].pcs| &&
        var p := tr[t].pcs[w];
        p == Retrying(i, a) || p == Waiting(i, a) || (p.Admitting? && p.item == i && p.attempt == a + 1)
  {
    RunInv(c, tr, t);
    RunFair(c, tr, t);
    RunBooks(c, tr, t);
    var g, pcs := tr[t].g, tr[t].pcs;
    assert PlaceOk(c, pcs, g, i) && PlaceFair(c, g, i) && Bounded(c, g, i);
    if c.cached { assert LedBy(c, g, i) && CallFair(c, g, c.KeyOf(i)) && CallOk(c, pcs, g, c.KeyOf(i)); }
    TodoFresh(c, g, i);
    var w := g.items[i].place.worker;
    assert Cell(c, g, w, pcs[w]) && PcFair(c, g, pcs[w]);
    hide Truth;
    var p := pcs[w];
    assert !Faulty(p);
    assert p == Retrying(i, g.items[i].does) || p == Waiting(i, g.items[i].does) || (p.Admitting? && p.item == i && p.attempt == g.items[i].does + 1);
  }
}
