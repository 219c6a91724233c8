/** The batched memoized map: the same grouping and loading, with the unique misses in bounded batches. */
module CachedBatches {
  import opened Common
  import opened CachedMap
  import opened Chunks

  /** The cost of a batch, or the item whose cost is not positive. */
  datatype Costs = BadCost(item: nat) | Costs(costs: seq<nat>)

  function SumCosts(groups: seq<Group>, cost: nat -> int): int
    requires forall g :: g in groups ==> g.indexes != []
  {
    if groups == [] then 0
    else
      assert groups[|groups| - 1] in groups;
      SumCosts(groups[..|groups| - 1], cost) + cost(groups[|groups| - 1].indexes[0])
  }

  /** `order` lists the batches that start; `answers` says whether a batch call came back with one
      value per item, whose fates are then those of its keys. */
  datatype BatchPlan = BatchPlan(loadFails: set<Key>, order: seq<nat>, answers: nat -> bool, fates: Key -> Fate, stopped: bool)

  /** Every one of n batches starts; without misses there is nothing to start. */
  ghost predicate AllStart(order: seq<nat>, stopped: bool, n: nat) { Schedules(order, stopped, n) && (stopped ==> n == 0) }

  /** Sums the item costs of every batch before anything runs. */
  method PriceBatches(batches: seq<seq<Group>>, cost: nat -> int) returns (priced: Costs)
    requires forall b, p :: 0 <= b < |batches| && 0 <= p < |batches[b]| ==> batches[b][p].indexes != []
    ensures priced.Costs? <==> forall b, p :: 0 <= b < |batches| && 0 <= p < |batches[b]| ==> cost(batches[b][p].indexes[0]) >= 1
    ensures priced.Costs? ==> |priced.costs| == |batches| && forall b :: 0 <= b < |batches| ==>
              (forall g :: g in batches[b] ==> g.indexes != []) && priced.costs[b] == SumCosts(batches[b], cost)
    ensures priced.BadCost? ==> cost(priced.item) < 1
  {
    var costs: seq<nat>, b := [], 0;
    while b < |batches|
      invariant 0 <= b <= |batches| && |costs| == b
      invariant forall c, p :: 0 <= c < b && 0 <= p < |batches[c]| ==> cost(batches[c][p].indexes[0]) >= 1
      invariant forall c :: 0 <= c < b ==> (forall g :: g in batches[c] ==> g.indexes != []) && costs[c] == SumCosts(batches[c], cost)
    {
      var total: nat, p := 0, 0;
      var batch := batches[b];
      while p < |batch|
        invariant 0 <= p <= |batch|
        invariant total == SumCosts(batch[..p], cost)
        invariant forall q :: 0 <= q < p ==> cost(batch[q].indexes[0]) >= 1
      {
        var item := cost(batch[p].indexes[0]);
        if item < 1 { return BadCost(batch[p].indexes[0]); }
        assert batch[..p + 1][..p] == batch[..p];
        total, p := total + item, p + 1;
      }
      assert batch[..p] == batch;
      costs, b := costs + [total], b + 1;
    }
    priced := Costs(costs);
  }

  // ----- running batches ------------------------------------------------------------------------------

  /** Where a run stands when the misses of `touched` have been dealt with. */
  ghost predicate BatchesGoing(ks: seq<Key>, found: map<Key, Value>, fates: Key -> Fate, entries: map<Key, Value>, outcomes: seq<Outcome>,
                               touched: set<Key>, complete: set<Key>, failed: bool, writes: nat) {
    && Worked(ks, found, entries, fates, outcomes, complete)
    && Left(found, touched, fates, entries)
    && |entries| >= |found| + writes && writes == |StoredIn(touched, fates)|
    && (!failed ==> complete == touched && |entries| == |found| + writes)
  }

  function StoredIn(touched: set<Key>, fates: Key -> Fate): set<Key> { set k | k in touched && fates(k).Stores? }

  /** The misses of an answered batch are committed one by one, up to the first that does not end well. */
  function Tried(ks: seq<Key>, batch: seq<Group>, hookFails: set<nat>, fates: Key -> Fate): set<Key> {
    if batch == [] then {}
    else {batch[0].key} + if EndsWell(ks, hookFails, fates(batch[0].key), batch[0].key) then Tried(ks, batch[1..], hookFails, fates) else {}
  }

  predicate BatchEndsWell(ks: seq<Key>, batch: seq<Group>, hookFails: set<nat>, fates: Key -> Fate, n: nat)
    requires n <= |batch|
  { forall p :: 0 <= p < n ==> EndsWell(ks, hookFails, fates(batch[p].key), batch[p].key) }

  lemma {:induction false} TriedIs(ks: seq<Key>, batch: seq<Group>, hookFails: set<nat>, fates: Key -> Fate, n: nat)
    requires n <= |batch| && BatchEndsWell(ks, batch, hookFails, fates, n)
    requires n < |batch| ==> !EndsWell(ks, hookFails, fates(batch[n].key), batch[n].key)
    ensures forall k :: k in Tried(ks, batch, hookFails, fates) <==> exists p :: 0 <= p <= n && p < |batch| && batch[p].key == k
  {
    if n > 0 {
      assert EndsWell(ks, hookFails, fates(batch[0].key), batch[0].key);
      forall p | 0 <= p < n - 1 ensures EndsWell(ks, hookFails, fates(batch[1..][p].key), batch[1..][p].key) { assert batch[1..][p] == batch[p + 1]; }
      TriedIs(ks, batch[1..], hookFails, fates, n - 1);
      forall k ensures k in Tried(ks, batch, hookFails, fates) <==> exists p :: 0 <= p <= n && p < |batch| && batch[p].key == k {
        if p :| 0 <= p <= n && p < |batch| && batch[p].key == k { if p > 0 { assert batch[1..][p - 1] == batch[p]; } }
      }
    }
  }

  function KeySet(batch: seq<Group>): set<Key> { set g | g in batch :: g.key }

  /** Miss groups whose keys nobody has touched yet. */
  ghost predicate FreshBatch(ks: seq<Key>, batch: seq<Group>, entries: map<Key, Value>, touched: set<Key>) {
    && (forall a, b :: 0 <= a < b < |batch| ==> batch[a].key != batch[b].key)
    && (forall p :: 0 <= p < |batch| ==> FreshGroup(ks, batch[p], entries, touched))
  }

  ghost predicate FreshGroup(ks: seq<Key>, g: Group, entries: map<Key, Value>, touched: set<Key>) {
    g.key in ks && g.key !in entries && g.key !in touched && g.indexes == IndexesOf(ks, g.key, |ks|)
  }

  lemma StillFresh(ks: seq<Key>, batch: seq<Group>, p: nat, entries: map<Key, Value>, touched: set<Key>, fate: Fate)
    requires p < |batch| && FreshBatch(ks, batch[p..], entries, touched)
    ensures FreshBatch(ks, batch[p + 1..], After(entries, batch[p].key, fate), touched + {batch[p].key})
  {
    var now, next := batch[p..], batch[p + 1..];
    forall q | 0 <= q < |next| ensures FreshGroup(ks, next[q], After(entries, batch[p].key, fate), touched + {batch[p].key}) {
      assert next[q] == now[q + 1] && FreshGroup(ks, now[q + 1], entries, touched);
      assert now[0].key != now[q + 1].key;
    }
  }

  /** Works the misses of a batch one by one, if the batch call answered; the first failing store
      ends the batch. */
  method RunBatch(cache: Cache, batch: seq<Group>, answered: bool, hookFails: set<nat>, fates: Key -> Fate, outcomes0: seq<Outcome>, writes0: nat,
                  ghost ks: seq<Key>, ghost found: map<Key, Value>, ghost touched0: set<Key>, ghost complete0: set<Key>, ghost failed0: bool)
    returns (bad: bool, writes: nat, outcomes: seq<Outcome>, ghost touched: set<Key>, ghost complete: set<Key>)
    requires FreshBatch(ks, batch, cache.entries, touched0) == true
    requires BatchesGoing(ks, found, fates, cache.entries, outcomes0, touched0, complete0, failed0, writes0) == true
    modifies cache
    ensures BatchesGoing(ks, found, fates, cache.entries, outcomes, touched, complete, failed0 || bad, writes) == true
    ensures touched0 <= touched <= touched0 + KeySet(batch) && (!bad ==> touched == touched0 + KeySet(batch))
    ensures touched == touched0 + if answered then Tried(ks, batch, hookFails, fates) else {}
    ensures bad == (!answered || !BatchEndsWell(ks, batch, hookFails, fates, |batch|))
  {
    bad, writes, outcomes, touched, complete := !answered, writes0, outcomes0, touched0, complete0;
    if bad { return; }
    var p := 0;
    assert batch[0..] == batch;
    while p < |batch|
      invariant 0 <= p <= |batch|
      invariant BatchesGoing(ks, found, fates, cache.entries, outcomes, touched, complete, failed0, writes) == true
      invariant Spans(batch, p, touched0, touched) == true
      invariant FreshBatch(ks, batch[p..], cache.entries, touched) == true
      invariant BatchEndsWell(ks, batch, hookFails, fates, p) == true
    {
      bad, writes, outcomes, touched, complete := RunOne(cache, batch, p, hookFails, fates, outcomes, writes, ks, found, touched0, touched, complete, failed0);
      if bad {
        TriedSpans(ks, batch, hookFails, fates, p, touched0, touched);
        return;
      }
      p := p + 1;
    }
    TriedSpans(ks, batch, hookFails, fates, p, touched0, touched);
  }

  /** `touched` is `before` and the keys of the first p misses of the batch. */
  ghost predicate Spans(batch: seq<Group>, p: nat, before: set<Key>, touched: set<Key>)
    requires p <= |batch|
  {
    forall k :: k in touched <==> k in before || exists q :: 0 <= q < p && batch[q].key == k
  }

  /** Where a batch ends: after its last miss, or after the first that did not end well. */
  lemma TriedSpans(ks: seq<Key>, batch: seq<Group>, hookFails: set<nat>, fates: Key -> Fate, n: nat, before: set<Key>, touched: set<Key>)
    requires n <= |batch| && BatchEndsWell(ks, batch, hookFails, fates, n)
    requires if n < |batch| then !EndsWell(ks, hookFails, fates(batch[n].key), batch[n].key) && Spans(batch, n + 1, before, touched)
             else Spans(batch, n, before, touched)
    ensures touched == before + Tried(ks, batch, hookFails, fates)
    ensures BatchEndsWell(ks, batch, hookFails, fates, |batch|) <==> n == |batch|
    ensures before <= touched <= before + KeySet(batch) && (n == |batch| ==> touched == before + KeySet(batch))
  {
    TriedIs(ks, batch, hookFails, fates, n);
    hide Tried, BatchEndsWell, EndsWell;
    forall k | k in touched ensures k in before + KeySet(batch) {
      if k !in before { var q :| 0 <= q <= n && q < |batch| && batch[q].key == k; assert batch[q] in batch; }
    }
    if n == |batch| { SpansAll(batch, before, touched); }
  }

  lemma KeySetMore(batch: seq<Group>, p: nat, before: set<Key>, touched: set<Key>)
    requires p < |batch| && Spans(batch, p, before, touched)
    ensures Spans(batch, p + 1, before, touched + {batch[p].key})
    ensures before <= touched + {batch[p].key} <= before + KeySet(batch)
  {
    forall k | k in touched + {batch[p].key} ensures k in before + KeySet(batch) {
      if k !in before { var q :| 0 <= q <= p && batch[q].key == k; assert batch[q] in batch; }
    }
  }

  lemma SpansAll(batch: seq<Group>, before: set<Key>, touched: set<Key>)
    requires Spans(batch, |batch|, before, touched)
    ensures touched == before + KeySet(batch)
  {
    forall k ensures k in touched <==> k in before + KeySet(batch) {
      if q :| 0 <= q < |batch| && batch[q].key == k { assert batch[q] in batch; }
      if k in KeySet(batch) { var g :| g in batch && g.key == k; var q :| 0 <= q < |batch| && batch[q] == g; }
    }
  }

  lemma OneTouched(found: map<Key, Value>, fates: Key -> Fate, entries: map<Key, Value>, touched: set<Key>, k: Key, complete: set<Key>)
    requires Left(found, touched, fates, entries) && k !in entries && k !in touched
    ensures Left(found, touched + {k}, fates, After(entries, k, fates(k)))
    ensures |After(entries, k, fates(k))| == |entries| + if Leaves(fates(k)).Some? then 1 else 0
    ensures fates(k).Stores? ==> Leaves(fates(k)).Some?
    ensures |StoredIn(touched + {k}, fates)| == |StoredIn(touched, fates)| + if fates(k).Stores? then 1 else 0
  {
    LeftGrows(found, touched, fates, entries, k) by { assert LeftAt(found, touched, fates, entries, k); }
    StoredMore(fates, touched, k);
    hide *;
  }

  lemma StoredMore(fates: Key -> Fate, touched: set<Key>, k: Key)
    requires k !in touched
    ensures |StoredIn(touched + {k}, fates)| == |StoredIn(touched, fates)| + if fates(k).Stores? then 1 else 0
  {
    if fates(k).Stores? { assert StoredIn(touched + {k}, fates) == StoredIn(touched, fates) + {k}; }
    else { assert StoredIn(touched + {k}, fates) == StoredIn(touched, fates); }
  }

  method RunOne(cache: Cache, batch: seq<Group>, p: nat, hookFails: set<nat>, fates: Key -> Fate, outcomes0: seq<Outcome>, writes0: nat,
                ghost ks: seq<Key>, ghost found: map<Key, Value>, ghost before: set<Key>, ghost touched0: set<Key>, ghost complete0: set<Key>, ghost failed0: bool)
    returns (bad: bool, writes: nat, outcomes: seq<Outcome>, ghost touched: set<Key>, ghost complete: set<Key>)
    requires p < |batch| && FreshBatch(ks, batch[p..], cache.entries, touched0) == true && BatchEndsWell(ks, batch, hookFails, fates, p) == true
    requires BatchesGoing(ks, found, fates, cache.entries, outcomes0, touched0, complete0, failed0, writes0) == true && Spans(batch, p, before, touched0) == true
    modifies cache
    ensures BatchesGoing(ks, found, fates, cache.entries, outcomes, touched, complete, failed0 || bad, writes) == true
    ensures FreshBatch(ks, batch[p + 1..], cache.entries, touched) == true && Spans(batch, p + 1, before, touched) == true
    ensures bad == !EndsWell(ks, hookFails, fates(batch[p].key), batch[p].key)
    ensures !bad ==> BatchEndsWell(ks, batch, hookFails, fates, p + 1) == true
  {
    touched := touched0 + {batch[p].key};
    KeySetMore(batch, p, before, touched0);
    assert batch[p..][0] == batch[p] && FreshGroup(ks, batch[p], cache.entries, touched0);
    ghost var was := cache.entries;
    var wrote;
    bad, wrote, outcomes := RunMiss(cache, batch[p], hookFails, fates(batch[p].key), outcomes0, ks, found, fates, complete0);
    StillFresh(ks, batch, p, was, touched0, fates(batch[p].key));
    OneTouched(found, fates, was, touched0, batch[p].key, complete0);
    complete := if bad then complete0 else complete0 + {batch[p].key};
    writes := writes0 + if wrote then 1 else 0;
  }

  /** The keys of the first t batches of the schedule. */
  function Started(batches: seq<seq<Group>>, order: seq<nat>, t: nat): set<Key>
    requires t <= |order| && forall u :: 0 <= u < |order| ==> order[u] < |batches|
  { if t == 0 then {} else Started(batches, order, t - 1) + KeySet(batches[order[t - 1]]) }

  lemma {:induction false} InStarted(batches: seq<seq<Group>>, order: seq<nat>, t: nat, k: Key)
    requires t <= |order| && forall u :: 0 <= u < |order| ==> order[u] < |batches|
    ensures k in Started(batches, order, t) <==> exists u :: 0 <= u < t && k in KeySet(batches[order[u]])
  {
    if t > 0 { InStarted(batches, order, t - 1, k); }
  }

  /** A batch that starts holds no key of the batches before it, and none that was stored. */
  lemma BatchIsFresh(ks: seq<Key>, found: map<Key, Value>, entries: map<Key, Value>, fates: Key -> Fate, touched: set<Key>,
                     batches: seq<seq<Group>>, order: seq<nat>, t: nat)
    requires Joined(batches) == GroupsFor(ks, MissKeys(ks, found))
    requires t < |order| && Distinct(order) && forall u :: 0 <= u < |order| ==> order[u] < |batches|
    requires Left(found, touched, fates, entries) && touched <= Started(batches, order, t)
    ensures FreshBatch(ks, batches[order[t]], entries, touched)
  {
    var b, missKeys, all := order[t], MissKeys(ks, found), Joined(batches);
    var batch := batches[b];
    MissKeysDistinct(ks, found);
    forall p | 0 <= p < |batch| ensures FreshGroup(ks, batch[p], entries, touched) {
      JoinedAt(batches, b, p);
      var k := missKeys[At(batches, b, p)];
      assert batch[p].key == k && k in missKeys;
      InMissKeys(ks, found, k);
      forall u | 0 <= u < t ensures k !in KeySet(batches[order[u]]) { KeyElsewhere(ks, missKeys, batches, b, p, order[u]); }
      InStarted(batches, order, t, k);
      assert LeftAt(found, touched, fates, entries, k);
    }
    forall p, q | 0 <= p < q < |batch| ensures batch[p].key != batch[q].key {
      JoinedAt(batches, b, p);
      JoinedAt(batches, b, q);
      AtOrder(batches, b, p, q);
      assert missKeys[At(batches, b, p)] != missKeys[At(batches, b, q)];
    }
  }

  lemma {:induction false} AtOrder<T>(parts: seq<seq<T>>, b: nat, p: nat, q: nat)
    requires b < |parts| && p < q
    ensures At(parts, b, p) < At(parts, b, q)
  {
    if b > 0 { AtOrder(parts[1..], b - 1, p, q); }
  }

  lemma KeyElsewhere(ks: seq<Key>, missKeys: seq<Key>, batches: seq<seq<Group>>, b: nat, p: nat, c: nat)
    requires Joined(batches) == GroupsFor(ks, missKeys) && Distinct(missKeys)
    requires b < |batches| && p < |batches[b]| && c < |batches| && c != b
    ensures batches[b][p].key !in KeySet(batches[c])
  {
    forall q | 0 <= q < |batches[c]| ensures batches[c][q].key != batches[b][p].key {
      JoinedAt(batches, b, p);
      JoinedAt(batches, c, q);
      if b < c { PartsApart(batches, b, p, c, q); } else { PartsApart(batches, c, q, b, p); }
    }
  }

  /** The keys dealt with by the first t batches of the schedule. */
  function Touched(ks: seq<Key>, batches: seq<seq<Group>>, plan: BatchPlan, t: nat): set<Key>
    requires t <= |plan.order| && Schedules(plan.order, plan.stopped, |batches|)
  {
    if t == 0 then {}
    else
      var b := plan.order[t - 1];
      Touched(ks, batches, plan, t - 1) + if plan.answers(b) then Tried(ks, batches[b], {}, plan.fates) else {}
  }

  /** A batch whose call answers, and whose values are all stored. */
  predicate BatchOk(ks: seq<Key>, batch: seq<Group>, plan: BatchPlan, b: nat) {
    plan.answers(b) && BatchEndsWell(ks, batch, {}, plan.fates, |batch|)
  }

  ghost predicate BatchesOk(ks: seq<Key>, batches: seq<seq<Group>>, plan: BatchPlan, t: nat)
    requires t <= |plan.order| && Schedules(plan.order, plan.stopped, |batches|)
  { forall u :: 0 <= u < t ==> BatchOk(ks, batches[plan.order[u]], plan, plan.order[u]) }

  /** Everything that the first t batches of the schedule have done. */
  ghost predicate DoneTo(ks: seq<Key>, found: map<Key, Value>, batches: seq<seq<Group>>, plan: BatchPlan, t: nat, entries: map<Key, Value>,
                         outcomes: seq<Outcome>, complete: set<Key>, failed: bool, writes: nat)
    requires Schedules(plan.order, plan.stopped, |batches|)
  {
    && t <= |plan.order|
    && BatchesGoing(ks, found, plan.fates, entries, outcomes, Touched(ks, batches, plan, t), complete, failed, writes)
    && OnSchedule(batches, plan.order, t, Touched(ks, batches, plan, t), failed)
    && (failed <==> !BatchesOk(ks, batches, plan, t))
  }

  /** The same, in a form that is only taken apart where `Opened` asks for it. */
  ghost predicate DoneUpTo(ks: seq<Key>, found: map<Key, Value>, batches: seq<seq<Group>>, plan: BatchPlan, t: nat, entries: map<Key, Value>,
                           outcomes: seq<Outcome>, complete: set<Key>, failed: bool, writes: nat)
    requires Schedules(plan.order, plan.stopped, |batches|)
  { forall u: nat :: u == t ==> DoneTo(ks, found, batches, plan, u, entries, outcomes, complete, failed, writes) }

  lemma Opened(ks: seq<Key>, found: map<Key, Value>, batches: seq<seq<Group>>, plan: BatchPlan, t: nat, entries: map<Key, Value>,
               outcomes: seq<Outcome>, complete: set<Key>, failed: bool, writes: nat)
    requires Schedules(plan.order, plan.stopped, |batches|)
    ensures DoneUpTo(ks, found, batches, plan, t, entries, outcomes, complete, failed, writes)
            == DoneTo(ks, found, batches, plan, t, entries, outcomes, complete, failed, writes)
  {}

  /** Runs the started batches, each to its end.  (Comparing predicates with true keeps the verifier from
      taking them apart.) */
  method RunBatches(cache: Cache, batches: seq<seq<Group>>, plan: BatchPlan, outcomes0: seq<Outcome>, ghost ks: seq<Key>)
    returns (failed: bool, writes: nat, outcomes: seq<Outcome>, ghost complete: set<Key>)
    requires Joined(batches) == GroupsFor(ks, MissKeys(ks, cache.entries)) && Schedules(plan.order, plan.stopped, |batches|) == true
    requires DoneUpTo(ks, cache.entries, batches, plan, 0, cache.entries, outcomes0, {}, false, 0) == true
    modifies cache
    ensures DoneUpTo(ks, old(cache.entries), batches, plan, |plan.order|, cache.entries, outcomes, complete, failed, writes) == true
  {
    ghost var found := cache.entries;
    failed, writes, outcomes, complete := false, 0, outcomes0, {};
    var t := 0;
    while t != |plan.order|
      invariant 0 <= t <= |plan.order|
      invariant DoneUpTo(ks, found, batches, plan, t, cache.entries, outcomes, complete, failed, writes) == true
    {
      failed, writes, outcomes, complete := BatchTurn(cache, batches, plan, t, failed, writes, outcomes, ks, found, complete);
      t := t + 1;
    }
  }

  lemma NothingDone(ks: seq<Key>, found: map<Key, Value>, batches: seq<seq<Group>>, plan: BatchPlan, outcomes: seq<Outcome>)
    requires Worked(ks, found, found, plan.fates, outcomes, {}) && Schedules(plan.order, plan.stopped, |batches|)
    ensures DoneUpTo(ks, found, batches, plan, 0, found, outcomes, {}, false, 0) == true
  {
    NothingTouched(ks, found, plan.fates, outcomes);
    hide BatchesGoing;
  }

  lemma AllTouched(ks: seq<Key>, found: map<Key, Value>, batches: seq<seq<Group>>, plan: BatchPlan, entries: map<Key, Value>, outcomes: seq<Outcome>,
                   complete: set<Key>, failed: bool, writes: nat)
    requires Schedules(plan.order, plan.stopped, |batches|) && DoneUpTo(ks, found, batches, plan, |plan.order|, entries, outcomes, complete, failed, writes)
    ensures BatchesGoing(ks, found, plan.fates, entries, outcomes, Touched(ks, batches, plan, |plan.order|), complete, failed, writes) == true
    ensures failed == !BatchesOk(ks, batches, plan, |plan.order|)
    ensures !failed ==> complete == Started(batches, plan.order, |plan.order|)
    ensures Worked(ks, found, entries, plan.fates, outcomes, complete) == true && |entries| >= |found| + writes && (!failed ==> |entries| == |found| + writes)
  {
    Opened(ks, found, batches, plan, |plan.order|, entries, outcomes, complete, failed, writes);
    hide Worked, Left, Touched, Started, Schedules, BatchesOk;
  }

  lemma NothingTouched(ks: seq<Key>, found: map<Key, Value>, fates: Key -> Fate, outcomes: seq<Outcome>)
    requires Worked(ks, found, found, fates, outcomes, {})
    ensures BatchesGoing(ks, found, fates, found, outcomes, {}, {}, false, 0) == true
  {
    forall k ensures LeftAt(found, {}, fates, found, k) {}
    assert StoredIn({}, fates) == {};
  }

  method BatchTurn(cache: Cache, batches: seq<seq<Group>>, plan: BatchPlan, t: nat, failed0: bool, writes0: nat, outcomes0: seq<Outcome>,
                   ghost ks: seq<Key>, ghost found: map<Key, Value>, ghost complete0: set<Key>)
    returns (failed: bool, writes: nat, outcomes: seq<Outcome>, ghost complete: set<Key>)
    requires Joined(batches) == GroupsFor(ks, MissKeys(ks, found)) && Schedules(plan.order, plan.stopped, |batches|) && t < |plan.order|
    requires DoneUpTo(ks, found, batches, plan, t, cache.entries, outcomes0, complete0, failed0, writes0) == true
    modifies cache
    ensures DoneUpTo(ks, found, batches, plan, t + 1, cache.entries, outcomes, complete, failed, writes) == true
  {
    Opened(ks, found, batches, plan, t, cache.entries, outcomes0, complete0, failed0, writes0);
    var b := plan.order[t];
    ghost var was, touched := Touched(ks, batches, plan, t), {};
    BatchIsFresh(ks, found, cache.entries, plan.fates, was, batches, plan.order, t);
    var bad;
    bad, writes, outcomes, touched, complete :=
      RunBatch(cache, batches[b], plan.answers(b), {}, plan.fates, outcomes0, writes0, ks, found, was, complete0, failed0);
    failed := failed0 || bad;
    NextOnSchedule(batches, plan.order, t, was, failed0, touched, bad);
    DoneNext(ks, found, batches, plan, t, failed0, bad, cache.entries, outcomes, touched, complete, writes);
  }

  lemma DoneNext(ks: seq<Key>, found: map<Key, Value>, batches: seq<seq<Group>>, plan: BatchPlan, t: nat, failed0: bool, bad: bool,
                 entries: map<Key, Value>, outcomes: seq<Outcome>, touched: set<Key>, complete: set<Key>, writes: nat)
    requires Schedules(plan.order, plan.stopped, |batches|) && t < |plan.order|
    requires OnSchedule(batches, plan.order, t + 1, touched, failed0 || bad) && (failed0 <==> !BatchesOk(ks, batches, plan, t))
    requires BatchesGoing(ks, found, plan.fates, entries, outcomes, touched, complete, failed0 || bad, writes)
    requires var b, was := plan.order[t], Touched(ks, batches, plan, t);
      && touched == was + (if plan.answers(b) then Tried(ks, batches[b], {}, plan.fates) else {})
      && (bad <==> !BatchOk(ks, batches[b], plan, b))
    ensures DoneUpTo(ks, found, batches, plan, t + 1, entries, outcomes, complete, failed0 || bad, writes) == true
  {
    hide BatchesGoing, OnSchedule;
    NextOk(ks, batches, plan, t);
    hide KeySet, Tried, BatchOk, BatchesOk, Touched;
  }

  lemma NextOk(ks: seq<Key>, batches: seq<seq<Group>>, plan: BatchPlan, t: nat)
    requires Schedules(plan.order, plan.stopped, |batches|) && t < |plan.order|
    ensures var b := plan.order[t];
      && (BatchesOk(ks, batches, plan, t + 1) <==> BatchesOk(ks, batches, plan, t) && BatchOk(ks, batches[b], plan, b))
      && Touched(ks, batches, plan, t + 1) == Touched(ks, batches, plan, t) + if plan.answers(b) then Tried(ks, batches[b], {}, plan.fates) else {}
  {
    hide BatchOk;
  }

  ghost predicate OnSchedule(batches: seq<seq<Group>>, order: seq<nat>, t: nat, touched: set<Key>, failed: bool)
    requires t <= |order| && forall u :: 0 <= u < |order| ==> order[u] < |batches|
  {
    touched <= Started(batches, order, t) && (!failed ==> touched == Started(batches, order, t))
  }

  lemma NextOnSchedule(batches: seq<seq<Group>>, order: seq<nat>, t: nat, touched: set<Key>, failed: bool, touched': set<Key>, bad: bool)
    requires t < |order| && (forall u :: 0 <= u < |order| ==> order[u] < |batches|) && OnSchedule(batches, order, t, touched, failed)
    requires touched' <= touched + KeySet(batches[order[t]]) && (!bad ==> touched' == touched + KeySet(batches[order[t]]))
    ensures OnSchedule(batches, order, t + 1, touched', failed || bad)
  {
    hide KeySet;
  }

  // ----- the batched map ------------------------------------------------------------------------------

  datatype BatchOutcome = Failed | NotPositive(item: nat) | Fine(results: seq<Value>)

  /** Every missing key's first input has a positive cost. */
  predicate Affordable(ks: seq<Key>, found: map<Key, Value>, cost: nat -> int) {
    forall i: nat :: i < |ks| && ks[i] !in found && ks[i] !in ks[..i] ==> cost(i) >= 1
  }

  /** What a run needs in order to succeed. */
  ghost predicate BatchesClear(keys: seq<KeyResult>, found: map<Key, Value>, size: nat, cost: nat -> int, plan: BatchPlan)
    requires size >= 1
  {
    && Reaches(keys, found, plan.loadFails, {})
    && var ks := KeysOf(keys, |keys|);
       var missKeys := MissKeys(ks, found);
       && Affordable(ks, found, cost)
       && (plan.stopped ==> missKeys == [])
       && (forall b: nat :: b < Ceil(|missKeys|, size) ==> plan.answers(b))
       && (forall k :: k in missKeys ==> plan.fates(k).Stores?)
  }

  /** Exactly what a run has done to the store, and has called, when it ends, whether it fails or not. */
  ghost predicate BatchesAccounted(keys: seq<KeyResult>, found: map<Key, Value>, size: nat, cost: nat -> int, plan: BatchPlan,
                                   entries: map<Key, Value>, r: Report)
    requires size >= 1
    requires AllBuilt(keys, |keys|) ==>
               Schedules(plan.order, plan.stopped, |Cut(GroupsFor(KeysOf(keys, |keys|), MissKeys(KeysOf(keys, |keys|), found)), size)|)
  {
    if Reaches(keys, found, plan.loadFails, {}) && Affordable(KeysOf(keys, |keys|), found, cost) then
      var ks := KeysOf(keys, |keys|);
      var touched := Touched(ks, Cut(GroupsFor(ks, MissKeys(ks, found)), size), plan, |plan.order|);
      r.workCalls == |plan.order| && r.writes == |StoredIn(touched, plan.fates)| && Left(found, touched, plan.fates, entries)
    else r.workCalls == 0 == r.writes && entries == found
  }

  method MapCachedBatches(cache: Cache, keys: seq<KeyResult>, size: nat, cost: nat -> int, plan: BatchPlan)
    returns (out: BatchOutcome, r: Report)
    requires size >= 1
    requires AllBuilt(keys, |keys|) ==>
               Schedules(plan.order, plan.stopped, |Cut(GroupsFor(KeysOf(keys, |keys|), MissKeys(KeysOf(keys, |keys|), cache.entries)), size)|)
    modifies cache
    ensures Ran(keys, old(cache.entries), cache.entries, if out.Fine? then Some(out.results) else None, r)
    ensures BatchesAccounted(keys, old(cache.entries), size, cost, plan, cache.entries, r)
    ensures Reaches(keys, old(cache.entries), plan.loadFails, {}) ==> Loaded(keys, old(cache.entries), r.hits, r.misses)
    ensures out.Fine? <==> BatchesClear(keys, old(cache.entries), size, cost, plan)
    ensures out.Fine? ==> var missKeys := MissKeys(KeysOf(keys, |keys|), old(cache.entries));
              r.writes == |missKeys| && r.workCalls == Ceil(|missKeys|, size) && FromFates(old(cache.entries), cache.entries, plan.fates)
    ensures out.NotPositive? <==> Reaches(keys, old(cache.entries), plan.loadFails, {}) && !Affordable(KeysOf(keys, |keys|), old(cache.entries), cost)
    ensures out.NotPositive? ==> cost(out.item) < 1
  {
    var bad, groups, outcomes := GroupKeys(keys);
    if bad.Some? { return Failed, Report(0, 0, 0, 0, outcomes); }
    var ks := KeysOf(keys, |keys|);
    var failed, results, hits, misses, missGroups;
    failed, outcomes, results, hits, misses, missGroups := LoadGroups(cache.entries, ks, groups, plan.loadFails, {}, outcomes);
    if failed { return Failed, Report(hits, misses, 0, 0, outcomes); }
    var batches := CutInto(missGroups, size);
    CutPartitions(missGroups, size);
    out, r := RunAndFanBatches(cache, keys, ks, missGroups, size, batches, cost, plan, outcomes, results, hits, misses);
  }

  method RunAndFanBatches(cache: Cache, keys: seq<KeyResult>, ks: seq<Key>, missGroups: seq<Group>, ghost size: nat, batches: seq<seq<Group>>,
                          cost: nat -> int, plan: BatchPlan, loaded: seq<Outcome>, hitResults: map<nat, Value>, hits: nat, misses: nat)
    returns (out: BatchOutcome, r: Report)
    requires Reaches(keys, cache.entries, plan.loadFails, {}) && ks == KeysOf(keys, |keys|)
    requires missGroups == GroupsFor(ks, MissKeys(ks, cache.entries)) == Joined(batches) && Schedules(plan.order, plan.stopped, |batches|)
    requires size >= 1 && batches == Cut(missGroups, size) && |batches| == Ceil(|missGroups|, size)
    requires Looked(ks, cache.entries, set k | k in ks, [], loaded, hitResults) == true
    requires hits == Counted(ks, |ks|, cache.entries.Keys) && hits + misses == |ks|
    modifies cache
    ensures Ran(keys, old(cache.entries), cache.entries, if out.Fine? then Some(out.results) else None, r) == true
    ensures BatchesAccounted(keys, old(cache.entries), size, cost, plan, cache.entries, r) == true && r.hits == hits && r.misses == misses
    ensures out.Fine? == BatchesClear(keys, old(cache.entries), size, cost, plan)
    ensures out.Fine? ==> r.workCalls == |batches| && r.writes == |missGroups| && FromFates(old(cache.entries), cache.entries, plan.fates)
    ensures out.NotPositive? <==> !Affordable(ks, old(cache.entries), cost)
    ensures out.NotPositive? ==> cost(out.item) < 1
  {
    ghost var found, missKeys := cache.entries, MissKeys(ks, cache.entries);
    LookedWorks(ks, found, plan.fates, loaded, hitResults);
    GroupsNotEmpty(ks, found, batches);
    PricedIs(ks, found, batches, cost);
    var priced := PriceBatches(batches, cost);
    if priced.BadCost? {
      r := Report(hits, misses, 0, 0, loaded);
      RanSoFar(keys, found, found, plan.fates, loaded, {}, r);
      return NotPositive(priced.item), r;
    }
    out, r := RunPriced(cache, keys, ks, missGroups, size, batches, cost, plan, loaded, hitResults, hits, misses);
  }

  /** The part of a run after its batches have been priced. */
  method RunPriced(cache: Cache, keys: seq<KeyResult>, ks: seq<Key>, missGroups: seq<Group>, ghost size: nat, batches: seq<seq<Group>>,
                   ghost cost: nat -> int, plan: BatchPlan, loaded: seq<Outcome>, hitResults: map<nat, Value>, hits: nat, misses: nat)
    returns (out: BatchOutcome, r: Report)
    requires Reaches(keys, cache.entries, plan.loadFails, {}) && ks == KeysOf(keys, |keys|) && Affordable(ks, cache.entries, cost)
    requires missGroups == GroupsFor(ks, MissKeys(ks, cache.entries)) == Joined(batches) && Schedules(plan.order, plan.stopped, |batches|)
    requires size >= 1 && batches == Cut(missGroups, size) && |batches| == Ceil(|missGroups|, size)
    requires Looked(ks, cache.entries, set k | k in ks, [], loaded, hitResults) && Worked(ks, cache.entries, cache.entries, plan.fates, loaded, {})
    requires hits == Counted(ks, |ks|, cache.entries.Keys) && hits + misses == |ks|
    modifies cache
    ensures Ran(keys, old(cache.entries), cache.entries, if out.Fine? then Some(out.results) else None, r) == true
    ensures BatchesAccounted(keys, old(cache.entries), size, cost, plan, cache.entries, r) == true && r.hits == hits && r.misses == misses
    ensures !out.NotPositive? && (out.Fine? == BatchesClear(keys, old(cache.entries), size, cost, plan))
    ensures out.Fine? ==> r.workCalls == |batches| && r.writes == |missGroups| && FromFates(old(cache.entries), cache.entries, plan.fates)
  {
    ghost var found, missKeys := cache.entries, MissKeys(ks, cache.entries);
    ghost var complete;
    var writes;
    var outcomes;
    var failed;
    NothingDone(ks, found, batches, plan, loaded);
    failed, writes, outcomes, complete := RunBatches(cache, batches, plan, loaded, ks);
    r := Report(hits, misses, writes, |plan.order|, outcomes);
    Verdict(keys, found, size, cost, plan, cache.entries, outcomes, complete, failed, r);
    if failed || (plan.stopped && missGroups != []) { return Failed, r; }
    BatchesDone(ks, found, batches, plan, cache.entries, outcomes, complete, writes);
    var all := Fan(missGroups, plan.fates, hitResults, ks, missKeys);
    FanSucceeds(keys, found, plan.fates, cache.entries, complete, loaded, hitResults, all, r);
    var list := Listed(all, |keys|);
    RanDone(keys, found, cache.entries, list, r);
    out := Fine(list);
  }

  lemma OkAt(ks: seq<Key>, batches: seq<seq<Group>>, plan: BatchPlan, b: nat)
    requires AllStart(plan.order, plan.stopped, |batches|) && BatchesOk(ks, batches, plan, |plan.order|) && b < |batches|
    ensures BatchOk(ks, batches[b], plan, b)
  {
    assert b in plan.order;
    var u :| 0 <= u < |plan.order| && plan.order[u] == b;
    hide BatchOk;
  }

  lemma MissIsStored(ks: seq<Key>, missKeys: seq<Key>, batches: seq<seq<Group>>, plan: BatchPlan, k: Key)
    requires Joined(batches) == GroupsFor(ks, missKeys) && AllStart(plan.order, plan.stopped, |batches|) && BatchesOk(ks, batches, plan, |plan.order|)
    requires k in missKeys
    ensures plan.fates(k).Stores?
  {
    var i: nat :| i < |missKeys| && missKeys[i] == k;
    var b, p := PartOf(batches, i);
    OkAt(ks, batches, plan, b);
    assert batches[b][p].key == k;
    hide BatchesOk;
  }

  lemma BatchIsOk(ks: seq<Key>, missKeys: seq<Key>, batches: seq<seq<Group>>, plan: BatchPlan, b: nat)
    requires Joined(batches) == GroupsFor(ks, missKeys) && b < |batches| && plan.answers(b)
    requires forall k :: k in missKeys ==> plan.fates(k).Stores?
    ensures BatchOk(ks, batches[b], plan, b)
  {
    forall p | 0 <= p < |batches[b]| ensures EndsWell(ks, {}, plan.fates(batches[b][p].key), batches[b][p].key) {
      JoinedAt(batches, b, p);
      assert missKeys[At(batches, b, p)] in missKeys;
    }
  }

  /** A run that reached its batches succeeds exactly when all of them start, answer and are stored. */
  lemma ClearBatches(ks: seq<Key>, missKeys: seq<Key>, batches: seq<seq<Group>>, plan: BatchPlan)
    requires Joined(batches) == GroupsFor(ks, missKeys) && AllStart(plan.order, plan.stopped, |batches|)
    ensures BatchesOk(ks, batches, plan, |plan.order|)
            <==> (forall b: nat :: b < |batches| ==> plan.answers(b)) && (forall k :: k in missKeys ==> plan.fates(k).Stores?)
  {
    hide BatchEndsWell;
    if BatchesOk(ks, batches, plan, |plan.order|) {
      forall b: nat | b < |batches| ensures plan.answers(b) { OkAt(ks, batches, plan, b); }
      forall k | k in missKeys ensures plan.fates(k).Stores? { MissIsStored(ks, missKeys, batches, plan, k); }
    }
    if (forall b: nat :: b < |batches| ==> plan.answers(b)) && (forall k :: k in missKeys ==> plan.fates(k).Stores?) {
      forall u | 0 <= u < |plan.order| ensures BatchOk(ks, batches[plan.order[u]], plan, plan.order[u]) {
        BatchIsOk(ks, missKeys, batches, plan, plan.order[u]);
      }
    }
  }

  /** What has been done, and whether the run succeeds, once its batches have ended. */
  lemma Verdict(keys: seq<KeyResult>, found: map<Key, Value>, size: nat, cost: nat -> int, plan: BatchPlan, entries: map<Key, Value>,
                outcomes: seq<Outcome>, complete: set<Key>, failed: bool, r: Report)
    requires Reaches(keys, found, plan.loadFails, {}) && size >= 1 && Affordable(KeysOf(keys, |keys|), found, cost)
    requires var ks := KeysOf(keys, |keys|);
      var batches := Cut(GroupsFor(ks, MissKeys(ks, found)), size);
      && Schedules(plan.order, plan.stopped, |batches|) && DoneUpTo(ks, found, batches, plan, |plan.order|, entries, outcomes, complete, failed, r.writes)
    requires r.workCalls == |plan.order| && r.outcomes == outcomes && r.hits + r.misses <= |keys|
    ensures Ran(keys, found, entries, None, r) == true && BatchesAccounted(keys, found, size, cost, plan, entries, r) == true
    ensures BatchesClear(keys, found, size, cost, plan) <==> !failed && (plan.stopped ==> MissKeys(KeysOf(keys, |keys|), found) == [])
  {
    var ks := KeysOf(keys, |keys|);
    var missKeys := MissKeys(ks, found);
    var groups := GroupsFor(ks, missKeys);
    CutPartitions(groups, size);
    AllTouched(ks, found, Cut(groups, size), plan, entries, outcomes, complete, failed, r.writes);
    RanSoFar(keys, found, entries, plan.fates, outcomes, complete, r);
    hide Ran;
    hide KeysOf, MissKeys, GroupsFor, Cut, Schedules, Affordable, Reaches, Left, Worked, Touched, BatchesOk;
    if plan.stopped ==> missKeys == [] { ClearBatches(ks, missKeys, Cut(groups, size), plan); }
  }

  /** The items that are priced are the first inputs of the missing keys. */
  lemma PricedIs(ks: seq<Key>, found: map<Key, Value>, batches: seq<seq<Group>>, cost: nat -> int)
    requires Joined(batches) == GroupsFor(ks, MissKeys(ks, found))
    requires forall b, p :: 0 <= b < |batches| && 0 <= p < |batches[b]| ==> batches[b][p].indexes != []
    ensures Affordable(ks, found, cost) <==> forall b, p :: 0 <= b < |batches| && 0 <= p < |batches[b]| ==> cost(batches[b][p].indexes[0]) >= 1
  {
    var missKeys := MissKeys(ks, found);
    if Affordable(ks, found, cost) {
      forall b, p | 0 <= b < |batches| && 0 <= p < |batches[b]| ensures cost(batches[b][p].indexes[0]) >= 1 {
        JoinedAt(batches, b, p);
        var k := missKeys[At(batches, b, p)];
        assert k in missKeys;
        InMissKeys(ks, found, k);
        FirstIndex(ks, k, |ks|);
      }
    }
    if forall b, p :: 0 <= b < |batches| && 0 <= p < |batches[b]| ==> cost(batches[b][p].indexes[0]) >= 1 {
      forall i: nat | i < |ks| && ks[i] !in found && ks[i] !in ks[..i] ensures cost(i) >= 1 {
        var k := ks[i];
        InMissKeys(ks, found, k);
        var m: nat :| m < |missKeys| && missKeys[m] == k;
        var b, p := PartOf(batches, m);
        FirstIndex(ks, k, |ks|);
        var j := batches[b][p].indexes[0];
        assert ks[j] == k;
        assert i == j;
      }
    }
  }

  lemma {:induction false} FirstIndex(ks: seq<Key>, k: Key, n: nat)
    requires n <= |ks|
    ensures IndexesOf(ks, k, n) != [] ==> IndexesOf(ks, k, n)[0] < n && ks[IndexesOf(ks, k, n)[0]] == k && k !in ks[..IndexesOf(ks, k, n)[0]]
    ensures IndexesOf(ks, k, n) == [] ==> k !in ks[..n]
  {
    if n > 0 { FirstIndex(ks, k, n - 1); }
  }

  /** Without a failure every missing key is complete, at one call per batch and one write per key. */
  lemma BatchesDone(ks: seq<Key>, found: map<Key, Value>, batches: seq<seq<Group>>, plan: BatchPlan, entries: map<Key, Value>,
                    outcomes: seq<Outcome>, complete: set<Key>, writes: nat)
    requires Joined(batches) == GroupsFor(ks, MissKeys(ks, found)) && AllStart(plan.order, plan.stopped, |batches|)
    requires DoneUpTo(ks, found, batches, plan, |plan.order|, entries, outcomes, complete, false, writes)
    ensures Worked(ks, found, entries, plan.fates, outcomes, complete) == true && forall k :: k in complete <==> k in ks && k !in found
    ensures var missKeys := MissKeys(ks, found);
      && complete == FirstKeys(missKeys, |missKeys|) && |entries| == |found| + |missKeys| && writes == |missKeys|
      && (forall k :: k in missKeys ==> plan.fates(k).Stores?)
    ensures |plan.order| == |batches| && FromFates(found, entries, plan.fates) == true
  {
    AllTouched(ks, found, batches, plan, entries, outcomes, complete, false, writes);
    hide *;
    AllStartOnce(plan.order, plan.stopped, |batches|);
    var missKeys := MissKeys(ks, found);
    forall k ensures (k in complete <==> k in ks && k !in found) && (k in complete <==> k in missKeys) {
      StartedIs(ks, found, batches, plan.order, plan.stopped, k);
    }
    AllFirst(missKeys, complete);
    WritesAre(ks, found, entries, plan.fates, outcomes, complete);
    FatesOf(ks, found, entries, plan.fates, outcomes, complete);
  }

  lemma StartedIs(ks: seq<Key>, found: map<Key, Value>, batches: seq<seq<Group>>, order: seq<nat>, stopped: bool, k: Key)
    requires Joined(batches) == GroupsFor(ks, MissKeys(ks, found)) && AllStart(order, stopped, |batches|)
    ensures k in Started(batches, order, |order|) <==> k in ks && k !in found
    ensures k in Started(batches, order, |order|) <==> k in MissKeys(ks, found)
  {
    AllBatches(ks, found, batches, order, stopped);
    InMissKeys(ks, found, k);
  }

  lemma AllFirst(us: seq<Key>, all: set<Key>)
    requires forall k :: k in all <==> k in us
    ensures all == FirstKeys(us, |us|)
  {
    assert us[..|us|] == us;
  }

  lemma GroupsNotEmpty(ks: seq<Key>, found: map<Key, Value>, batches: seq<seq<Group>>)
    requires Joined(batches) == GroupsFor(ks, MissKeys(ks, found))
    ensures forall b, p :: 0 <= b < |batches| && 0 <= p < |batches[b]| ==> batches[b][p].indexes != []
  {
    forall b, p | 0 <= b < |batches| && 0 <= p < |batches[b]| ensures batches[b][p].indexes != [] {
      JoinedAt(batches, b, p);
      var k := MissKeys(ks, found)[At(batches, b, p)];
      assert k in MissKeys(ks, found);
      InMissKeys(ks, found, k);
      var i :| 0 <= i < |ks| && ks[i] == k;
      UniquesAre(ks, |ks|);
      IndexesAre(ks, k, |ks|);
    }
  }

  /** Without an error of the pool every batch starts, so every missing key is among the started. */
  lemma AllBatches(ks: seq<Key>, found: map<Key, Value>, batches: seq<seq<Group>>, order: seq<nat>, stopped: bool)
    requires Joined(batches) == GroupsFor(ks, MissKeys(ks, found)) && AllStart(order, stopped, |batches|)
    ensures forall k :: k in Started(batches, order, |order|) <==> k in MissKeys(ks, found)
  {
    hide MissKeys, Started;
    forall k ensures k in Started(batches, order, |order|) <==> k in MissKeys(ks, found) {
      if k in MissKeys(ks, found) { MissStarts(ks, MissKeys(ks, found), batches, order, stopped, k); }
      if k in Started(batches, order, |order|) { StartedMisses(ks, MissKeys(ks, found), batches, order, k); }
    }
  }

  lemma MissStarts(ks: seq<Key>, missKeys: seq<Key>, batches: seq<seq<Group>>, order: seq<nat>, stopped: bool, k: Key)
    requires Joined(batches) == GroupsFor(ks, missKeys) && AllStart(order, stopped, |batches|) && k in missKeys
    ensures k in Started(batches, order, |order|)
  {
    var i: nat :| i < |missKeys| && missKeys[i] == k;
    var b, p := PartOf(batches, i);
    assert b in order && batches[b][p] in batches[b];
    var u :| 0 <= u < |order| && order[u] == b;
    assert k in KeySet(batches[order[u]]);
    InStarted(batches, order, |order|, k);
  }

  lemma StartedMisses(ks: seq<Key>, missKeys: seq<Key>, batches: seq<seq<Group>>, order: seq<nat>, k: Key)
    requires Joined(batches) == GroupsFor(ks, missKeys) && forall u :: 0 <= u < |order| ==> order[u] < |batches|
    requires k in Started(batches, order, |order|)
    ensures k in missKeys
  {
    InStarted(batches, order, |order|, k);
    var u :| 0 <= u < |order| && k in KeySet(batches[order[u]]);
    var g :| g in batches[order[u]] && g.key == k;
    var p :| 0 <= p < |batches[order[u]]| && batches[order[u]][p] == g;
    JoinedAt(batches, order[u], p);
    assert missKeys[At(batches, order[u], p)] == k;
  }

  lemma WritesAre(ks: seq<Key>, found: map<Key, Value>, entries: map<Key, Value>, fates: Key -> Fate, outcomes: seq<Outcome>, complete: set<Key>)
    requires Worked(ks, found, entries, fates, outcomes, complete)
    requires forall k :: k in complete <==> k in ks && k !in found
    ensures |entries| == |found| + |MissKeys(ks, found)|
  {
    var missKeys := MissKeys(ks, found);
    forall k ensures k in missKeys <==> k in complete { InMissKeys(ks, found, k); }
    MissKeysDistinct(ks, found);
    SizeOfDistinct(missKeys, complete);
    hide MissKeys;
    assert forall k :: k in entries <==> k in found || k in complete by { hide OutcomeOk; }
    SizeSplit(found, entries, complete);
  }

  lemma SizeSplit(found: map<Key, Value>, entries: map<Key, Value>, complete: set<Key>)
    requires (forall k :: k in entries <==> k in found || k in complete) && forall k :: k in complete ==> k !in found
    ensures |entries| == |found| + |complete|
  {
    assert entries.Keys == found.Keys + complete && found.Keys !! complete;
  }

  /** When every batch starts, and none twice, there are as many calls as batches. */
  lemma AllStartOnce(order: seq<nat>, stopped: bool, n: nat)
    requires AllStart(order, stopped, n)
    ensures |order| == n
  {
    RangeSize(n);
    SizeOfDistinct(order, Range(n));
  }

  function Range(n: nat): set<nat> { if n == 0 then {} else Range(n - 1) + {n - 1} }

  lemma {:induction false} RangeSize(n: nat)
    ensures |Range(n)| == n && forall b: nat :: b in Range(n) <==> b < n
  {
    if n > 0 { RangeSize(n - 1); }
  }

  lemma {:induction false} SizeOfDistinct<T>(s: seq<T>, all: set<T>)
    requires Distinct(s) && forall k :: k in s <==> k in all
    ensures |s| == |all|
  {
    if s == [] { assert all == {}; } else {
      var rest, last := s[..|s| - 1], s[|s| - 1];
      assert s == rest + [last];
      forall k ensures k in rest <==> k in all - {last} {
        if k in rest { var p :| 0 <= p < |rest| && rest[p] == k; assert s[p] != s[|rest|]; }
        if k in all - {last} { assert k in s; }
      }
      SizeOfDistinct(rest, all - {last});
    }
  }
}
