/**
 The bulk step refines the per-item engine: when the key determines the output and nothing fails,
 a bulk run at any batch size and a run of the engine under any schedule cannot be told apart.
 */
module BulkRefines {
  import E = Engine
  import S = EngineSafety
  import T = EngineTheorems
  import A = EngineAccounting
  import R = EngineResults
  import M = CachedMap
  import CB = CachedBatches
  import B = Bulk
  import BS = BulkScript
  import W = Admission
  import Chunks

  type Key = string
  type Value = string

  /** An engine stage that ended without an error, a retry or a flag, and whose work is the function f. */
  ghost predicate ScalarRun(c: E.Config, tr: seq<E.State>, t: nat, ks: seq<Key>, f: Key -> Value) {
    && E.Run(c, tr) && t < |tr| && E.Succeeded(tr[t])
    && c.cached && |c.keys| == |ks| && (forall i :: 0 <= i < |ks| ==> c.keys[i] == E.Built(ks[i]))
    && var g := tr[t].g;
       && g.counts.retries == g.counts.quarantined == g.counts.skipped == 0
       && (forall i: nat :: i < |g.items| && g.items[i].place.Out? ==> g.items[i].place.result.Fine?)
       && (forall i: nat :: i < |g.items| && i < |ks| && g.items[i].made.Some? ==> g.items[i].made.value == f(ks[i]))
  }

  /** The same for a bulk run: no batch was flagged, every call answered at once. */
  ghost predicate BulkRun(ks: seq<Key>, found: map<Key, Value>, entries: map<Key, Value>, size: nat, results: seq<B.Result>,
                          hits: nat, misses: nat, stored: nat, spent: nat, calls: nat, f: Key -> Value) {
    && size >= 1
    && (exists keys: seq<M.KeyResult>, mode: BS.Mode, ends: Key -> BS.End, fates: Key -> M.Fate ::
         BulkOf(keys, mode, ends, fates, ks, found, entries, results, hits, misses, stored, f))
    && B.SmoothBill(ks, found, size, spent, calls, 0)
  }

  /** What either run leaves for key k: the value found, or f's. */
  function ValueFor(found: map<Key, Value>, f: Key -> Value, k: Key): Value { if k in found then found[k] else f(k) }

  ghost predicate StoreIs(entries: map<Key, Value>, ks: seq<Key>, found: map<Key, Value>, f: Key -> Value) {
    && (forall k :: k in entries <==> k in found || k in ks)
    && (forall k :: k in entries ==> entries[k] == ValueFor(found, f, k))
  }

  // ----- the engine's side -----------------------------------------------------------------------------

  lemma ScalarResult(c: E.Config, tr: seq<E.State>, t: nat, ks: seq<Key>, f: Key -> Value, i: nat)
    requires ScalarRun(c, tr, t, ks, f) && i < |ks|
    ensures i < |tr[t].g.items|
    ensures tr[t].g.items[i].place == E.Out(E.Fine(ValueFor(c.store0, f, ks[i]), if ks[i] in c.store0 then E.Hit else E.Stored))
    ensures ks[i] in tr[t].g.store && tr[t].g.store[ks[i]] == ValueFor(c.store0, f, ks[i])
  {
    R.SuccessDelivers(c, tr, t);
    T.RunInv(c, tr, t);
    var g := tr[t].g;
    assert c.HasKey(i) && c.KeyOf(i) == ks[i];
    var r := g.items[i].place.result;
    assert S.Settled(c, g, i, r);
    var call := g.inflight[ks[i]];
    assert S.CallOk(c, tr[t].pcs, g, ks[i]);
    assert S.Truth(c, g, call.leader, call.outcome.result);
    assert ks[call.leader] == ks[i];
  }

  lemma ScalarStore(c: E.Config, tr: seq<E.State>, t: nat, ks: seq<Key>, f: Key -> Value)
    requires ScalarRun(c, tr, t, ks, f)
    ensures StoreIs(tr[t].g.store, ks, c.store0, f)
  {
    var g := tr[t].g;
    T.RunInv(c, tr, t);
    forall k ensures (k in g.store <==> k in c.store0 || k in ks) && (k in g.store ==> g.store[k] == ValueFor(c.store0, f, k)) {
      if k in ks {
        var i :| 0 <= i < |ks| && ks[i] == k;
        ScalarResult(c, tr, t, ks, f, i);
      }
      if k in g.inflight { LedKey(c, tr, t, ks, k); }
    }
  }

  lemma LedKey(c: E.Config, tr: seq<E.State>, t: nat, ks: seq<Key>, k: Key)
    requires E.Run(c, tr) && t < |tr| && k in tr[t].g.inflight
    requires |c.keys| == |ks| && forall i :: 0 <= i < |ks| ==> c.keys[i] == E.Built(ks[i])
    ensures k in ks
  {
    T.RunInv(c, tr, t);
    assert S.CallOk(c, tr[t].pcs, tr[t].g, k);
    assert ks[tr[t].g.inflight[k].leader] == k;
  }

  lemma {:induction false} HitsCounted(items: seq<E.Item>, ks: seq<Key>, found: map<Key, Value>, n: nat)
    requires n <= |items| && n <= |ks|
    requires forall i :: 0 <= i < n ==> items[i].place.Out? && (A.Meets(A.Hits, items[i].place.result) <==> ks[i] in found)
    ensures A.Sum(A.Emitted(A.Hits), items[..n]) == M.Counted(ks, n, found.Keys)
  {
    if n > 0 {
      HitsCounted(items, ks, found, n - 1);
      SumSnoc(items[..n - 1], items[n - 1]);
      assert items[..n] == items[..n - 1] + [items[n - 1]];
    }
  }

  lemma {:induction false} SumSnoc(items: seq<E.Item>, it: E.Item)
    ensures A.Sum(A.Emitted(A.Hits), items + [it]) == A.Sum(A.Emitted(A.Hits), items) + A.Tick(A.Emitted(A.Hits), it)
  {
    if items != [] {
      SumSnoc(items[1..], it);
      assert (items + [it])[1..] == items[1..] + [it];
    } else { assert ([] + [it])[1..] == []; }
  }

  /** The counters and the bill of the engine's run. */
  lemma ScalarCounts(c: E.Config, tr: seq<E.State>, t: nat, ks: seq<Key>, f: Key -> Value, r: nat)
    requires ScalarRun(c, tr, t, ks, f)
    ensures var g := tr[t].g;
      && g.counts.hits == M.Counted(ks, |ks|, c.store0.Keys) && g.counts.hits + g.counts.misses == |ks|
      && |g.store| == |c.store0| + g.counts.stored
      && (r < c.R() ==> |g.spent| == |g.others| == c.R() && g.spent[r] == g.others[r] + g.counts.stored)
  {
    var g := tr[t].g;
    R.SuccessReconciles(c, tr, t);
    if r < c.R() { R.PaidExactlyOnce(c, tr, t, r); }
    R.SuccessDelivers(c, tr, t);
    forall i | 0 <= i < |ks| ensures g.items[i].place.Out? && (A.Meets(A.Hits, g.items[i].place.result) <==> ks[i] in c.store0) {
      ScalarResult(c, tr, t, ks, f, i);
    }
    HitsCounted(g.items, ks, c.store0, |ks|);
    assert g.items[..|ks|] == g.items;
  }

  // ----- the bulk side --------------------------------------------------------------------------------

  lemma BulkStore(ks: seq<Key>, found: map<Key, Value>, entries: map<Key, Value>, size: nat, results: seq<B.Result>,
                  hits: nat, misses: nat, stored: nat, spent: nat, calls: nat, f: Key -> Value)
    requires BulkRun(ks, found, entries, size, results, hits, misses, stored, spent, calls, f)
    ensures StoreIs(entries, ks, found, f) && |results| == |ks|
    ensures forall i :: 0 <= i < |ks| ==> results[i] == B.Done(ValueFor(found, f, ks[i]), if ks[i] in found then M.Hit else M.Stored)
    ensures hits == M.Counted(ks, |ks|, found.Keys) && hits + misses == |ks| && |entries| == |found| + stored
  {
    var keys: seq<M.KeyResult>, mode: BS.Mode, ends: Key -> BS.End, fates: Key -> M.Fate :| BulkOf(keys, mode, ends, fates, ks, found, entries, results, hits, misses, stored, f);
    BulkStoreOf(keys, mode, ends, fates, ks, found, entries, results, hits, misses, stored, f);
  }

  /** What the bulk step promises of a run whose calls all answer at once makes it such a run. */
  lemma BulkRunIs(keys: seq<M.KeyResult>, size: nat, attempts: nat, mode: BS.Mode, plan: B.BulkPlan, found: map<Key, Value>, entries: map<Key, Value>,
                  results: seq<B.Result>, hits: nat, misses: nat, stored: nat, flags: nat, spent: nat, calls: nat, retries: nat, f: Key -> Value)
    requires size >= 1 && attempts >= 1 && M.AllBuilt(keys, |keys|)
    requires var ks := M.KeysOf(keys, |keys|);
      && B.Smooth(plan, |B.BatchesOf(ks, found, size)|)
      && B.BulkSucceeded(keys, found, entries, B.EndsOf(B.BatchesOf(ks, found, size), plan.attempts, attempts, mode), mode, results, hits, misses, stored, flags)
      && B.SmoothBill(ks, found, size, spent, calls, retries)
    requires M.FromFates(found, entries, plan.fates) && forall k :: plan.fates(k).Stores? ==> plan.fates(k).value == f(k)
    ensures BulkRun(M.KeysOf(keys, |keys|), found, entries, size, results, hits, misses, stored, spent, calls, f)
  {
    var ks := M.KeysOf(keys, |keys|);
    var batches := B.BatchesOf(ks, found, size);
    forall k ensures !B.EndsOf(batches, plan.attempts, attempts, mode)(k).Flagged? { NeverFlagged(batches, plan, attempts, mode, k); }
    BulkOfIs(keys, mode, B.EndsOf(batches, plan.attempts, attempts, mode), plan.fates, ks, found, entries, results, hits, misses, stored, flags, f);
    hide BulkOf, B.BulkSucceeded, B.SmoothBill, B.BatchesOf, B.EndsOf;
  }

  lemma BulkOfIs(keys: seq<M.KeyResult>, mode: BS.Mode, ends: Key -> BS.End, fates: Key -> M.Fate, ks: seq<Key>, found: map<Key, Value>, entries: map<Key, Value>,
                 results: seq<B.Result>, hits: nat, misses: nat, stored: nat, flags: nat, f: Key -> Value)
    requires M.AllBuilt(keys, |keys|) && M.KeysOf(keys, |keys|) == ks && (forall k :: !ends(k).Flagged?)
    requires B.BulkSucceeded(keys, found, entries, ends, mode, results, hits, misses, stored, flags)
    requires M.FromFates(found, entries, fates) && forall k :: fates(k).Stores? ==> fates(k).value == f(k)
    ensures BulkOf(keys, mode, ends, fates, ks, found, entries, results, hits, misses, stored, f)
  {
    assert B.FlaggedKeys(ks, found, ends) == {};
    M.CountedNone(ks, |ks|);
    hide B.FlaggedKeys, M.Counted, B.BulkInput, M.KeysOf;
  }

  lemma EndsWithValues(script: BS.Script, b: nat, attempts: nat, mode: BS.Mode)
    requires attempts >= 1 && script(b, 1).Answers?
    ensures BS.EndOf(script, b, attempts, mode) == BS.Got
  {}

  lemma NeverFlagged(batches: seq<seq<M.Group>>, plan: B.BulkPlan, attempts: nat, mode: BS.Mode, k: Key)
    requires B.Smooth(plan, |batches|) && attempts >= 1
    ensures !B.EndFor(batches, plan.attempts, attempts, mode, k).Flagged?
  {
    forall b: nat | b < |batches| ensures !BS.EndOf(plan.attempts, b, attempts, mode).Flagged? { EndsWithValues(plan.attempts, b, attempts, mode); }
    hide BS.EndOf;
  }

  ghost predicate BulkOf(keys: seq<M.KeyResult>, mode: BS.Mode, ends: Key -> BS.End, fates: Key -> M.Fate, ks: seq<Key>, found: map<Key, Value>, entries: map<Key, Value>,
                         results: seq<B.Result>, hits: nat, misses: nat, stored: nat, f: Key -> Value) {
    && M.AllBuilt(keys, |keys|) && M.KeysOf(keys, |keys|) == ks
    && B.BulkSucceeded(keys, found, entries, ends, mode, results, hits, misses, stored, 0) && (forall k :: k in ks && k !in found ==> !ends(k).Flagged?)
    && M.FromFates(found, entries, fates) && (forall k :: fates(k).Stores? ==> fates(k).value == f(k))
  }

  lemma BulkStoreOf(keys: seq<M.KeyResult>, mode: BS.Mode, ends: Key -> BS.End, fates: Key -> M.Fate, ks: seq<Key>, found: map<Key, Value>, entries: map<Key, Value>,
                    results: seq<B.Result>, hits: nat, misses: nat, stored: nat, f: Key -> Value)
    requires BulkOf(keys, mode, ends, fates, ks, found, entries, results, hits, misses, stored, f)
    ensures StoreIs(entries, ks, found, f) && |results| == |ks|
    ensures forall i :: 0 <= i < |ks| ==> results[i] == B.Done(ValueFor(found, f, ks[i]), if ks[i] in found then M.Hit else M.Stored)
    ensures hits == M.Counted(ks, |ks|, found.Keys) && hits + misses == |ks| && |entries| == |found| + stored
  {
    hide BulkOf, M.Counted, ValueFor;
    BulkCounts(keys, mode, ends, fates, ks, found, entries, results, hits, misses, stored, f);
    forall k ensures (k in entries <==> k in found || k in ks) && (k in entries ==> entries[k] == ValueFor(found, f, k)) {
      BulkEntry(keys, mode, ends, fates, ks, found, entries, results, hits, misses, stored, f, k);
    }
    forall i | 0 <= i < |ks| ensures results[i] == B.Done(ValueFor(found, f, ks[i]), if ks[i] in found then M.Hit else M.Stored) {
      BulkAt(keys, mode, ends, fates, ks, found, entries, results, hits, misses, stored, f, i);
    }
  }

  lemma BulkCounts(keys: seq<M.KeyResult>, mode: BS.Mode, ends: Key -> BS.End, fates: Key -> M.Fate, ks: seq<Key>, found: map<Key, Value>, entries: map<Key, Value>,
                   results: seq<B.Result>, hits: nat, misses: nat, stored: nat, f: Key -> Value)
    requires BulkOf(keys, mode, ends, fates, ks, found, entries, results, hits, misses, stored, f)
    ensures |results| == |ks| && hits == M.Counted(ks, |ks|, found.Keys) && hits + misses == |ks| && |entries| == |found| + stored
  {
    hide M.Counted, B.BulkInput;
  }

  lemma BulkEntry(keys: seq<M.KeyResult>, mode: BS.Mode, ends: Key -> BS.End, fates: Key -> M.Fate, ks: seq<Key>, found: map<Key, Value>, entries: map<Key, Value>,
                  results: seq<B.Result>, hits: nat, misses: nat, stored: nat, f: Key -> Value, k: Key)
    requires BulkOf(keys, mode, ends, fates, ks, found, entries, results, hits, misses, stored, f)
    ensures (k in entries <==> k in found || k in ks) && (k in entries ==> entries[k] == ValueFor(found, f, k))
  {
    hide M.Counted, B.BulkInput;
    if k in ks {
      var i :| 0 <= i < |ks| && ks[i] == k;
      BulkAt(keys, mode, ends, fates, ks, found, entries, results, hits, misses, stored, f, i);
    }
    if k in entries && k !in found { assert fates(k) == M.Stores(entries[k]); }
  }

  lemma BulkAt(keys: seq<M.KeyResult>, mode: BS.Mode, ends: Key -> BS.End, fates: Key -> M.Fate, ks: seq<Key>, found: map<Key, Value>, entries: map<Key, Value>,
               results: seq<B.Result>, hits: nat, misses: nat, stored: nat, f: Key -> Value, i: nat)
    requires BulkOf(keys, mode, ends, fates, ks, found, entries, results, hits, misses, stored, f) && i < |ks|
    ensures |results| == |ks| && ks[i] in entries && results[i] == B.Done(entries[ks[i]], if ks[i] in found then M.Hit else M.Stored)
  {
    hide M.Counted;
    assert ks[i] == keys[i].key;
    assert B.BulkInput(found, entries, ends, mode, i, keys[i].key, results[i]);
  }

  /** As many units are paid as there are new entries. */
  lemma NewEntries(ks: seq<Key>, found: map<Key, Value>, entries: map<Key, Value>, f: Key -> Value)
    requires StoreIs(entries, ks, found, f)
    ensures |entries| == |found| + |M.MissKeys(ks, found)|
  {
    var missKeys, added := M.MissKeys(ks, found), entries.Keys - found.Keys;
    M.MissKeysDistinct(ks, found);
    forall k ensures k in missKeys <==> k in added { M.InMissKeys(ks, found, k); }
    CB.SizeOfDistinct(missKeys, added);
    CB.SizeSplit(found, entries, added);
  }

  // ----- they agree ---------------------------------------------------------------------------------------

  predicate SameState(a: E.CacheState, b: M.CacheState) { (a.Hit? <==> b.Hit?) && (a.Stored? <==> b.Stored?) }

  /** Same results and cache outcomes, same final store, same hits, misses, stored and spend; and the bulk
      run needed only ceil(unique misses / batch size) calls. */
  lemma BulkAgrees(c: E.Config, tr: seq<E.State>, t: nat, ks: seq<Key>, f: Key -> Value, r: nat,
                   entries: map<Key, Value>, size: nat, results: seq<B.Result>, hits: nat, misses: nat, stored: nat, spent: nat, calls: nat)
    requires t < |tr| && ScalarRun(c, tr, t, ks, f)
    requires BulkRun(ks, c.store0, entries, size, results, hits, misses, stored, spent, calls, f)
    ensures entries == tr[t].g.store && |results| == |ks| == |tr[t].g.items|
    ensures forall i: nat :: i < |ks| ==>
              && results[i].Done? && tr[t].g.items[i].place.Out? && tr[t].g.items[i].place.result.Fine?
              && tr[t].g.items[i].place.result.value == results[i].value && SameState(tr[t].g.items[i].place.result.state, results[i].state)
    ensures tr[t].g.counts.hits == hits && tr[t].g.counts.misses == misses && tr[t].g.counts.stored == stored
    ensures r < c.R() ==> |tr[t].g.spent| == |tr[t].g.others| == c.R() && tr[t].g.spent[r] == tr[t].g.others[r] + spent
    ensures spent == |M.MissKeys(ks, c.store0)| && size >= 1 && calls == Chunks.Ceil(spent, size)
  {
    hide *;
    var g := tr[t].g;
    BulkStore(ks, c.store0, entries, size, results, hits, misses, stored, spent, calls, f);
    ScalarStore(c, tr, t, ks, f);
    SameStore(entries, g.store, ks, c.store0, f);
    ScalarCounts(c, tr, t, ks, f, r);
    NewEntries(ks, c.store0, entries, f);
    Bill(ks, c.store0, entries, size, results, hits, misses, stored, spent, calls, f);
    Lengths(c, tr, t, ks, f);
    forall i: nat | i < |ks| ensures results[i].Done? && g.items[i].place.Out? && g.items[i].place.result.Fine?
        && g.items[i].place.result.value == results[i].value && SameState(g.items[i].place.result.state, results[i].state) {
      ScalarResult(c, tr, t, ks, f, i);
      AgreeAt(c, tr, t, ks, f, results[i], i);
    }
  }

  lemma SameStore(a: map<Key, Value>, b: map<Key, Value>, ks: seq<Key>, found: map<Key, Value>, f: Key -> Value)
    requires StoreIs(a, ks, found, f) && StoreIs(b, ks, found, f)
    ensures a == b
  {}

  lemma Bill(ks: seq<Key>, found: map<Key, Value>, entries: map<Key, Value>, size: nat, results: seq<B.Result>,
             hits: nat, misses: nat, stored: nat, spent: nat, calls: nat, f: Key -> Value)
    requires BulkRun(ks, found, entries, size, results, hits, misses, stored, spent, calls, f)
    ensures size >= 1 && spent == |M.MissKeys(ks, found)| && calls == Chunks.Ceil(spent, size)
  {
    hide M.MissKeys;
  }

  lemma Lengths(c: E.Config, tr: seq<E.State>, t: nat, ks: seq<Key>, f: Key -> Value)
    requires ScalarRun(c, tr, t, ks, f)
    ensures |tr[t].g.items| == |ks|
  {
    hide E.Run;
    R.SuccessDelivers(c, tr, t);
  }

  lemma AgreeAt(c: E.Config, tr: seq<E.State>, t: nat, ks: seq<Key>, f: Key -> Value, r: B.Result, i: nat)
    requires t < |tr| && i < |ks| && i < |tr[t].g.items|
    requires tr[t].g.items[i].place == E.Out(E.Fine(ValueFor(c.store0, f, ks[i]), if ks[i] in c.store0 then E.Hit else E.Stored))
    requires r == B.Done(ValueFor(c.store0, f, ks[i]), if ks[i] in c.store0 then M.Hit else M.Stored)
    ensures r.Done? && tr[t].g.items[i].place.Out? && tr[t].g.items[i].place.result.Fine?
    ensures tr[t].g.items[i].place.result.value == r.value && SameState(tr[t].g.items[i].place.result.state, r.state)
  {}

  // ----- running it ---------------------------------------------------------------------------------------

  function Keyed(ks: seq<Key>): (keys: seq<M.KeyResult>)
    ensures |keys| == |ks| && M.AllBuilt(keys, |keys|) && M.KeysOf(keys, |keys|) == ks
  { seq(|ks|, i requires 0 <= i < |ks| => M.Built(ks[i])) }

  /** The environment fails nothing, every value is f's, and the budgets cover the misses. */
  ghost predicate Untroubled(plan: B.BulkPlan, ks: seq<Key>, found: map<Key, Value>, size: nat, f: Key -> Value, w: BS.Wallet)
    requires size >= 1
  {
    && plan.loadFails == {} && plan.hookFails == {} && !plan.stopped && (forall k :: plan.fates(k) == M.Stores(f(k)))
    && B.Smooth(plan, |B.BatchesOf(ks, found, size)|) && M.Schedules(plan.order, plan.stopped, |B.BatchesOf(ks, found, size)|)
    && w.Covers(|M.MissKeys(ks, found)|, size)
  }

  lemma Clear(plan: B.BulkPlan, ks: seq<Key>, found: map<Key, Value>, size: nat, attempts: nat, mode: BS.Mode, f: Key -> Value, w: BS.Wallet)
    requires size >= 1 && attempts >= 1 && Untroubled(plan, ks, found, size, f, w)
    ensures var heeded := B.Heeded(Keyed(ks), found, size, attempts, plan, w);
      B.BulkClear(Keyed(ks), found, size, attempts, mode, heeded) == true && B.Smooth(heeded, |B.BatchesOf(ks, found, size)|) == true
  {
    var batches, heeded := B.BatchesOf(ks, found, size), B.Heeded(Keyed(ks), found, size, attempts, plan, w);
    assert heeded == B.Heed(plan, batches, attempts, w);
    Chunks.CutPartitions(M.GroupsFor(ks, M.MissKeys(ks, found)), size);
    M.MissKeysDistinct(ks, found);
    B.SmoothHeeded(ks, M.MissKeys(ks, found), batches, plan, attempts, w, size);
    hide B.Heed, B.BatchesOf;
    forall b: nat | b < |batches| ensures B.BulkOk(ks, batches[b], BS.EndOf(heeded.attempts, b, attempts, mode), heeded) {
      EndsWithValues(heeded.attempts, b, attempts, mode);
      StoresWell(ks, batches[b], plan.fates, f);
      assert heeded.hookFails == {} && heeded.fates == plan.fates by { HeededSame(plan, batches, attempts, w); }
      hide BS.EndOf;
    }
    assert heeded.stopped == plan.stopped && heeded.loadFails == {} && heeded.hookFails == {} by { HeededSame(plan, batches, attempts, w); }
    assert M.AllLoad(ks, found, {}, {});
  }

  lemma HeededSame(plan: B.BulkPlan, batches: seq<seq<M.Group>>, attempts: nat, w: BS.Wallet)
    requires attempts >= 1 && M.Schedules(plan.order, plan.stopped, |batches|)
    ensures var heeded := B.Heed(plan, batches, attempts, w);
      heeded.hookFails == plan.hookFails && heeded.loadFails == plan.loadFails && heeded.stopped == plan.stopped && heeded.fates == plan.fates
  {}

  lemma StoresWell(ks: seq<Key>, batch: seq<M.Group>, fates: Key -> M.Fate, f: Key -> Value)
    requires forall k :: fates(k) == M.Stores(f(k))
    ensures CB.BatchEndsWell(ks, batch, {}, fates, |batch|)
  {}

  /** Runs the bulk step next to a finished engine run over the same keys and the same store: they have the
      same results, store and counters, and every account of the bulk step has fallen by what the engine has
      spent of a resource, once per occurrence. */
  method RunBeside(cache: M.Cache, tally: B.Tally, purse: BS.Purse, ks: seq<Key>, size: nat, attempts: nat, mode: BS.Mode, plan: B.BulkPlan, ghost was: W.Balance,
                   ghost c: E.Config, ghost tr: seq<E.State>, ghost t: nat, ghost f: Key -> Value, ghost r: nat)
    returns (results: seq<B.Result>, hits: nat, misses: nat)
    requires tally.Valid() && size >= 1 && attempts >= 1 && tally.calls == []
    requires tally.sequences == tally.retries == tally.stored == tally.quarantined == tally.skipped == 0
    requires W.Records(was) && forall b :: b in BS.WalletOf(purse, was).marks ==> b in was
    requires Untroubled(plan, ks, cache.entries, size, f, BS.WalletOf(purse, was))
    requires t < |tr| && ScalarRun(c, tr, t, ks, f) && c.store0 == cache.entries && r < c.R()
    modifies cache, tally, was.Keys
    ensures cache.entries == tr[t].g.store && |results| == |ks| == |tr[t].g.items|
    ensures forall i: nat :: i < |ks| ==>
              && results[i].Done? && tr[t].g.items[i].place.Out? && tr[t].g.items[i].place.result.Fine?
              && tr[t].g.items[i].place.result.value == results[i].value && SameState(tr[t].g.items[i].place.result.state, results[i].state)
    ensures tr[t].g.counts.hits == hits && tr[t].g.counts.misses == misses && tr[t].g.counts.stored == tally.stored
    ensures |tr[t].g.spent| == |tr[t].g.others| == c.R() && tr[t].g.spent[r] == tr[t].g.others[r] + BS.Sum(tally.calls)
    ensures forall b :: b in was ==> b.remaining == was[b] - BS.Sum(tally.calls) * BS.WalletOf(purse, was).marks[b]
    ensures var misses := |M.MissKeys(ks, old(cache.entries))|; misses <= tally.workCalls * size < misses + size
  {
    ghost var found, w := cache.entries, BS.WalletOf(purse, was);
    var keys := Keyed(ks);
    Clear(plan, ks, found, size, attempts, mode, f, w);
    var out;
    out, hits, misses := B.RunBulk(cache, tally, purse, keys, size, attempts, mode, plan, was);
    ghost var heeded := B.Heeded(keys, found, size, attempts, plan, w);
    results := out.value;
    Agreed(keys, ks, size, attempts, mode, plan, heeded, found, cache.entries, results, hits, misses, tally.stored, tally.Flags(mode),
           BS.Sum(tally.calls), tally.workCalls, tally.retries, f, c, tr, t, r, w);
  }

  /** What both runs promise makes them agree. */
  lemma Agreed(keys: seq<M.KeyResult>, ks: seq<Key>, size: nat, attempts: nat, mode: BS.Mode, plan: B.BulkPlan, heeded: B.BulkPlan, found: map<Key, Value>,
               entries: map<Key, Value>, results: seq<B.Result>, hits: nat, misses: nat, stored: nat, flags: nat, spent: nat, calls: nat, retries: nat,
               f: Key -> Value, c: E.Config, tr: seq<E.State>, t: nat, r: nat, w: BS.Wallet)
    requires size >= 1 && attempts >= 1 && M.AllBuilt(keys, |keys|) && ks == M.KeysOf(keys, |keys|)
    requires Untroubled(plan, ks, found, size, f, w) && heeded == B.Heeded(keys, found, size, attempts, plan, w)
    requires B.Smooth(heeded, |B.BatchesOf(ks, found, size)|)
    requires B.BulkSucceeded(keys, found, entries, B.EndsOf(B.BatchesOf(ks, found, size), heeded.attempts, attempts, mode), mode, results, hits, misses, stored, flags)
    requires B.SmoothBill(ks, found, size, spent, calls, retries) && M.FromFates(found, entries, plan.fates)
    requires t < |tr| && ScalarRun(c, tr, t, ks, f) && c.store0 == found && r < c.R()
    ensures entries == tr[t].g.store && |results| == |ks| == |tr[t].g.items|
    ensures forall i: nat :: i < |ks| ==>
              && results[i].Done? && tr[t].g.items[i].place.Out? && tr[t].g.items[i].place.result.Fine?
              && tr[t].g.items[i].place.result.value == results[i].value && SameState(tr[t].g.items[i].place.result.state, results[i].state)
    ensures tr[t].g.counts.hits == hits && tr[t].g.counts.misses == misses && tr[t].g.counts.stored == stored
    ensures |tr[t].g.spent| == |tr[t].g.others| == c.R() && tr[t].g.spent[r] == tr[t].g.others[r] + spent
    ensures |M.MissKeys(ks, found)| <= calls * size < |M.MissKeys(ks, found)| + size
  {
    assert heeded.fates == plan.fates by { HeededSame(plan, B.BatchesOf(ks, found, size), attempts, w); }
    assert forall k :: heeded.fates(k).Stores? ==> heeded.fates(k).value == f(k);
    hide *;
    BulkRunIs(keys, size, attempts, mode, heeded, found, entries, results, hits, misses, stored, flags, spent, calls, retries, f);
    BulkAgrees(c, tr, t, ks, f, r, entries, size, results, hits, misses, stored, spent, calls);
    Chunks.CeilRoundsUp(|M.MissKeys(ks, found)|, size);
  }
}
