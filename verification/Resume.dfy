/** Resume is replay: sequences of failing and succeeding runs over one store. */
module Resume {
  import opened Common
  import opened CachedMap

  /** One invocation of either memoized map, as far as its caller and the store can tell. */
  datatype Invocation = Invocation(keys: seq<KeyResult>, out: Option<seq<Value>>, report: Report)

  /** `stores[t]` is what invocation t finds, `stores[t + 1]` what it leaves. */
  ghost predicate Campaign(stores: seq<map<Key, Value>>, runs: seq<Invocation>) {
    && |stores| == |runs| + 1
    && forall t :: 0 <= t < |runs| ==> Ran(runs[t].keys, stores[t], stores[t + 1], runs[t].out, runs[t].report)
  }

  lemma Keeps(stores: seq<map<Key, Value>>, runs: seq<Invocation>, t: nat, k: Key)
    requires Campaign(stores, runs) && t < |runs| && k in stores[t]
    ensures k in stores[t + 1] && stores[t + 1][k] == stores[t][k]
  {
    hide Truthful, Succeeded;
    assert Ran(runs[t].keys, stores[t], stores[t + 1], runs[t].out, runs[t].report);
  }

  lemma Done(stores: seq<map<Key, Value>>, runs: seq<Invocation>, t: nat)
    requires Campaign(stores, runs) && t < |runs| && runs[t].out.Some?
    ensures Succeeded(runs[t].keys, stores[t], stores[t + 1], runs[t].out.value, runs[t].report)
  {
    hide Truthful, Succeeded;
    assert Ran(runs[t].keys, stores[t], stores[t + 1], runs[t].out, runs[t].report);
  }

  lemma DoneInput(stores: seq<map<Key, Value>>, runs: seq<Invocation>, t: nat, i: nat)
    requires Campaign(stores, runs) && t < |runs| && runs[t].out.Some? && i < |runs[t].keys|
    ensures var r := runs[t];
      && r.keys[i].Built? && |r.out.value| == |r.report.outcomes| == |r.keys|
      && InputDone(stores[t], stores[t + 1], r.keys[i].key, r.out.value[i], r.report.outcomes[i])
  {
    hide Campaign, InputDone, Counted;
    Done(stores, runs, t);
  }

  /** A stored value is there for good, whatever later runs do or suffer. */
  lemma {:induction false} EntriesPersist(stores: seq<map<Key, Value>>, runs: seq<Invocation>, t: nat, u: nat, k: Key)
    requires Campaign(stores, runs) && t <= u < |stores| && k in stores[t]
    ensures k in stores[u] && stores[u][k] == stores[t][k]
    decreases u
  {
    hide Ran;
    if t < u {
      EntriesPersist(stores, runs, t, u - 1, k);
      Keeps(stores, runs, u - 1, k);
    }
  }

  /** Each key is written by at most one run. */
  lemma WrittenOnce(stores: seq<map<Key, Value>>, runs: seq<Invocation>, t: nat, u: nat, k: Key)
    requires Campaign(stores, runs) && t < u < |runs| && k !in stores[t] && k in stores[t + 1]
    ensures k in stores[u] && k in stores[u + 1] && stores[u + 1][k] == stores[t + 1][k]
  {
    hide Ran;
    EntriesPersist(stores, runs, t + 1, u, k);
    EntriesPersist(stores, runs, t + 1, u + 1, k);
  }

  /** What a run marked hit or stored, even a run that failed, is in every later store. */
  lemma OutcomesStayTrue(stores: seq<map<Key, Value>>, runs: seq<Invocation>, t: nat, u: nat, i: nat)
    requires Campaign(stores, runs) && t < |runs| && t < u < |stores| && i < |runs[t].keys|
    requires |runs[t].report.outcomes| == |runs[t].keys| && runs[t].report.outcomes[i].Outcome?
    requires !runs[t].report.outcomes[i].state.Pending?
    ensures runs[t].keys[i].Built? && runs[t].keys[i].key in stores[u]
  {
    assert Ran(runs[t].keys, stores[t], stores[t + 1], runs[t].out, runs[t].report);
    assert Truthful(runs[t].keys[i], stores[t], stores[t + 1], runs[t].report.outcomes[i]);
    hide Ran;
    EntriesPersist(stores, runs, t + 1, u, runs[t].keys[i].key);
  }

  /** A successful run has nothing pending, its hits and misses make up its inputs, and it wrote exactly
      the keys of its inputs that no earlier run had stored. */
  lemma SuccessWritesTheRest(stores: seq<map<Key, Value>>, runs: seq<Invocation>, t: nat, k: Key, i: nat)
    requires Campaign(stores, runs) && t < |runs| && runs[t].out.Some?
    ensures AllBuilt(runs[t].keys, |runs[t].keys|)
    ensures runs[t].report.hits + runs[t].report.misses == |runs[t].keys| == |runs[t].out.value| == |runs[t].report.outcomes|
    ensures k !in stores[t] ==> (k in stores[t + 1] <==> Built(k) in runs[t].keys)
    ensures i < |runs[t].keys| ==> runs[t].report.outcomes[i].Outcome? && !runs[t].report.outcomes[i].state.Pending?
    ensures runs[t].report.writes == |stores[t + 1]| - |stores[t]|
  {
    Done(stores, runs, t);
    if i < |runs[t].keys| { DoneInput(stores, runs, t, i); }
  }

  /** A later successful run returns, for an input an earlier successful run had, the same value, as a
      hit; this holds whatever runs came between them. */
  lemma ResumeReplays(stores: seq<map<Key, Value>>, runs: seq<Invocation>, t: nat, u: nat, i: nat, j: nat)
    requires Campaign(stores, runs) && t < u < |runs| && runs[t].out.Some? && runs[u].out.Some?
    requires i < |runs[t].keys| && j < |runs[u].keys| && runs[t].keys[i] == runs[u].keys[j] && runs[t].keys[i].Built?
    ensures i < |runs[t].out.value| && j < |runs[u].out.value| && runs[u].out.value[j] == runs[t].out.value[i]
    ensures j < |runs[u].report.outcomes| && runs[u].report.outcomes[j] == Outcome(runs[t].keys[i].key, Hit)
    ensures runs[t].keys[i].key in stores[u]
  {
    hide Ran;
    var k := runs[t].keys[i].key;
    DoneInput(stores, runs, t, i);
    DoneInput(stores, runs, u, j);
    EntriesPersist(stores, runs, t + 1, u, k);
    EntriesPersist(stores, runs, t + 1, u + 1, k);
  }

  lemma {:induction false} CountedAll(ks: seq<Key>, n: nat, a: set<Key>)
    requires n <= |ks| && forall i :: 0 <= i < n ==> ks[i] in a
    ensures Counted(ks, n, a) == n
  {
    if n > 0 { CountedAll(ks, n - 1, a); }
  }

  /** Running the same inputs again after a success costs nothing: all hits, no misses, no writes. */
  lemma SecondRunIsFree(stores: seq<map<Key, Value>>, runs: seq<Invocation>, t: nat, u: nat)
    requires Campaign(stores, runs) && t < u < |runs| && runs[t].out.Some? && runs[u].out.Some? && runs[u].keys == runs[t].keys
    ensures runs[u].out == runs[t].out && stores[u + 1] == stores[u]
    ensures runs[u].report.misses == 0 == runs[u].report.writes && runs[u].report.hits == |runs[u].keys|
  {
    var keys := runs[t].keys;
    Done(stores, runs, t);
    Done(stores, runs, u);
    hide Campaign, InputDone;
    var ks := KeysOf(keys, |keys|);
    forall i | 0 <= i < |keys| ensures ks[i] in stores[u] && runs[u].out.value[i] == runs[t].out.value[i] {
      ResumeReplays(stores, runs, t, u, i, i);
    }
    assert runs[u].out.value == runs[t].out.value;
    CountedAll(ks, |keys|, stores[u].Keys);
    NothingNew(keys, stores[u], stores[u + 1], runs[u].out.value, runs[u].report);
  }

  lemma NothingNew(keys: seq<KeyResult>, found: map<Key, Value>, entries: map<Key, Value>, results: seq<Value>, r: Report)
    requires Succeeded(keys, found, entries, results, r) && (forall i :: 0 <= i < |keys| ==> keys[i].key in found)
    requires Ran(keys, found, entries, Some(results), r)
    ensures entries == found
  {
    forall k | k in entries ensures k in found {
      if Built(k) in keys { var i :| 0 <= i < |keys| && keys[i] == Built(k); }
    }
  }

  // ----- the plain memoized map ------------------------------------------------------------------------

  /** The obvious memoized map: one input after another, each looked up, worked and stored. */
  function MemoStore(ks: seq<Key>, f: Key -> Value, store: map<Key, Value>): map<Key, Value> {
    if ks == [] then store
    else MemoStore(ks[1..], f, if ks[0] in store then store else store[ks[0] := f(ks[0])])
  }

  function MemoResults(ks: seq<Key>, f: Key -> Value, store: map<Key, Value>): seq<Value> {
    if ks == [] then []
    else
      var next := if ks[0] in store then store else store[ks[0] := f(ks[0])];
      [next[ks[0]]] + MemoResults(ks[1..], f, next)
  }

  lemma {:induction false} MemoStoreAt(ks: seq<Key>, f: Key -> Value, store: map<Key, Value>, k: Key)
    ensures k in MemoStore(ks, f, store) <==> k in store || k in ks
    ensures k in MemoStore(ks, f, store) ==> MemoStore(ks, f, store)[k] == if k in store then store[k] else f(k)
  {
    if ks != [] {
      MemoStoreAt(ks[1..], f, if ks[0] in store then store else store[ks[0] := f(ks[0])], k);
      assert k in ks <==> k == ks[0] || k in ks[1..];
    }
  }

  lemma {:induction false} MemoResultsAt(ks: seq<Key>, f: Key -> Value, store: map<Key, Value>, i: nat)
    requires i < |ks|
    ensures |MemoResults(ks, f, store)| == |ks| && MemoResults(ks, f, store)[i] == if ks[i] in store then store[ks[i]] else f(ks[i])
  {
    var next := if ks[0] in store then store else store[ks[0] := f(ks[0])];
    if i > 0 { MemoResultsAt(ks[1..], f, next, i - 1); } else if |ks| > 1 { MemoResultsAt(ks[1..], f, next, 0); }
  }

  /** When the key determines the output, a successful run, scalar or batched, with any grouping and any
      schedule, is the plain memoized map: same results, same final store. */
  lemma RefinesMemo(keys: seq<KeyResult>, f: Key -> Value, found: map<Key, Value>, entries: map<Key, Value>, results: seq<Value>, r: Report, fates: Key -> Fate)
    requires Ran(keys, found, entries, Some(results), r) && FromFates(found, entries, fates)
    requires forall k :: fates(k).Stores? ==> fates(k).value == f(k)
    ensures AllBuilt(keys, |keys|)
    ensures entries == MemoStore(KeysOf(keys, |keys|), f, found) && results == MemoResults(KeysOf(keys, |keys|), f, found)
  {
    var ks := KeysOf(keys, |keys|);
    var memo := MemoResults(ks, f, found);
    hide MemoStore, Counted, Truthful;
    forall i | 0 <= i < |keys| ensures |memo| == |keys| && results[i] == memo[i] {
      MemoInput(keys, f, found, entries, results, r, fates, i);
    }
    assert results == memo;
    hide MemoResults;
    SameStore(keys, f, found, entries, results, r, fates);
  }

  lemma MemoInput(keys: seq<KeyResult>, f: Key -> Value, found: map<Key, Value>, entries: map<Key, Value>, results: seq<Value>, r: Report,
                  fates: Key -> Fate, i: nat)
    requires Succeeded(keys, found, entries, results, r) && FromFates(found, entries, fates) && i < |keys|
    requires forall k :: k in found ==> k in entries && entries[k] == found[k]
    requires forall k :: fates(k).Stores? ==> fates(k).value == f(k)
    ensures |MemoResults(KeysOf(keys, |keys|), f, found)| == |keys| && results[i] == MemoResults(KeysOf(keys, |keys|), f, found)[i]
  {
    var ks := KeysOf(keys, |keys|);
    MemoResultsAt(ks, f, found, i);
    hide Counted, MemoResults;
    assert InputDone(found, entries, ks[i], results[i], r.outcomes[i]);
  }

  lemma SameStore(keys: seq<KeyResult>, f: Key -> Value, found: map<Key, Value>, entries: map<Key, Value>, results: seq<Value>, r: Report, fates: Key -> Fate)
    requires Ran(keys, found, entries, Some(results), r) && FromFates(found, entries, fates) && AllBuilt(keys, |keys|)
    requires forall k :: fates(k).Stores? ==> fates(k).value == f(k)
    ensures entries == MemoStore(KeysOf(keys, |keys|), f, found)
  {
    var memo := MemoStore(KeysOf(keys, |keys|), f, found);
    hide MemoStore, MemoResults, Counted, Truthful, InputDone, KeysOf;
    forall k ensures (k in entries <==> k in memo) && (k in entries ==> entries[k] == memo[k]) {
      BuiltKeys(keys, k);
      MemoStoreAt(KeysOf(keys, |keys|), f, found, k);
    }
  }
}
