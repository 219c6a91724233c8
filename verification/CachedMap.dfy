/**
 The memoized map: duplicate inputs are grouped by key digest, stored values are loaded before
 anything runs, each unique miss is worked, stored at once and fanned out to its indices.  What
 the environment does in a run (which loads fail, which misses start and in which order, how
 each ends) is an arbitrary plan.
 */
module CachedMap {
  import opened Common
  import P = Pool

  type Key = string
  type Value = string

  datatype KeyResult = Built(key: Key) | KeyError

  datatype CacheState = Pending | Hit | Stored
  datatype Outcome = Outcome(key: Key, state: CacheState) | Unkeyed
  datatype Report = Report(hits: nat, misses: nat, writes: nat, workCalls: nat, outcomes: seq<Outcome>)

  /** A durable store.  Publishing needs a key without an entry, and nothing is ever removed, so no
      key is written twice. */
  class Cache {
    var entries: map<Key, Value>

    constructor (found: map<Key, Value>)
      ensures entries == found
    { entries := found; }

    method Publish(k: Key, v: Value)
      requires k !in entries
      modifies this
      ensures entries == old(entries)[k := v]
    { entries := entries[k := v]; }
  }

  // ----- grouping -----------------------------------------------------------------------------------

  /** One key and the indices that share it; the first of them supplies the item. */
  datatype Group = Group(key: Key, indexes: seq<nat>)

  /** The distinct keys of the first n inputs, in order of first occurrence. */
  function Uniques(ks: seq<Key>, n: nat): seq<Key>
    requires n <= |ks|
  {
    if n == 0 then [] else
    var rest := Uniques(ks, n - 1);
    if ks[n - 1] in rest then rest else rest + [ks[n - 1]]
  }

  /** The indices below n with key k, ascending. */
  function IndexesOf(ks: seq<Key>, k: Key, n: nat): seq<nat>
    requires n <= |ks|
  {
    if n == 0 then [] else IndexesOf(ks, k, n - 1) + if ks[n - 1] == k then [n - 1] else []
  }

  function GroupsOf(ks: seq<Key>, n: nat): seq<Group>
    requires n <= |ks|
  {
    var us := Uniques(ks, n);
    seq(|us|, g requires 0 <= g < |us| => Group(us[g], IndexesOf(ks, us[g], n)))
  }

  lemma {:induction false} UniquesAre(ks: seq<Key>, n: nat)
    requires n <= |ks|
    ensures Distinct(Uniques(ks, n)) && forall k :: k in Uniques(ks, n) <==> exists i :: 0 <= i < n && ks[i] == k
  {
    if n > 0 { UniquesAre(ks, n - 1); }
  }

  lemma {:induction false} IndexesAre(ks: seq<Key>, k: Key, n: nat)
    requires n <= |ks|
    ensures forall i: nat :: i in IndexesOf(ks, k, n) <==> i < n && ks[i] == k
    ensures Distinct(IndexesOf(ks, k, n)) && (IndexesOf(ks, k, n) == [] <==> k !in Uniques(ks, n))
  {
    if n > 0 { IndexesAre(ks, k, n - 1); }
  }

  predicate AllBuilt(keys: seq<KeyResult>, n: nat)
    requires n <= |keys|
  { forall i :: 0 <= i < n ==> keys[i].Built? }

  /** The keys before the first input without one. */
  function KeysOf(keys: seq<KeyResult>, n: nat): (ks: seq<Key>)
    requires n <= |keys| && AllBuilt(keys, n)
    ensures |ks| == n
  { seq(n, i requires 0 <= i < n => keys[i].key) }

  /** The outcomes once the first n keys are known. */
  function Fresh(keys: seq<KeyResult>, n: nat): seq<Outcome> {
    seq(|keys|, i requires 0 <= i < |keys| => if i < n && keys[i].Built? then Outcome(keys[i].key, Pending) else Unkeyed)
  }

  ghost predicate Indexed(byDigest: map<Key, nat>, us: seq<Key>) {
    && (forall k :: k in byDigest <==> k in us)
    && (forall k :: k in byDigest ==> byDigest[k] < |us| && us[byDigest[k]] == k)
  }

  lemma {:induction false} PrefixSame(ks: seq<Key>, more: seq<Key>, k: Key, n: nat)
    requires n <= |ks| && ks <= more
    ensures Uniques(ks, n) == Uniques(more, n) && IndexesOf(ks, k, n) == IndexesOf(more, k, n)
  {
    if n > 0 { PrefixSame(ks, more, k, n - 1); }
  }

  /** One more input joins its group, or opens one. */
  lemma GroupMore(ks: seq<Key>, n: nat, g: nat)
    requires n < |ks| && g <= |Uniques(ks, n)|
    requires if g < |Uniques(ks, n)| then Uniques(ks, n)[g] == ks[n] else ks[n] !in Uniques(ks, n)
    ensures var groups := GroupsOf(ks, n);
      GroupsOf(ks, n + 1) == if g < |groups| then groups[g := groups[g].(indexes := groups[g].indexes + [n])] else groups + [Group(ks[n], [n])]
  {
    var us, groups := Uniques(ks, n), GroupsOf(ks, n);
    UniquesAre(ks, n);
    if g < |us| {
      var next := groups[g := groups[g].(indexes := groups[g].indexes + [n])];
      forall a | 0 <= a < |us| ensures GroupsOf(ks, n + 1)[a] == next[a] { if a != g { assert us[a] != us[g]; } }
      assert GroupsOf(ks, n + 1) == next;
    } else {
      IndexesAre(ks, ks[n], n);
      var next := groups + [Group(ks[n], [n])];
      forall a | 0 <= a <= |us| ensures GroupsOf(ks, n + 1)[a] == next[a] { if a < |us| { assert us[a] in us && us[a] != ks[n]; } }
      assert GroupsOf(ks, n + 1) == next;
    }
  }

  /** Groups the inputs by digest, or stops at the first input without a valid key. */
  method GroupKeys(keys: seq<KeyResult>) returns (bad: Option<nat>, groups: seq<Group>, outcomes: seq<Outcome>)
    ensures bad.None? <==> AllBuilt(keys, |keys|)
    ensures bad.None? ==> groups == GroupsOf(KeysOf(keys, |keys|), |keys|) && outcomes == Fresh(keys, |keys|)
    ensures bad.Some? ==> bad.value < |keys| && keys[bad.value].KeyError? && AllBuilt(keys, bad.value) && outcomes == Fresh(keys, bad.value)
  {
    groups, outcomes := [], seq(|keys|, _ => Unkeyed);
    var byDigest: map<Key, nat> := map[];
    var i := 0;
    while i < |keys|
      invariant 0 <= i <= |keys| && AllBuilt(keys, i)
      invariant groups == GroupsOf(KeysOf(keys, i), i) && Indexed(byDigest, Uniques(KeysOf(keys, i), i)) == true
      invariant outcomes == Fresh(keys, i)
    {
      if keys[i].KeyError? { return Some(i), [], outcomes; }
      var k := keys[i].key;
      outcomes := outcomes[i := Outcome(k, Pending)];
      var g := if k in byDigest then byDigest[k] else |groups|;
      Regroup(keys, i, g);
      if k in byDigest {
        groups := groups[g := groups[g].(indexes := groups[g].indexes + [i])];
      } else {
        byDigest := byDigest[k := |groups|];
        groups := groups + [Group(k, [i])];
      }
      i := i + 1;
    }
    bad := None;
  }

  lemma Regroup(keys: seq<KeyResult>, i: nat, g: nat)
    requires i < |keys| && AllBuilt(keys, i + 1) && g <= |Uniques(KeysOf(keys, i), i)|
    requires var us, k := Uniques(KeysOf(keys, i), i), keys[i].key; if g < |us| then us[g] == k else k !in us
    ensures var ks, k, groups := KeysOf(keys, i), keys[i].key, GroupsOf(KeysOf(keys, i), i);
      && (k in Uniques(ks, i) <==> g < |groups|)
      && Uniques(KeysOf(keys, i + 1), i + 1) == (if g < |groups| then Uniques(ks, i) else Uniques(ks, i) + [k])
      && GroupsOf(KeysOf(keys, i + 1), i + 1)
         == if g < |groups| then groups[g := groups[g].(indexes := groups[g].indexes + [i])] else groups + [Group(k, [i])]
  {
    var ks, more := KeysOf(keys, i), KeysOf(keys, i + 1);
    assert ks <= more;
    forall k ensures Uniques(ks, i) == Uniques(more, i) && IndexesOf(ks, k, i) == IndexesOf(more, k, i) { PrefixSame(ks, more, k, i); }
    PrefixSame(ks, more, keys[i].key, i);
    assert GroupsOf(ks, i) == GroupsOf(more, i);
    GroupMore(more, i, g);
  }

  // ----- loading ----------------------------------------------------------------------------------

  /** Inputs below n whose key is in the set. */
  function Counted(ks: seq<Key>, n: nat, set_: set<Key>): nat
    requires n <= |ks|
  { if n == 0 then 0 else Counted(ks, n - 1, set_) + if ks[n - 1] in set_ then 1 else 0 }

  lemma {:induction false} CountedAdds(ks: seq<Key>, n: nat, a: set<Key>, k: Key)
    requires n <= |ks| && k !in a
    ensures Counted(ks, n, a + {k}) == Counted(ks, n, a) + |IndexesOf(ks, k, n)|
  {
    if n > 0 { CountedAdds(ks, n - 1, a, k); }
  }

  lemma {:induction false} CountedSplit(ks: seq<Key>, n: nat, a: set<Key>, b: set<Key>)
    requires n <= |ks| && a !! b && forall i :: 0 <= i < n ==> ks[i] in a + b
    ensures Counted(ks, n, a) + Counted(ks, n, b) == n
  {
    if n > 0 { CountedSplit(ks, n - 1, a, b); }
  }

  lemma {:induction false} CountedNone(ks: seq<Key>, n: nat)
    requires n <= |ks|
    ensures Counted(ks, n, {}) == 0
  {
    if n > 0 { CountedNone(ks, n - 1); }
  }

  /** The keys in order that the store does not hold. */
  function Without(us: seq<Key>, store: map<Key, Value>): seq<Key> {
    if us == [] then [] else Without(us[..|us| - 1], store) + if us[|us| - 1] in store then [] else [us[|us| - 1]]
  }

  lemma {:induction false} WithoutAre(us: seq<Key>, store: map<Key, Value>)
    requires Distinct(us)
    ensures Distinct(Without(us, store)) && forall k :: k in Without(us, store) <==> k in us && k !in store
  {
    if us != [] { WithoutAre(us[..|us| - 1], store); }
  }

  /** The unique missing keys of the inputs, in order of first occurrence. */
  function MissKeys(ks: seq<Key>, store: map<Key, Value>): seq<Key> { Without(Uniques(ks, |ks|), store) }

  function GroupsFor(ks: seq<Key>, us: seq<Key>): (r: seq<Group>)
    ensures |r| == |us|
  { seq(|us|, m requires 0 <= m < |us| => Group(us[m], IndexesOf(ks, us[m], |ks|))) }

  /** Every outcome is keyed, and hits are in the store. */
  ghost predicate HitsHonest(ks: seq<Key>, store: map<Key, Value>, outcomes: seq<Outcome>) {
    && |outcomes| == |ks|
    && forall i :: 0 <= i < |ks| ==> outcomes[i] == Outcome(ks[i], Pending) || (outcomes[i] == Outcome(ks[i], Hit) && ks[i] in store)
  }

  /** The groups of `done`, and of the current group the indices in `now`, have been looked up. */
  ghost predicate Looked(ks: seq<Key>, store: map<Key, Value>, done: set<Key>, now: seq<nat>, outcomes: seq<Outcome>, results: map<nat, Value>) {
    && |outcomes| == |ks|
    && forall i: nat :: i < |ks| ==>
         if ks[i] in store && (ks[i] in done || i in now) then
           outcomes[i] == Outcome(ks[i], Hit) && i in results && results[i] == store[ks[i]]
         else outcomes[i] == Outcome(ks[i], Pending)
  }

  /** Fans one stored value out to its indices, telling the hook of each. */
  method MarkHits(store: map<Key, Value>, group: Group, hookFails: set<nat>, ghost ks: seq<Key>, ghost done: set<Key>,
                  outcomes0: seq<Outcome>, results0: map<nat, Value>)
    returns (failed: bool, outcomes: seq<Outcome>, results: map<nat, Value>, hits: nat)
    requires group.key in store && group.indexes == IndexesOf(ks, group.key, |ks|)
    requires Looked(ks, store, done, [], outcomes0, results0)
    ensures hits <= |group.indexes| && HitsHonest(ks, store, outcomes)
    ensures failed <==> exists i :: i in group.indexes && i in hookFails
    ensures !failed ==> hits == |group.indexes| && Looked(ks, store, done + {group.key}, [], outcomes, results)
  {
    outcomes, results, hits := outcomes0, results0, 0;
    IndexesAre(ks, group.key, |ks|);
    var value := store[group.key];
    while hits < |group.indexes|
      invariant 0 <= hits <= |group.indexes|
      invariant Looked(ks, store, done, group.indexes[..hits], outcomes, results)
      invariant forall p :: 0 <= p < hits ==> group.indexes[p] !in hookFails
    {
      var i := group.indexes[hits];
      assert i in group.indexes && group.indexes[..hits + 1] == group.indexes[..hits] + [i];
      results, outcomes := results[i := value], outcomes[i := Outcome(outcomes[i].key, Hit)];
      hits := hits + 1;
      if i in hookFails { return true, outcomes, results, hits; }
    }
    failed := false;
  }

  /** One key can be looked up, and if it is a hit, every input with it can be told. */
  predicate Loads(ks: seq<Key>, store: map<Key, Value>, loadFails: set<Key>, hookFails: set<nat>, k: Key) {
    k !in loadFails && (k in store ==> forall i: nat :: i < |ks| && ks[i] == k ==> i !in hookFails)
  }

  predicate AllLoad(ks: seq<Key>, store: map<Key, Value>, loadFails: set<Key>, hookFails: set<nat>) {
    forall k :: k in ks ==> Loads(ks, store, loadFails, hookFails, k)
  }

  function FirstKeys(us: seq<Key>, g: nat): set<Key>
    requires g <= |us|
  { set k | k in us[..g] }

  /** Looks every group up before anything runs. */
  method LoadGroups(store: map<Key, Value>, ks: seq<Key>, groups: seq<Group>, loadFails: set<Key>, hookFails: set<nat>, outcomes0: seq<Outcome>)
    returns (failed: bool, outcomes: seq<Outcome>, results: map<nat, Value>, hits: nat, misses: nat, missGroups: seq<Group>)
    requires groups == GroupsOf(ks, |ks|) && Looked(ks, store, {}, [], outcomes0, map[])
    ensures HitsHonest(ks, store, outcomes) && hits + misses <= |ks|
    ensures failed <==> !AllLoad(ks, store, loadFails, hookFails)
    ensures !failed ==>
      && Looked(ks, store, set k | k in ks, [], outcomes, results)
      && hits + misses == |ks| && hits == Counted(ks, |ks|, store.Keys)
      && missGroups == GroupsFor(ks, MissKeys(ks, store))
  {
    outcomes, results, hits, misses, missGroups := outcomes0, map[], 0, 0, [];
    ghost var us := Uniques(ks, |ks|);
    TallyNone(ks, store);
    assert FirstKeys(us, 0) == {};
    var g := 0;
    while g < |groups|
      invariant 0 <= g <= |groups|
      invariant LoadedTo(ks, store, g, outcomes, results, hits, misses, missGroups)
      invariant forall k :: k in FirstKeys(us, g) ==> Loads(ks, store, loadFails, hookFails, k)
    {
      var k := groups[g].key;
      NextGroup(ks, g);
      LoadedStep(ks, store, g, outcomes, results, hits, misses, missGroups);
      if k in loadFails { return true, outcomes, map[], hits, misses, []; }
      if k !in store {
        misses, missGroups := misses + |groups[g].indexes|, missGroups + [groups[g]];
      } else {
        var more;
        failed, outcomes, results, more := MarkHits(store, groups[g], hookFails, ks, FirstKeys(us, g), outcomes, results);
        hits := hits + more;
        if failed { return; }
        LookedNext(ks, store, g, outcomes, results);
      }
      g := g + 1;
    }
    assert us[..g] == us;
    LookedAll(ks, store, FirstKeys(us, g), hits, misses);
    failed := false;
  }

  lemma NextGroup(ks: seq<Key>, g: nat)
    requires g < |Uniques(ks, |ks|)|
    ensures var us := Uniques(ks, |ks|); us[g] in ks && FirstKeys(us, g + 1) == FirstKeys(us, g) + {us[g]}
    ensures forall i: nat :: i in IndexesOf(ks, Uniques(ks, |ks|)[g], |ks|) <==> i < |ks| && ks[i] == Uniques(ks, |ks|)[g]
  {
    var us := Uniques(ks, |ks|);
    UniquesAre(ks, |ks|);
    FirstNext(us, g);
    IndexesAre(ks, us[g], |ks|);
    assert us[g] in us;
  }

  /** The first g groups have been looked up. */
  ghost predicate LoadedTo(ks: seq<Key>, store: map<Key, Value>, g: nat, outcomes: seq<Outcome>, results: map<nat, Value>,
                           hits: nat, misses: nat, missGroups: seq<Group>) {
    var us := Uniques(ks, |ks|);
    && g <= |us|
    && Looked(ks, store, FirstKeys(us, g), [], outcomes, results)
    && Tallied(ks, store, FirstKeys(us, g), hits, misses)
    && missGroups == GroupsFor(ks, Without(us[..g], store))
  }

  lemma FirstNext(us: seq<Key>, g: nat)
    requires g < |us| && Distinct(us)
    ensures us[..g + 1][..g] == us[..g] && FirstKeys(us, g + 1) == FirstKeys(us, g) + {us[g]} && us[g] !in FirstKeys(us, g)
  {
    assert us[..g + 1] == us[..g] + [us[g]];
  }

  lemma LookedNext(ks: seq<Key>, store: map<Key, Value>, g: nat, outcomes: seq<Outcome>, results: map<nat, Value>)
    requires g < |Uniques(ks, |ks|)| && Looked(ks, store, FirstKeys(Uniques(ks, |ks|), g) + {Uniques(ks, |ks|)[g]}, [], outcomes, results)
    ensures Looked(ks, store, FirstKeys(Uniques(ks, |ks|), g + 1), [], outcomes, results)
  {
    UniquesAre(ks, |ks|);
    FirstNext(Uniques(ks, |ks|), g);
  }

  /** What looking up group g leaves: a longer miss list, or, once its hits are marked, more hits. */
  lemma LoadedStep(ks: seq<Key>, store: map<Key, Value>, g: nat, outcomes: seq<Outcome>, results: map<nat, Value>,
                   hits: nat, misses: nat, missGroups: seq<Group>)
    requires LoadedTo(ks, store, g, outcomes, results, hits, misses, missGroups) && g < |Uniques(ks, |ks|)|
    ensures HitsHonest(ks, store, outcomes)
    ensures var us := Uniques(ks, |ks|);
      var more := |IndexesOf(ks, us[g], |ks|)|;
      && hits + misses + more <= |ks|
      && if us[g] !in store then
           LoadedTo(ks, store, g + 1, outcomes, results, hits, misses + more, missGroups + [Group(us[g], IndexesOf(ks, us[g], |ks|))])
         else Tallied(ks, store, FirstKeys(us, g + 1), hits + more, misses) && missGroups == GroupsFor(ks, Without(us[..g + 1], store))
  {
    var us := Uniques(ks, |ks|);
    UniquesAre(ks, |ks|);
    FirstNext(us, g);
    TallyStep(ks, store, FirstKeys(us, g), us[g], hits, misses);
  }

  lemma {:induction false} CountedSame(ks: seq<Key>, n: nat, a: set<Key>, b: set<Key>)
    requires n <= |ks| && forall i :: 0 <= i < n ==> (ks[i] in a <==> ks[i] in b)
    ensures Counted(ks, n, a) == Counted(ks, n, b)
  {
    if n > 0 { CountedSame(ks, n - 1, a, b); }
  }

  /** Hits and misses so far count the inputs of the groups looked up. */
  ghost predicate Tallied(ks: seq<Key>, store: map<Key, Value>, done: set<Key>, hits: nat, misses: nat) {
    hits == Counted(ks, |ks|, done * store.Keys) && misses == Counted(ks, |ks|, done - store.Keys)
  }

  lemma TallyNone(ks: seq<Key>, store: map<Key, Value>)
    ensures Tallied(ks, store, {}, 0, 0)
  {
    CountedNone(ks, |ks|);
    assert {} * store.Keys == {} && {} - store.Keys == {};
  }

  lemma TallyStep(ks: seq<Key>, store: map<Key, Value>, done: set<Key>, k: Key, hits: nat, misses: nat)
    requires Tallied(ks, store, done, hits, misses) && k !in done
    ensures var more := |IndexesOf(ks, k, |ks|)|;
      if k in store then Tallied(ks, store, done + {k}, hits + more, misses) else Tallied(ks, store, done + {k}, hits, misses + more)
    ensures hits + misses + |IndexesOf(ks, k, |ks|)| <= |ks|
  {
    var next := done + {k};
    CountedAdds(ks, |ks|, done * store.Keys, k);
    CountedAdds(ks, |ks|, done - store.Keys, k);
    CountedTwo(ks, |ks|, next * store.Keys, next - store.Keys);
    if k in store {
      assert next * store.Keys == done * store.Keys + {k} && next - store.Keys == done - store.Keys;
    } else {
      assert next - store.Keys == done - store.Keys + {k} && next * store.Keys == done * store.Keys;
    }
  }

  lemma {:induction false} CountedTwo(ks: seq<Key>, n: nat, a: set<Key>, b: set<Key>)
    requires n <= |ks| && a !! b
    ensures Counted(ks, n, a) + Counted(ks, n, b) <= n
  {
    if n > 0 { CountedTwo(ks, n - 1, a, b); }
  }

  lemma LookedAll(ks: seq<Key>, store: map<Key, Value>, done: set<Key>, hits: nat, misses: nat)
    requires done == FirstKeys(Uniques(ks, |ks|), |Uniques(ks, |ks|)|) && Tallied(ks, store, done, hits, misses)
    ensures done == (set k | k in ks) && hits + misses == |ks| && hits == Counted(ks, |ks|, store.Keys)
  {
    var us := Uniques(ks, |ks|);
    UniquesAre(ks, |ks|);
    assert us[..|us|] == us;
    forall k ensures k in done <==> k in ks {
      if k in ks { var i :| 0 <= i < |ks| && ks[i] == k; assert k in us; }
      if k in us { var i :| 0 <= i < |ks| && ks[i] == k; }
    }
    CountedSplit(ks, |ks|, done * store.Keys, done - store.Keys);
    CountedSame(ks, |ks|, done * store.Keys, store.Keys);
  }

  // ----- running the misses -----------------------------------------------------------------------

  /** How a started miss ends; a failing store call may still have published its entry. */
  datatype Fate = WorkFails | StoreFails(published: Option<Value>) | Stores(value: Value)

  /** What a started miss adds to the store. */
  function Leaves(fate: Fate): Option<Value> {
    match fate
    case WorkFails => None
    case StoreFails(published) => published
    case Stores(v) => Some(v)
  }

  function After(entries: map<Key, Value>, k: Key, fate: Fate): map<Key, Value> {
    if Leaves(fate).Some? then entries[k := Leaves(fate).value] else entries
  }

  /** The store holds what was found, what the started misses in `touched` left, and nothing else. */
  ghost predicate Left(found: map<Key, Value>, touched: set<Key>, fates: Key -> Fate, entries: map<Key, Value>) {
    forall k :: LeftAt(found, touched, fates, entries, k)
  }

  ghost predicate LeftAt(found: map<Key, Value>, touched: set<Key>, fates: Key -> Fate, entries: map<Key, Value>, k: Key) {
    if k in found then k in entries && entries[k] == found[k]
    else if k in touched && Leaves(fates(k)).Some? then k in entries && entries[k] == Leaves(fates(k)).value
    else k !in entries
  }

  lemma LeftMore(found: map<Key, Value>, touched: set<Key>, fates: Key -> Fate, entries: map<Key, Value>, k: Key)
    requires Left(found, touched, fates, entries) && k !in touched && k !in found
    ensures Left(found, touched + {k}, fates, After(entries, k, fates(k)))
  {
    assert LeftAt(found, touched, fates, entries, k);
    forall j ensures LeftAt(found, touched + {k}, fates, After(entries, k, fates(k)), j) { assert LeftAt(found, touched, fates, entries, j); }
  }

  /** A started miss of key k is stored, and all its inputs are told. */
  predicate EndsWell(ks: seq<Key>, hookFails: set<nat>, fate: Fate, k: Key) {
    fate.Stores? && forall i: nat :: i < |ks| && ks[i] == k ==> i !in hookFails
  }

  /** `order` lists the misses that start, by position; `stopped` says that the pool ended with an error
      before all had started (a refused limiter, a bad cost, a done context). */
  datatype Plan = Plan(loadFails: set<Key>, hookFails: set<nat>, order: seq<nat>, fates: Key -> Fate, stopped: bool)

  /** An order in which some of n jobs start, all of them unless the pool stopped before. */
  ghost predicate Schedules(order: seq<nat>, stopped: bool, n: nat) {
    && Distinct(order)
    && (forall t :: 0 <= t < |order| ==> order[t] < n)
    && (!stopped ==> forall m: nat :: m < n ==> m in order)
  }

  /** Such an order is what the worker pool gives: the works it starts, in the order in which it starts them. */
  lemma PoolSchedules(c: P.Config, tr: seq<P.State>, t: nat)
    requires P.Run(c, tr) && t < |tr| && P.Drained(c, tr[t])
    ensures Schedules(tr[t].started, tr[t].errored, c.n)
  {
    P.BoundedAndPaid(c, tr, t);
    if !tr[t].errored {
      forall m: nat | m < c.n ensures m in tr[t].started { P.CompleteWithoutError(c, tr, t, m); }
    }
    hide P.Run, P.Drained;
  }

  /** A run only ever adds entries, and only under keys of its inputs. */
  ghost predicate Grown(ks: seq<Key>, found: map<Key, Value>, entries: map<Key, Value>) {
    && (forall k :: k in found ==> k in entries && entries[k] == found[k])
    && (forall k :: k in entries ==> k in found || k in ks)
  }

  /** The misses of `complete` are stored, each with the value its work returned. */
  ghost predicate Worked(ks: seq<Key>, found: map<Key, Value>, entries: map<Key, Value>, fates: Key -> Fate,
                         outcomes: seq<Outcome>, complete: set<Key>) {
    && Grown(ks, found, entries)
    && |outcomes| == |ks|
    && (forall i :: 0 <= i < |ks| ==> OutcomeOk(found, entries, complete, ks[i], outcomes[i]))
    && (forall k :: k in complete ==> k in entries && k !in found && fates(k) == Stores(entries[k]))
  }

  ghost predicate OutcomeOk(found: map<Key, Value>, entries: map<Key, Value>, complete: set<Key>, k: Key, o: Outcome) {
    && o.Outcome? && o.key == k
    && (o.state.Hit? <==> k in found)
    && (o.state.Stored? ==> k in entries && k !in found)
    && (k in complete ==> o.state.Stored?)
  }

  /** The indices in `now`, and only they, have become stored. */
  ghost predicate Marked(outcomes0: seq<Outcome>, outcomes: seq<Outcome>, now: seq<nat>, k: Key) {
    && |outcomes| == |outcomes0|
    && forall i: nat :: i < |outcomes| ==> outcomes[i] == if i in now then Outcome(k, Stored) else outcomes0[i]
  }

  /** The indexes that hear of a published value: up to the first whose hook fails. */
  function Told(indexes: seq<nat>, hookFails: set<nat>): (r: seq<nat>)
    ensures forall i :: i in r ==> i in indexes
    ensures (forall i :: i in indexes ==> i !in hookFails) ==> r == indexes
  { if indexes == [] then [] else [indexes[0]] + if indexes[0] in hookFails then [] else Told(indexes[1..], hookFails) }

  lemma {:induction false} ToldIs(indexes: seq<nat>, hookFails: set<nat>, p: nat)
    requires p < |indexes| && indexes[p] in hookFails && forall q :: 0 <= q < p ==> indexes[q] !in hookFails
    ensures Told(indexes, hookFails) == indexes[..p + 1]
  {
    if p > 0 { ToldIs(indexes[1..], hookFails, p - 1); }
  }

  /** Tells every index of a published key, until the hook refuses one. */
  method MarkStored(group: Group, hookFails: set<nat>, outcomes0: seq<Outcome>) returns (failed: bool, outcomes: seq<Outcome>)
    requires forall i :: i in group.indexes ==> i < |outcomes0|
    ensures Marked(outcomes0, outcomes, Told(group.indexes, hookFails), group.key)
    ensures failed <==> exists i :: i in group.indexes && i in hookFails
  {
    outcomes := outcomes0;
    var p := 0;
    while p < |group.indexes|
      invariant 0 <= p <= |group.indexes|
      invariant Marked(outcomes0, outcomes, group.indexes[..p], group.key)
      invariant forall q :: 0 <= q < p ==> group.indexes[q] !in hookFails
    {
      var i := group.indexes[p];
      assert i in group.indexes && group.indexes[..p + 1] == group.indexes[..p] + [i];
      outcomes := outcomes[i := Outcome(group.key, Stored)];
      if i in hookFails {
        ToldIs(group.indexes, hookFails, p);
        return true, outcomes;
      }
      p := p + 1;
    }
    failed := false;
    assert group.indexes[..p] == group.indexes;
  }

  lemma MarkedWorked(ks: seq<Key>, found: map<Key, Value>, entries: map<Key, Value>, fates: Key -> Fate, outcomes0: seq<Outcome>,
                     outcomes: seq<Outcome>, complete: set<Key>, now: seq<nat>, k: Key, all: bool)
    requires Worked(ks, found, entries, fates, outcomes0, complete) && k in entries && k !in found && fates(k) == Stores(entries[k])
    requires Marked(outcomes0, outcomes, now, k)
    requires forall i: nat :: i in now ==> i < |ks| && ks[i] == k
    requires all ==> forall i: nat :: i < |ks| && ks[i] == k ==> i in now
    ensures Worked(ks, found, entries, fates, outcomes, if all then complete + {k} else complete)
  {
    var next := if all then complete + {k} else complete;
    forall i: nat | i < |ks| ensures OutcomeOk(found, entries, next, ks[i], outcomes[i]) {
      assert OutcomeOk(found, entries, complete, ks[i], outcomes0[i]);
    }
  }

  lemma WorkedPublish(ks: seq<Key>, found: map<Key, Value>, entries: map<Key, Value>, fates: Key -> Fate, outcomes: seq<Outcome>,
                      complete: set<Key>, k: Key, v: Value)
    requires Worked(ks, found, entries, fates, outcomes, complete) && k in ks && k !in entries
    ensures Worked(ks, found, entries[k := v], fates, outcomes, complete) && k !in found
  {}

  /** Works one miss: the value is published at once, then every index of its key is told. */
  method RunMiss(cache: Cache, group: Group, hookFails: set<nat>, fate: Fate, outcomes0: seq<Outcome>,
                 ghost ks: seq<Key>, ghost found: map<Key, Value>, ghost fates: Key -> Fate, ghost complete: set<Key>)
    returns (failed: bool, wrote: bool, outcomes: seq<Outcome>)
    requires group.key in ks && group.key !in cache.entries && fate == fates(group.key)
    requires group.indexes == IndexesOf(ks, group.key, |ks|)
    requires Worked(ks, found, cache.entries, fates, outcomes0, complete)
    modifies cache
    ensures Worked(ks, found, cache.entries, fates, outcomes, if failed then complete else complete + {group.key})
    ensures cache.entries == After(old(cache.entries), group.key, fate) && wrote == fate.Stores?
    ensures failed <==> !EndsWell(ks, hookFails, fate, group.key)
  {
    outcomes, failed, wrote := outcomes0, true, false;
    if fate.WorkFails? { return; }
    if fate.StoreFails? {
      if fate.published.Some? {
        WorkedPublish(ks, found, cache.entries, fates, outcomes, complete, group.key, fate.published.value);
        cache.Publish(group.key, fate.published.value);
      }
      return;
    }
    WorkedPublish(ks, found, cache.entries, fates, outcomes, complete, group.key, fate.value);
    cache.Publish(group.key, fate.value);
    wrote := true;
    IndexesAre(ks, group.key, |ks|);
    ghost var now := Told(group.indexes, hookFails);
    failed, outcomes := MarkStored(group, hookFails, outcomes);
    forall i | i in now ensures i in group.indexes {}
    MarkedWorked(ks, found, cache.entries, fates, outcomes0, outcomes, complete, now, group.key, !failed);
  }

  /** The keys that start, in the order in which they start. */
  function Started(missKeys: seq<Key>, order: seq<nat>): (r: seq<Key>)
    requires forall t :: 0 <= t < |order| ==> order[t] < |missKeys|
    ensures |r| == |order|
  { seq(|order|, t requires 0 <= t < |order| => missKeys[order[t]]) }

  lemma StartedDistinct(missKeys: seq<Key>, order: seq<nat>)
    requires Distinct(missKeys) && Distinct(order) && forall t :: 0 <= t < |order| ==> order[t] < |missKeys|
    ensures Distinct(Started(missKeys, order))
  {
    var r := Started(missKeys, order);
    forall p, q | 0 <= p < q < |r| ensures r[p] != r[q] {
      if order[p] < order[q] { assert missKeys[order[p]] != missKeys[order[q]]; } else { assert missKeys[order[q]] != missKeys[order[p]]; }
    }
  }

  /** How many of the started misses are stored. */
  function StoresOf(started: seq<Key>, fates: Key -> Fate): nat {
    if started == [] then 0 else StoresOf(started[..|started| - 1], fates) + if fates(started[|started| - 1]).Stores? then 1 else 0
  }

  predicate AllEndWell(ks: seq<Key>, plan: Plan, started: seq<Key>, t: nat)
    requires t <= |started|
  { forall u :: 0 <= u < t ==> EndsWell(ks, plan.hookFails, plan.fates(started[u]), started[u]) }

  /** Where a run stands when the first t started misses have ended. */
  ghost predicate Going(ks: seq<Key>, found: map<Key, Value>, plan: Plan, started: seq<Key>, t: nat, entries: map<Key, Value>,
                        complete: set<Key>, failed: bool, writes: nat) {
    && t <= |started|
    && Left(found, FirstKeys(started, t), plan.fates, entries)
    && |entries| >= |found| + writes && writes == StoresOf(started[..t], plan.fates)
    && (failed <==> !AllEndWell(ks, plan, started, t))
    && (!failed ==> complete == FirstKeys(started, t) && |entries| == |found| + writes && writes == t)
  }

  lemma GoingStart(ks: seq<Key>, found: map<Key, Value>, plan: Plan, started: seq<Key>)
    ensures Going(ks, found, plan, started, 0, found, {}, false, 0)
  {
    forall k ensures LeftAt(found, FirstKeys(started, 0), plan.fates, found, k) {}
  }

  lemma GoOn(ks: seq<Key>, found: map<Key, Value>, plan: Plan, started: seq<Key>, t: nat, entries: map<Key, Value>,
             complete: set<Key>, failed: bool, writes: nat, entries': map<Key, Value>, bad: bool, wrote: bool)
    requires Going(ks, found, plan, started, t, entries, complete, failed, writes)
    requires Distinct(started) && t < |started| && started[t] !in found
    requires entries' == After(entries, started[t], plan.fates(started[t])) && wrote == plan.fates(started[t]).Stores?
    requires bad <==> !EndsWell(ks, plan.hookFails, plan.fates(started[t]), started[t])
    ensures Going(ks, found, plan, started, t + 1, entries', if bad then complete else complete + {started[t]}, failed || bad,
                  writes + if wrote then 1 else 0)
  {
    var k := started[t];
    var fate := plan.fates(k);
    FirstNext(started, t);
    StoresNext(started, t, plan.fates);
    LeftGrows(found, FirstKeys(started, t), plan.fates, entries, k);
    hide Left, LeftAt, EndsWell, FirstKeys, Distinct, StoresOf, After;
    assert AllEndWell(ks, plan, started, t + 1) <==> AllEndWell(ks, plan, started, t) && EndsWell(ks, plan.hookFails, fate, k);
    StoredIfWell(ks, plan.hookFails, fate, k);
  }

  lemma StoresNext(started: seq<Key>, t: nat, fates: Key -> Fate)
    requires t < |started|
    ensures StoresOf(started[..t + 1], fates) == StoresOf(started[..t], fates) + if fates(started[t]).Stores? then 1 else 0
  {
    assert started[..t + 1][..t] == started[..t];
  }

  lemma LeftGrows(found: map<Key, Value>, touched: set<Key>, fates: Key -> Fate, entries: map<Key, Value>, k: Key)
    requires Left(found, touched, fates, entries) && k !in touched && k !in found
    ensures k !in entries && Left(found, touched + {k}, fates, After(entries, k, fates(k)))
    ensures |After(entries, k, fates(k))| == |entries| + if Leaves(fates(k)).Some? then 1 else 0
    ensures fates(k).Stores? ==> Leaves(fates(k)).Some?
  {
    assert LeftAt(found, touched, fates, entries, k);
    LeftMore(found, touched, fates, entries, k);
  }

  lemma StoredIfWell(ks: seq<Key>, hookFails: set<nat>, fate: Fate, k: Key)
    ensures EndsWell(ks, hookFails, fate, k) ==> fate.Stores?
  {}

  /** Runs the started misses, each to its end; a sibling's failure does not undo them. */
  method RunMisses(cache: Cache, missGroups: seq<Group>, plan: Plan, outcomes0: seq<Outcome>, ghost ks: seq<Key>)
    returns (failed: bool, writes: nat, outcomes: seq<Outcome>, ghost complete: set<Key>)
    requires missGroups == GroupsFor(ks, MissKeys(ks, cache.entries)) && Schedules(plan.order, plan.stopped, |missGroups|)
    requires Worked(ks, cache.entries, cache.entries, plan.fates, outcomes0, {}) == true
    modifies cache
    ensures Worked(ks, old(cache.entries), cache.entries, plan.fates, outcomes, complete) == true
    ensures Going(ks, old(cache.entries), plan, Started(MissKeys(ks, old(cache.entries)), plan.order), |plan.order|, cache.entries, complete, failed, writes) == true
  {
    ghost var found, missKeys := cache.entries, MissKeys(ks, cache.entries);
    ghost var started := Started(missKeys, plan.order);
    MissKeysDistinct(ks, found);
    StartedDistinct(missKeys, plan.order);
    failed, writes, outcomes, complete := false, 0, outcomes0, {};
    GoingStart(ks, found, plan, started);
    var t := 0;
    while t < |plan.order|
      invariant 0 <= t <= |plan.order|
      invariant Worked(ks, found, cache.entries, plan.fates, outcomes, complete) == true
      invariant Going(ks, found, plan, started, t, cache.entries, complete, failed, writes) == true
    {
      failed, writes, outcomes, complete := RunTurn(cache, missGroups[plan.order[t]], plan, t, failed, writes, outcomes, ks, found, started, complete);
      t := t + 1;
    }
  }

  method RunTurn(cache: Cache, group: Group, plan: Plan, ghost t: nat, failed0: bool, writes0: nat, outcomes0: seq<Outcome>,
                 ghost ks: seq<Key>, ghost found: map<Key, Value>, ghost started: seq<Key>, ghost complete0: set<Key>)
    returns (failed: bool, writes: nat, outcomes: seq<Outcome>, ghost complete: set<Key>)
    requires Schedules(plan.order, plan.stopped, |MissKeys(ks, found)|) && t < |plan.order| && started == Started(MissKeys(ks, found), plan.order)
    requires group == Group(started[t], IndexesOf(ks, started[t], |ks|)) && Distinct(started)
    requires Worked(ks, found, cache.entries, plan.fates, outcomes0, complete0) == true
    requires Going(ks, found, plan, started, t, cache.entries, complete0, failed0, writes0) == true
    modifies cache
    ensures Worked(ks, found, cache.entries, plan.fates, outcomes, complete) == true
    ensures Going(ks, found, plan, started, t + 1, cache.entries, complete, failed, writes) == true
  {
    ghost var before := cache.entries;
    FreshMiss(ks, found, plan, before, t, complete0, failed0, writes0);
    var bad, wrote;
    bad, wrote, outcomes := RunMiss(cache, group, plan.hookFails, plan.fates(group.key), outcomes0, ks, found, plan.fates, complete0);
    GoOn(ks, found, plan, started, t, before, complete0, failed0, writes0, cache.entries, bad, wrote);
    complete := if bad then complete0 else complete0 + {group.key};
    failed, writes := failed0 || bad, writes0 + if wrote then 1 else 0;
  }

  lemma MissKeysDistinct(ks: seq<Key>, found: map<Key, Value>)
    ensures Distinct(MissKeys(ks, found))
  {
    UniquesAre(ks, |ks|);
    WithoutAre(Uniques(ks, |ks|), found);
  }

  /** A miss that starts is not stored yet. */
  lemma FreshMiss(ks: seq<Key>, found: map<Key, Value>, plan: Plan, entries: map<Key, Value>, t: nat, complete: set<Key>, failed: bool, writes: nat)
    requires Schedules(plan.order, plan.stopped, |MissKeys(ks, found)|) && t < |plan.order|
    requires Going(ks, found, plan, Started(MissKeys(ks, found), plan.order), t, entries, complete, failed, writes)
    ensures var k := MissKeys(ks, found)[plan.order[t]]; k in ks && k !in entries && k !in found && k == Started(MissKeys(ks, found), plan.order)[t]
  {
    var missKeys := MissKeys(ks, found);
    MissKeysDistinct(ks, found);
    StartedDistinct(missKeys, plan.order);
    var k := missKeys[plan.order[t]];
    assert k in missKeys && Started(missKeys, plan.order)[t] == k;
    InMissKeys(ks, found, k);
    assert LeftAt(found, FirstKeys(Started(missKeys, plan.order), t), plan.fates, entries, k);
  }

  // ----- the memoized map ----------------------------------------------------------------------------

  /** What every run tells and leaves behind, whether it fails or not. */
  ghost predicate Ran(keys: seq<KeyResult>, found: map<Key, Value>, entries: map<Key, Value>, out: Option<seq<Value>>, r: Report) {
    && |r.outcomes| == |keys| && r.hits + r.misses <= |keys|
    && (forall k :: k in found ==> k in entries && entries[k] == found[k])
    && (forall k :: k in entries && k !in found ==> Built(k) in keys)
    && |entries| >= |found| + r.writes
    && (forall i :: 0 <= i < |keys| ==> Truthful(keys[i], found, entries, r.outcomes[i]))
    && (out.Some? ==> Succeeded(keys, found, entries, out.value, r))
  }

  ghost predicate Truthful(key: KeyResult, found: map<Key, Value>, entries: map<Key, Value>, o: Outcome) {
    o.Outcome? ==>
      && key == Built(o.key)
      && (o.state.Hit? ==> o.key in found)
      && (o.state.Stored? ==> o.key in entries && o.key !in found)
  }

  /** A run without an error: every input has the stored value of its key, nothing is pending, and
      exactly the keys that were not stored before have been written. */
  ghost predicate Succeeded(keys: seq<KeyResult>, found: map<Key, Value>, entries: map<Key, Value>, results: seq<Value>, r: Report) {
    && AllBuilt(keys, |keys|) && |results| == |r.outcomes| == |keys|
    && (forall i :: 0 <= i < |keys| ==> InputDone(found, entries, keys[i].key, results[i], r.outcomes[i]))
    && r.hits == Counted(KeysOf(keys, |keys|), |keys|, found.Keys) && r.hits + r.misses == |keys|
    && (forall k :: k in entries <==> k in found || Built(k) in keys)
    && |entries| == |found| + r.writes
  }

  /** One input of a run without an error. */
  ghost predicate InputDone(found: map<Key, Value>, entries: map<Key, Value>, k: Key, v: Value, o: Outcome) {
    k in entries && v == entries[k] && o == Outcome(k, if k in found then Hit else Stored)
  }

  /** Every index of a missed key has that key's value, and the others are as before. */
  ghost predicate Fanned(ks: seq<Key>, filled: set<Key>, now: seq<nat>, fates: Key -> Fate, results0: map<nat, Value>, results: map<nat, Value>) {
    forall i: nat :: i < |ks| ==>
      if ks[i] in filled || i in now then fates(ks[i]).Stores? ==> i in results && results[i] == fates(ks[i]).value
      else i in results0 ==> i in results && results[i] == results0[i]
  }

  /** Copies the completed values to every index of their keys. */
  method Fan(missGroups: seq<Group>, fates: Key -> Fate, results0: map<nat, Value>, ghost ks: seq<Key>, ghost missKeys: seq<Key>)
    returns (results: map<nat, Value>)
    requires missGroups == GroupsFor(ks, missKeys) && forall k :: k in missKeys ==> fates(k).Stores?
    ensures Fanned(ks, FirstKeys(missKeys, |missKeys|), [], fates, results0, results)
  {
    results := results0;
    var m := 0;
    while m < |missGroups|
      invariant 0 <= m <= |missGroups|
      invariant Fanned(ks, FirstKeys(missKeys, m), [], fates, results0, results)
    {
      var group, p := missGroups[m], 0;
      assert missKeys[m] in missKeys && missKeys[..m + 1] == missKeys[..m] + [missKeys[m]];
      IndexesAre(ks, group.key, |ks|);
      while p < |group.indexes|
        invariant 0 <= p <= |group.indexes|
        invariant Fanned(ks, FirstKeys(missKeys, m), group.indexes[..p], fates, results0, results)
      {
        var i := group.indexes[p];
        assert i in group.indexes && group.indexes[..p + 1] == group.indexes[..p] + [i];
        results := results[i := fates(group.key).value];
        p := p + 1;
      }
      assert group.indexes[..p] == group.indexes;
      m := m + 1;
    }
  }

  /** Every new entry is what the work for its key returned. */
  ghost predicate FromFates(found: map<Key, Value>, entries: map<Key, Value>, fates: Key -> Fate) {
    forall k :: k in entries && k !in found ==> fates(k) == Stores(entries[k])
  }

  /** A run reaches its misses when every key can be built and looked up. */
  predicate Reaches(keys: seq<KeyResult>, found: map<Key, Value>, loadFails: set<Key>, hookFails: set<nat>) {
    AllBuilt(keys, |keys|) && AllLoad(KeysOf(keys, |keys|), found, loadFails, hookFails)
  }

  /** What one input needs for the run to succeed. */
  predicate InputClear(plan: Plan, found: map<Key, Value>, k: Key, i: nat) {
    k !in plan.loadFails && i !in plan.hookFails && (k !in found ==> !plan.stopped && plan.fates(k).Stores?)
  }

  predicate Clear(keys: seq<KeyResult>, found: map<Key, Value>, plan: Plan) {
    forall i :: 0 <= i < |keys| ==> keys[i].Built? && InputClear(plan, found, keys[i].key, i)
  }

  /** Every input is counted once: as a hit if its key was in the store, and otherwise as a miss. */
  ghost predicate Loaded(keys: seq<KeyResult>, found: map<Key, Value>, hits: nat, misses: nat) {
    AllBuilt(keys, |keys|) && hits == Counted(KeysOf(keys, |keys|), |keys|, found.Keys) && hits + misses == |keys|
  }

  /** Exactly what a run has done to the store, and has called, when it ends, whether it fails or not. */
  ghost predicate Accounted(keys: seq<KeyResult>, found: map<Key, Value>, plan: Plan, entries: map<Key, Value>, r: Report)
    requires AllBuilt(keys, |keys|) ==> Schedules(plan.order, plan.stopped, |MissKeys(KeysOf(keys, |keys|), found)|)
  {
    if Reaches(keys, found, plan.loadFails, plan.hookFails) then
      var started := Started(MissKeys(KeysOf(keys, |keys|), found), plan.order);
      r.workCalls == |started| && r.writes == StoresOf(started, plan.fates) && Left(found, FirstKeys(started, |started|), plan.fates, entries)
    else r.workCalls == 0 == r.writes && entries == found
  }

  method MapCached(cache: Cache, keys: seq<KeyResult>, plan: Plan) returns (out: Option<seq<Value>>, r: Report)
    requires AllBuilt(keys, |keys|) ==> Schedules(plan.order, plan.stopped, |MissKeys(KeysOf(keys, |keys|), cache.entries)|)
    modifies cache
    ensures Ran(keys, old(cache.entries), cache.entries, out, r)
    ensures Accounted(keys, old(cache.entries), plan, cache.entries, r)
    ensures Reaches(keys, old(cache.entries), plan.loadFails, plan.hookFails) ==> Loaded(keys, old(cache.entries), r.hits, r.misses)
    ensures out.Some? <==> Clear(keys, old(cache.entries), plan)
    ensures out.Some? ==> r.workCalls == r.writes && FromFates(old(cache.entries), cache.entries, plan.fates)
  {
    ClearReaches(keys, cache.entries, plan);
    var bad, groups, outcomes := GroupKeys(keys);
    if bad.Some? { return None, Report(0, 0, 0, 0, outcomes); }
    ghost var found := cache.entries;
    var ks := KeysOf(keys, |keys|);
    var failed, results, hits, misses, missGroups;
    failed, outcomes, results, hits, misses, missGroups := LoadGroups(cache.entries, ks, groups, plan.loadFails, plan.hookFails, outcomes);
    if failed { return None, Report(hits, misses, 0, 0, outcomes); }
    out, r := RunAndFan(cache, keys, ks, missGroups, plan, outcomes, results, hits, misses);
  }

  lemma ClearReaches(keys: seq<KeyResult>, found: map<Key, Value>, plan: Plan)
    ensures Clear(keys, found, plan) ==> Reaches(keys, found, plan.loadFails, plan.hookFails)
  {
    if Clear(keys, found, plan) {
      assert AllBuilt(keys, |keys|);
      var ks := KeysOf(keys, |keys|);
      forall k | k in ks ensures Loads(ks, found, plan.loadFails, plan.hookFails, k) {
        forall i: nat | i < |ks| && ks[i] == k ensures k !in plan.loadFails && i !in plan.hookFails { assert InputClear(plan, found, keys[i].key, i); }
      }
    }
  }

  /** The part of a run after its loads. */
  method RunAndFan(cache: Cache, keys: seq<KeyResult>, ks: seq<Key>, missGroups: seq<Group>, plan: Plan, loaded: seq<Outcome>,
                   hitResults: map<nat, Value>, hits: nat, misses: nat)
    returns (out: Option<seq<Value>>, r: Report)
    requires AllBuilt(keys, |keys|) && ks == KeysOf(keys, |keys|) && Reaches(keys, cache.entries, plan.loadFails, plan.hookFails)
    requires missGroups == GroupsFor(ks, MissKeys(ks, cache.entries)) && Schedules(plan.order, plan.stopped, |missGroups|)
    requires Looked(ks, cache.entries, set k | k in ks, [], loaded, hitResults) == true
    requires hits == Counted(ks, |ks|, cache.entries.Keys) && hits + misses == |ks|
    modifies cache
    ensures Ran(keys, old(cache.entries), cache.entries, out, r) == true
    ensures Accounted(keys, old(cache.entries), plan, cache.entries, r) == true && r.hits == hits && r.misses == misses
    ensures out.Some? == Clear(keys, old(cache.entries), plan)
    ensures out.Some? ==> r.workCalls == r.writes && FromFates(old(cache.entries), cache.entries, plan.fates) == true
  {
    ghost var found := cache.entries;
    LookedWorks(ks, found, plan.fates, loaded, hitResults);
    var failed, writes, outcomes;
    ghost var complete;
    failed, writes, outcomes, complete := RunMisses(cache, missGroups, plan, loaded, ks);
    ghost var missKeys := MissKeys(ks, found);
    r := Report(hits, misses, writes, |plan.order|, outcomes);
    RanSoFar(keys, found, cache.entries, plan.fates, outcomes, complete, r);
    AccountedFor(keys, found, plan, cache.entries, complete, failed, r);
    ClearIs(keys, found, plan);
    if failed || (plan.stopped && missGroups != []) { return None, r; }
    EndsComplete(ks, found, missKeys, plan, cache.entries, outcomes, complete, writes);
    var results := Fan(missGroups, plan.fates, hitResults, ks, missKeys);
    FanSucceeds(keys, found, plan.fates, cache.entries, complete, loaded, hitResults, results, r);
    var list := Listed(results, |keys|);
    RanDone(keys, found, cache.entries, list, r);
    out := Some(list);
  }

  lemma AccountedFor(keys: seq<KeyResult>, found: map<Key, Value>, plan: Plan, entries: map<Key, Value>, complete: set<Key>, failed: bool, r: Report)
    requires Reaches(keys, found, plan.loadFails, plan.hookFails) && Schedules(plan.order, plan.stopped, |MissKeys(KeysOf(keys, |keys|), found)|)
    requires var ks := KeysOf(keys, |keys|);
      Going(ks, found, plan, Started(MissKeys(ks, found), plan.order), |plan.order|, entries, complete, failed, r.writes)
    requires r.workCalls == |plan.order|
    ensures Accounted(keys, found, plan, entries, r)
  {
    var started := Started(MissKeys(KeysOf(keys, |keys|), found), plan.order);
    assert started[..|started|] == started;
  }

  /** A run that reached its misses succeeds exactly when all of them start and end well. */
  lemma ClearIs(keys: seq<KeyResult>, found: map<Key, Value>, plan: Plan)
    requires Reaches(keys, found, plan.loadFails, plan.hookFails) && Schedules(plan.order, plan.stopped, |MissKeys(KeysOf(keys, |keys|), found)|)
    ensures var ks := KeysOf(keys, |keys|);
      var missKeys := MissKeys(ks, found);
      Clear(keys, found, plan) <==> (plan.stopped ==> missKeys == []) && AllEndWell(ks, plan, Started(missKeys, plan.order), |plan.order|)
  {
    var ks := KeysOf(keys, |keys|);
    var missKeys := MissKeys(ks, found);
    var started := Started(missKeys, plan.order);
    if Clear(keys, found, plan) {
      forall k | k in missKeys ensures !plan.stopped && EndsWell(ks, plan.hookFails, plan.fates(k), k) {
        InMissKeys(ks, found, k);
        forall i: nat | i < |ks| && ks[i] == k ensures i !in plan.hookFails && !plan.stopped && plan.fates(k).Stores? {
          assert InputClear(plan, found, keys[i].key, i);
        }
      }
      assert plan.stopped ==> missKeys == [] by { if missKeys != [] { assert missKeys[0] in missKeys; } }
      forall u | 0 <= u < |started| ensures EndsWell(ks, plan.hookFails, plan.fates(started[u]), started[u]) { assert started[u] in missKeys; }
    }
    if (plan.stopped ==> missKeys == []) && AllEndWell(ks, plan, started, |plan.order|) {
      forall i | 0 <= i < |keys| ensures InputClear(plan, found, keys[i].key, i) {
        var k := keys[i].key;
        assert ks[i] == k && k in ks && Loads(ks, found, plan.loadFails, plan.hookFails, k);
        InMissKeys(ks, found, k);
        if k !in found {
          AllStarted(missKeys, plan, k);
          var u :| 0 <= u < |started| && started[u] == k;
          assert EndsWell(ks, plan.hookFails, plan.fates(k), k);
        }
      }
    }
  }

  lemma LookedWorks(ks: seq<Key>, found: map<Key, Value>, fates: Key -> Fate, outcomes: seq<Outcome>, results: map<nat, Value>)
    requires Looked(ks, found, set k | k in ks, [], outcomes, results)
    ensures Worked(ks, found, found, fates, outcomes, {})
  {
    forall i: nat | i < |ks| ensures OutcomeOk(found, found, {}, ks[i], outcomes[i]) { assert ks[i] in ks; }
  }

  lemma RanSoFar(keys: seq<KeyResult>, found: map<Key, Value>, entries: map<Key, Value>, fates: Key -> Fate, outcomes: seq<Outcome>,
                 complete: set<Key>, r: Report)
    requires AllBuilt(keys, |keys|) && Worked(KeysOf(keys, |keys|), found, entries, fates, outcomes, complete)
    requires r.outcomes == outcomes && r.hits + r.misses <= |keys| && |entries| >= |found| + r.writes
    ensures Ran(keys, found, entries, None, r)
  {
    var ks := KeysOf(keys, |keys|);
    forall i | 0 <= i < |keys| ensures Truthful(keys[i], found, entries, outcomes[i]) {
      assert OutcomeOk(found, entries, complete, ks[i], outcomes[i]);
    }
    forall k | k in entries && k !in found ensures Built(k) in keys {
      var i :| 0 <= i < |ks| && ks[i] == k;
      assert keys[i] == Built(k);
    }
  }

  /** Where a run stands whose misses have all ended well. */
  lemma EndsComplete(ks: seq<Key>, found: map<Key, Value>, missKeys: seq<Key>, plan: Plan, entries: map<Key, Value>, outcomes: seq<Outcome>,
                     complete: set<Key>, writes: nat)
    requires missKeys == MissKeys(ks, found) && Schedules(plan.order, plan.stopped, |missKeys|) && (plan.stopped ==> missKeys == [])
    requires Worked(ks, found, entries, plan.fates, outcomes, complete)
    requires Going(ks, found, plan, Started(missKeys, plan.order), |plan.order|, entries, complete, false, writes)
    ensures complete == FirstKeys(missKeys, |missKeys|) && forall k :: k in complete <==> k in ks && k !in found
    ensures writes == |plan.order| && |entries| == |found| + writes
    ensures (forall k :: k in missKeys ==> plan.fates(k).Stores?) && FromFates(found, entries, plan.fates) == true
  {
    AllComplete(ks, found, missKeys, plan, complete);
    FatesOf(ks, found, entries, plan.fates, outcomes, complete);
    forall k | k in missKeys ensures k in complete { InMissKeys(ks, found, k); }
    hide Left, Worked, AllEndWell, StoresOf;
  }

  /** Without a failure, and with every miss started, every missing key is complete. */
  lemma AllComplete(ks: seq<Key>, found: map<Key, Value>, missKeys: seq<Key>, plan: Plan, complete: set<Key>)
    requires missKeys == MissKeys(ks, found) && Schedules(plan.order, plan.stopped, |missKeys|) && (plan.stopped ==> missKeys == [])
    requires complete == FirstKeys(Started(missKeys, plan.order), |plan.order|)
    ensures complete == FirstKeys(missKeys, |missKeys|)
    ensures forall k :: k in complete <==> k in ks && k !in found
  {
    var started := Started(missKeys, plan.order);
    assert started[..|plan.order|] == started && missKeys[..|missKeys|] == missKeys;
    hide MissKeys, Schedules;
    forall k ensures (k in complete <==> k in missKeys) && (k in complete <==> k in ks && k !in found) {
      AllStarted(missKeys, plan, k);
      InMissKeys(ks, found, k);
    }
  }

  lemma InMissKeys(ks: seq<Key>, found: map<Key, Value>, k: Key)
    ensures k in MissKeys(ks, found) <==> k in ks && k !in found
  {
    UniquesAre(ks, |ks|);
    WithoutAre(Uniques(ks, |ks|), found);
    if k in ks { var i :| 0 <= i < |ks| && ks[i] == k; assert k in Uniques(ks, |ks|); }
    if k in Uniques(ks, |ks|) { var i :| 0 <= i < |ks| && ks[i] == k; }
  }

  lemma AllStarted(missKeys: seq<Key>, plan: Plan, k: Key)
    requires Schedules(plan.order, plan.stopped, |missKeys|) && (plan.stopped ==> missKeys == [])
    ensures k in missKeys <==> k in Started(missKeys, plan.order)
  {
    var started := Started(missKeys, plan.order);
    if k in missKeys {
      var m: nat :| m < |missKeys| && missKeys[m] == k;
      assert m in plan.order;
      var t :| 0 <= t < |plan.order| && plan.order[t] == m;
      assert started[t] == k;
    }
    if k in started {
      var t :| 0 <= t < |started| && started[t] == k;
      assert missKeys[plan.order[t]] == k;
    }
  }

  /** Hits and completed misses together are all the results. */
  ghost predicate Filled(ks: seq<Key>, found: map<Key, Value>, entries: map<Key, Value>, outcomes: seq<Outcome>, results: map<nat, Value>) {
    |outcomes| == |ks| && forall i: nat :: i < |ks| ==> i in results && InputDone(found, entries, ks[i], results[i], outcomes[i])
  }

  lemma AllThere(ks: seq<Key>, found: map<Key, Value>, fates: Key -> Fate, entries: map<Key, Value>, outcomes: seq<Outcome>,
                 complete: set<Key>, loaded: seq<Outcome>, before: map<nat, Value>, results: map<nat, Value>)
    requires Worked(ks, found, entries, fates, outcomes, complete) && Looked(ks, found, set k | k in ks, [], loaded, before)
    requires Fanned(ks, complete, [], fates, before, results) && forall k :: k in complete <==> k in ks && k !in found
    ensures Filled(ks, found, entries, outcomes, results)
  {
    forall i: nat | i < |ks| ensures i in results && InputDone(found, entries, ks[i], results[i], outcomes[i]) {
      assert ks[i] in ks && OutcomeOk(found, entries, complete, ks[i], outcomes[i]);
    }
  }

  function Listed(results: map<nat, Value>, n: nat): (list: seq<Value>)
    requires forall i: nat :: i < n ==> i in results
    ensures |list| == n && forall i :: 0 <= i < n ==> list[i] == results[i]
  { seq(n, i requires 0 <= i < n => results[i]) }

  lemma FilledSucceeds(keys: seq<KeyResult>, found: map<Key, Value>, entries: map<Key, Value>, results: map<nat, Value>, list: seq<Value>, r: Report)
    requires |list| == |keys| && forall i: nat :: i < |keys| ==> i in results && list[i] == results[i]
    requires AllBuilt(keys, |keys|) && Filled(KeysOf(keys, |keys|), found, entries, r.outcomes, results)
    requires Grown(KeysOf(keys, |keys|), found, entries) && |entries| == |found| + r.writes
    requires r.hits == Counted(KeysOf(keys, |keys|), |keys|, found.Keys) && r.hits + r.misses == |keys|
    ensures Succeeded(keys, found, entries, list, r)
  {
    NewKeys(keys, found, entries, r.outcomes, results);
    hide Counted, Grown, InputDone;
    forall i: nat | i < |keys| ensures InputDone(found, entries, keys[i].key, list[i], r.outcomes[i]) {
      FilledAt(keys, found, entries, r.outcomes, results, i);
    }
    hide Filled, KeysOf;
  }

  lemma FilledAt(keys: seq<KeyResult>, found: map<Key, Value>, entries: map<Key, Value>, outcomes: seq<Outcome>, results: map<nat, Value>, i: nat)
    requires AllBuilt(keys, |keys|) && Filled(KeysOf(keys, |keys|), found, entries, outcomes, results) && i < |keys|
    ensures |outcomes| == |keys| && i in results && InputDone(found, entries, keys[i].key, results[i], outcomes[i])
  {
    hide InputDone;
    assert KeysOf(keys, |keys|)[i] == keys[i].key;
  }

  lemma FanSucceeds(keys: seq<KeyResult>, found: map<Key, Value>, fates: Key -> Fate, entries: map<Key, Value>, complete: set<Key>,
                    loaded: seq<Outcome>, before: map<nat, Value>, results: map<nat, Value>, r: Report)
    requires AllBuilt(keys, |keys|)
    requires var ks := KeysOf(keys, |keys|);
      && Worked(ks, found, entries, fates, r.outcomes, complete) && Looked(ks, found, set k | k in ks, [], loaded, before)
      && Fanned(ks, complete, [], fates, before, results) && (forall k :: k in complete <==> k in ks && k !in found)
      && r.hits == Counted(ks, |keys|, found.Keys) && r.hits + r.misses == |keys| && |entries| == |found| + r.writes
    ensures forall i: nat :: i < |keys| ==> i in results
    ensures Succeeded(keys, found, entries, Listed(results, |keys|), r)
  {
    var ks := KeysOf(keys, |keys|);
    AllThere(ks, found, fates, entries, r.outcomes, complete, loaded, before, results);
    hide Looked, Worked, Fanned, Counted;
    FilledSucceeds(keys, found, entries, results, Listed(results, |keys|), r);
  }

  lemma FatesOf(ks: seq<Key>, found: map<Key, Value>, entries: map<Key, Value>, fates: Key -> Fate, outcomes: seq<Outcome>, complete: set<Key>)
    requires Worked(ks, found, entries, fates, outcomes, complete) && forall k :: k in complete <==> k in ks && k !in found
    ensures FromFates(found, entries, fates) && forall k :: k in complete ==> fates(k).Stores?
  {
    hide OutcomeOk;
  }

  lemma RanDone(keys: seq<KeyResult>, found: map<Key, Value>, entries: map<Key, Value>, list: seq<Value>, r: Report)
    requires Ran(keys, found, entries, None, r) && Succeeded(keys, found, entries, list, r)
    ensures Ran(keys, found, entries, Some(list), r)
  {
    hide Succeeded, Truthful;
  }

  lemma NewKeys(keys: seq<KeyResult>, found: map<Key, Value>, entries: map<Key, Value>, outcomes: seq<Outcome>, results: map<nat, Value>)
    requires AllBuilt(keys, |keys|) && Filled(KeysOf(keys, |keys|), found, entries, outcomes, results)
    requires Grown(KeysOf(keys, |keys|), found, entries)
    ensures forall k :: k in entries <==> k in found || Built(k) in keys
  {
    var ks := KeysOf(keys, |keys|);
    forall k ensures k in entries <==> k in found || Built(k) in keys {
      BuiltKeys(keys, k);
      if k in ks { var i: nat :| i < |ks| && ks[i] == k; }
    }
  }

  lemma BuiltKeys(keys: seq<KeyResult>, k: Key)
    requires AllBuilt(keys, |keys|)
    ensures Built(k) in keys <==> k in KeysOf(keys, |keys|)
  {
    var ks := KeysOf(keys, |keys|);
    if k in ks { var i :| 0 <= i < |ks| && ks[i] == k; assert keys[i] == Built(k); }
    if Built(k) in keys { var i :| 0 <= i < |keys| && keys[i] == Built(k); assert ks[i] == k; }
  }
}
