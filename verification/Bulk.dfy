/**
 The bulk step: unique misses go to the provider in batches, each batch is admitted, retried and
 classified as a whole, and every result is committed under its own key.
 */
module Bulk {
  import opened Common
  import A = Admission
  import opened BulkScript
  import opened CachedMap
  import opened CachedBatches
  import opened Chunks

  datatype Result = Done(value: Value, state: CacheState) | Quarantined(index: nat, cls: Class, attempts: nat) | Skipped

  datatype BulkPlan = BulkPlan(loadFails: set<Key>, hookFails: set<nat>, order: seq<nat>, attempts: (nat, nat) -> Attempt,
                               fates: Key -> Fate, flagFails: set<nat>, stopped: bool)

  /** The step's counters, shared by its batch workers under a mutex; `calls` lists the sizes of the
      bulk calls made. */
  class Tally {
    var sequences: nat
    var workCalls: nat
    var retries: nat
    var stored: nat
    var quarantined: nat
    var skipped: nat
    ghost var calls: seq<nat>

    ghost predicate Valid() reads this`workCalls, this`calls { workCalls == |calls| }

    /** The counter of the items flagged under a mode, and the one that mode leaves alone. */
    function Flags(mode: Mode): nat reads this`quarantined, this`skipped { if mode.Skip? then skipped else quarantined }
    function Others(mode: Mode): nat reads this`quarantined, this`skipped { if mode.Skip? then quarantined else skipped }

    constructor ()
      ensures Valid() && calls == [] && sequences == retries == stored == quarantined == skipped == 0
    { sequences, workCalls, retries, stored, quarantined, skipped, calls := 0, 0, 0, 0, 0, 0, []; }

    /** An admitted call has been made. */
    method Called(units: nat, first: bool)
      requires Valid()
      modifies this
      ensures Valid() && calls == old(calls) + [units] && workCalls == old(workCalls) + 1
      ensures sequences == old(sequences) + if first then 1 else 0
      ensures retries == old(retries) && stored == old(stored) && quarantined == old(quarantined) && skipped == old(skipped)
    { workCalls, sequences, calls := workCalls + 1, sequences + if first then 1 else 0, calls + [units]; }
  }

  // ----- paying for a call, and calling -----------------------------------------------------------------

  /** The accounts hold what the wallet says, and are those that the purse charges. */
  ghost predicate Carries(purse: Purse, w: Wallet)
    reads w.balance.Keys
  {
    w == WalletOf(purse, w.balance) && A.Records(w.balance) && forall b :: b in w.marks ==> b in w.balance
  }

  /** No budget is overdrawn by what has been paid, if none was before. */
  ghost predicate Solvent(w: Wallet, paid: int) { A.Within(w.balance) ==> A.Within(w.After(paid).balance) }

  /** Pays for one call: every occurrence of every account is charged, or, if the environment or any account
      refuses, none is. */
  method Pay(purse: Purse, now: Attempt, units: nat, ghost w: Wallet) returns (paid: bool)
    requires Carries(purse, w) && !now.Cancelled?
    modifies w.balance.Keys
    ensures paid <==> !Heard(now, w, units).Refused?
    ensures A.Records(if paid then w.After(units).balance else w.balance)
    ensures paid ==> Solvent(w, units)
  {
    var refused := A.Admit(purse.limiters, purse.names, now.Refused?, units, w.balance);
    paid := refused.None? && !now.Refused?;
    if paid && A.Within(w.balance) { StaysWithin(w, units); }
    if refused.None? && now.Refused? {
      assert w.marks == multiset{};
      A.NothingMoves(w.balance, units);
    }
  }

  /** `heard` is what becomes of attempt a of a batch in a script that the environment lets through. */
  ghost predicate Hears(heard: Script, script: Script, b: nat, units: nat, w: Wallet, a: nat) {
    heard(b, a) == HeardAt(script(b, a), w, units, a)
  }

  ghost predicate Faces(heard: Script, script: Script, b: nat, units: nat, w: Wallet) {
    forall a: nat :: a >= 1 ==> Hears(heard, script, b, units, w, a)
  }

  lemma FacesAt(heard: Script, script: Script, b: nat, units: nat, w: Wallet, a: nat)
    requires Faces(heard, script, b, units, w) && a >= 1
    ensures heard(b, a) == Heard(script(b, a), w.After(A.Times(units, a - 1)), units)
  {
    assert Hears(heard, script, b, units, w, a);
  }

  /** The accounts hold what is left after `paid` units, and no budget is overdrawn by that. */
  ghost predicate Holding(w: Wallet, paid: int)
    reads w.balance.Keys
  { A.Records(w.After(paid).balance) && Solvent(w, paid) }

  /** The same, in a form that is only taken apart where `HoldingIs` asks for it. */
  ghost predicate Settled(w: Wallet, paid: int)
    reads w.balance.Keys
  { forall p: int :: p == paid ==> Holding(w, p) }

  lemma HoldingIs(w: Wallet, paid: int)
    ensures Settled(w, paid) == Holding(w, paid)
  {}

  lemma NothingPaid(w: Wallet)
    requires A.Records(w.balance)
    ensures Settled(w, 0) == true
  {
    ChargedNothing(w.balance, w.marks);
    HoldingIs(w, 0);
  }

  /** One more call is one more payment. */
  lemma PaidMore(w: Wallet, units: nat, k: nat)
    ensures w.After(A.Times(units, k)).After(units).balance == w.After(A.Times(units, k + 1)).balance
    ensures w.After(A.Times(units, k)).balance.Keys == w.balance.Keys
    ensures Solvent(w, A.Times(units, k)) && Solvent(w.After(A.Times(units, k)), units) ==> Solvent(w, A.Times(units, k + 1))
  {
    ChargedOn(w.balance, w.marks, A.Times(units, k), units);
  }

  /** Pays for attempt a of a batch, whose earlier attempts have been paid. */
  method PayAttempt(purse: Purse, units: nat, script: Script, b: nat, a: nat, ghost heard: Script, ghost w: Wallet) returns (paid: bool)
    requires a >= 1 && w == WalletOf(purse, w.balance) && (forall x :: x in w.marks ==> x in w.balance)
    requires Faces(heard, script, b, units, w) == true && Settled(w, A.Times(units, a - 1)) == true
    modifies w.balance.Keys
    ensures paid == !(heard(b, a).Cancelled? || heard(b, a).Refused?) && (paid ==> heard(b, a) == script(b, a))
    ensures Settled(w, A.Times(units, if paid then a else a - 1)) == true
  {
    var now := script(b, a);
    FacesAt(heard, script, b, units, w, a);
    if now.Cancelled? { return false; }
    PaidMore(w, units, a - 1);
    HoldingIs(w, A.Times(units, a - 1));
    paid := Pay(purse, now, units, w.After(A.Times(units, a - 1)));
    HoldingIs(w, A.Times(units, if paid then a else a - 1));
  }

  /** One attempt: pay, call, and judge what comes back. */
  method Attempted(tally: Tally, purse: Purse, units: nat, attempts: nat, mode: Mode, script: Script, b: nat, a: nat, ghost heard: Script, ghost w: Wallet)
    returns (again: bool, end: End)
    requires tally.Valid() && 1 <= a <= attempts && w == WalletOf(purse, w.balance) && (forall x :: x in w.marks ==> x in w.balance)
    requires Faces(heard, script, b, units, w) == true && Settled(w, A.Times(units, a - 1)) == true
    modifies tally, w.balance.Keys
    ensures tally.Valid() && tally.stored == old(tally.stored) && tally.quarantined == old(tally.quarantined) && tally.skipped == old(tally.skipped)
    ensures again == Retried(heard, b, a, attempts) && (!again ==> end == EndAt(heard(b, a), a, attempts, mode))
    ensures tally.calls == old(tally.calls) + Same(units, CallsAt(heard(b, a)))
    ensures tally.retries == old(tally.retries) + RetriesAt(heard(b, a), a, attempts)
    ensures tally.sequences == old(tally.sequences) + if a == 1 then CallsAt(heard(b, a)) else 0
    ensures Settled(w, A.Times(units, a - 1 + CallsAt(heard(b, a)))) == true
  {
    var paid := PayAttempt(purse, units, script, b, a, heard, w);
    again, end := false, Broke;
    if !paid {
      assert tally.calls == old(tally.calls) + Same(units, 0);
      return;
    }
    var now := script(b, a);
    tally.Called(units, a == 1);
    assert Same(units, 1) == [units];
    if now.MeterFails? || now.WrongCount? { return; }
    if now.Answers? { return false, Got; }
    if now.done || now.cls == Unknown { return; }
    if now.cls == Transient && a < attempts {
      tally.retries := tally.retries + 1;
      again := !now.journalFails;
    } else if now.cls != Fatal && mode != FailFast {
      end := Flagged(now.cls, a);
    }
  }

  /** Admits and calls until an answer, a permanent failure, or the last attempt.  Only its calls are paid,
      each by every item of the batch. */
  method TryBatch(tally: Tally, purse: Purse, units: nat, attempts: nat, mode: Mode, script: Script, b: nat, ghost heard: Script, ghost w: Wallet)
    returns (end: End)
    requires tally.Valid() && attempts >= 1 && Carries(purse, w) == true && Faces(heard, script, b, units, w) == true
    modifies tally, w.balance.Keys
    ensures tally.Valid() && tally.stored == old(tally.stored) && tally.quarantined == old(tally.quarantined) && tally.skipped == old(tally.skipped)
    ensures end == EndOf(heard, b, attempts, mode)
    ensures tally.calls == old(tally.calls) + Same(units, CallsOf(heard, b, attempts))
    ensures tally.retries == old(tally.retries) + RetriesOf(heard, b, attempts)
    ensures tally.sequences == old(tally.sequences) + if CallsOf(heard, b, attempts) > 0 then 1 else 0
    ensures Settled(w, A.Times(units, CallsOf(heard, b, attempts))) == true
  {
    var attempt := 1;
    assert tally.calls == old(tally.calls) + Same(units, 0);
    NothingPaid(w);
    ReachedFirst(heard, b, attempts);
    while true
      invariant 1 <= attempt <= attempts && tally.Valid()
      invariant tally.stored == old(tally.stored) && tally.quarantined == old(tally.quarantined) && tally.skipped == old(tally.skipped)
      invariant tally.calls == old(tally.calls) + Same(units, attempt - 1)
      invariant tally.retries == old(tally.retries) + attempt - 1
      invariant tally.sequences == old(tally.sequences) + if attempt > 1 then 1 else 0
      invariant Reached(heard, b, attempt, attempts) == true
      invariant Settled(w, A.Times(units, attempt - 1)) == true
      decreases attempts - attempt
    {
      var again;
      ReachedNext(heard, b, attempt, attempts, mode);
      again, end := Attempted(tally, purse, units, attempts, mode, script, b, attempt, heard, w);
      SameMore(units, attempt - 1, CallsAt(heard(b, attempt)));
      if !again { return; }
      attempt := attempt + 1;
    }
  }

  lemma SameMore(units: nat, j: nat, k: nat)
    ensures Same(units, j) + Same(units, k) == Same(units, j + k)
  {}

  // ----- flagging a batch -------------------------------------------------------------------------------

  /** The flag of input i: its own index, and the class and attempts its batch ended with. */
  function FlagOf(i: nat, mode: Mode, end: End): Result {
    if mode.Skip? || !end.Flagged? then Skipped else Quarantined(i, end.cls, end.made)
  }

  /** Every index of the flagged keys, and of the indices in `now`, carries its flag; `ends` says how
      each key's batch ended. */
  ghost predicate FlagsOk(ks: seq<Key>, ends: Key -> End, flagged: set<Key>, now: seq<nat>, mode: Mode, marks: map<nat, Result>) {
    forall i: nat :: i < |ks| && (ks[i] in flagged || i in now) ==> i in marks && marks[i] == FlagOf(i, mode, ends(ks[i]))
  }

  lemma FlagMore(ks: seq<Key>, ends: Key -> End, flagged: set<Key>, now: seq<nat>, mode: Mode, marks: map<nat, Result>, i: nat, r: Result)
    requires FlagsOk(ks, ends, flagged, now, mode, marks) && i < |ks| && r == FlagOf(i, mode, ends(ks[i]))
    ensures FlagsOk(ks, ends, flagged, now + [i], mode, marks[i := r])
  {}

  /** The flag of every input with key k can be journaled. */
  predicate Tells(ks: seq<Key>, flagFails: set<nat>, k: Key) { forall i: nat :: i < |ks| && ks[i] == k ==> i !in flagFails }

  predicate TellsAll(ks: seq<Key>, batch: seq<Group>, flagFails: set<nat>, n: nat)
    requires n <= |batch|
  { forall p :: 0 <= p < n ==> Tells(ks, flagFails, batch[p].key) }

  /** Flags every index of one group. */
  method FlagGroup(tally: Tally, group: Group, mode: Mode, end: End, flagFails: set<nat>, marks0: map<nat, Result>,
                   ghost ks: seq<Key>, ghost ends: Key -> End, ghost flagged: set<Key>)
    returns (bad: bool, marks: map<nat, Result>)
    requires group.indexes == IndexesOf(ks, group.key, |ks|) && FlagsOk(ks, ends, flagged, [], mode, marks0)
    requires end.Flagged? && ends(group.key) == end
    modifies tally`quarantined, tally`skipped
    ensures FlagsOk(ks, ends, flagged, [], mode, marks) && tally.Others(mode) == old(tally.Others(mode))
    ensures bad <==> !Tells(ks, flagFails, group.key)
    ensures !bad ==> FlagsOk(ks, ends, flagged + {group.key}, [], mode, marks)
    ensures !bad ==> tally.Flags(mode) == old(tally.Flags(mode)) + |group.indexes|
  {
    marks := marks0;
    IndexesAre(ks, group.key, |ks|);
    var p := 0;
    while p < |group.indexes|
      invariant 0 <= p <= |group.indexes|
      invariant FlagsOk(ks, ends, flagged, group.indexes[..p], mode, marks)
      invariant tally.Flags(mode) == old(tally.Flags(mode)) + p && tally.Others(mode) == old(tally.Others(mode))
      invariant forall q :: 0 <= q < p ==> group.indexes[q] !in flagFails
    {
      var i := group.indexes[p];
      assert i in group.indexes;
      var r := if mode.Skip? then Skipped else Quarantined(i, end.cls, end.made);
      if mode.Skip? { tally.skipped := tally.skipped + 1; } else { tally.quarantined := tally.quarantined + 1; }
      FlagMore(ks, ends, flagged, group.indexes[..p], mode, marks, i, r);
      assert group.indexes[..p + 1] == group.indexes[..p] + [i];
      marks, p := marks[i := r], p + 1;
      if i in flagFails { return true, marks; }
    }
    assert group.indexes[..p] == group.indexes;
    bad := false;
  }

  /** Between two moments as many items were flagged as inputs have newly flagged keys. */
  ghost predicate FlagCount(ks: seq<Key>, flagged0: set<Key>, n0: nat, flagged: set<Key>, n: nat) {
    n + Counted(ks, |ks|, flagged0) == n0 + Counted(ks, |ks|, flagged)
  }

  /** Flags every index of a batch that failed as data. */
  method FlagBatch(tally: Tally, batch: seq<Group>, mode: Mode, end: End, flagFails: set<nat>, marks0: map<nat, Result>,
                   ghost ks: seq<Key>, ghost ends: Key -> End, ghost flagged0: set<Key>)
    returns (bad: bool, marks: map<nat, Result>, ghost flagged: set<Key>)
    requires FlagsOk(ks, ends, flagged0, [], mode, marks0) && end.Flagged?
    requires Flaggables(ks, batch, ends, end, flagged0)
    modifies tally`quarantined, tally`skipped
    ensures FlagsOk(ks, ends, flagged, [], mode, marks) == true
    ensures Grew(flagged0, flagged, Adds(batch, true), bad) == true
    ensures tally.Others(mode) == old(tally.Others(mode))
    ensures bad == !TellsAll(ks, batch, flagFails, |batch|)
    ensures bad || FlagCount(ks, flagged0, old(tally.Flags(mode)), flagged, tally.Flags(mode))
  {
    marks, flagged := marks0, flagged0;
    var p := 0;
    while p < |batch|
      invariant 0 <= p <= |batch|
      invariant FlagsOk(ks, ends, flagged, [], mode, marks) && TellsAll(ks, batch, flagFails, p)
      invariant Spans(batch, p, flagged0, flagged) && flagged0 <= flagged <= flagged0 + KeySet(batch)
      invariant FlagCount(ks, flagged0, old(tally.Flags(mode)), flagged, tally.Flags(mode)) && tally.Others(mode) == old(tally.Others(mode))
    {
      KeySetMore(batch, p, flagged0, flagged);
      assert Flaggable(ks, batch[p], ends, end, flagged0);
      CountedAdds(ks, |ks|, flagged, batch[p].key);
      bad, marks := FlagGroup(tally, batch[p], mode, end, flagFails, marks, ks, ends, flagged);
      if bad { return; }
      flagged, p := flagged + {batch[p].key}, p + 1;
    }
    SpansAll(batch, flagged0, flagged);
    bad := false;
  }

  ghost predicate Flaggable(ks: seq<Key>, g: Group, ends: Key -> End, end: End, flagged: set<Key>) {
    g.indexes == IndexesOf(ks, g.key, |ks|) && g.key !in flagged && ends(g.key) == end
  }

  // ----- running the batches --------------------------------------------------------------------------

  /** Where the misses stand: `kept` are the keys of answered batches that were dealt with, `flagged`
      those of flagged ones. */
  ghost predicate BulkGoing(ks: seq<Key>, found: map<Key, Value>, fates: Key -> Fate, ends: Key -> End, mode: Mode, entries: map<Key, Value>,
                            outcomes: seq<Outcome>, kept: set<Key>, complete: set<Key>, flagged: set<Key>, marks: map<nat, Result>,
                            failed: bool, stored: nat, flags: nat) {
    && BatchesGoing(ks, found, fates, entries, outcomes, kept, complete, failed, stored)
    && FlagsOk(ks, ends, flagged, [], mode, marks)
    && (forall k :: k in kept ==> ends(k).Got?) && (forall k :: k in flagged ==> ends(k).Flagged?)
    && (!failed ==> flags == Counted(ks, |ks|, flagged))
  }

  ghost predicate BatchMisses(ks: seq<Key>, batch: seq<Group>, ends: Key -> End, end: End, entries: map<Key, Value>, kept: set<Key>, flagged: set<Key>) {
    FreshBatch(ks, batch, entries, kept) && forall p :: 0 <= p < |batch| ==> batch[p].key !in flagged && ends(batch[p].key) == end
  }

  /** A batch breaks nothing: its values are all stored and told, or its flags are. */
  predicate BulkOk(ks: seq<Key>, batch: seq<Group>, end: End, plan: BulkPlan) {
    match end
    case Broke => false
    case Flagged(_, _) => TellsAll(ks, batch, plan.flagFails, |batch|)
    case Got => BatchEndsWell(ks, batch, plan.hookFails, plan.fates, |batch|)
  }

  /** Commits the values of a batch that answered. */
  method KeepBatch(cache: Cache, tally: Tally, batch: seq<Group>, mode: Mode, plan: BulkPlan, outcomes0: seq<Outcome>, ghost marks: map<nat, Result>,
                   ghost ks: seq<Key>, ghost found: map<Key, Value>, ghost ends: Key -> End,
                   ghost kept0: set<Key>, ghost complete0: set<Key>, ghost flagged: set<Key>, ghost failed0: bool, ghost now: A.Balance)
    returns (bad: bool, outcomes: seq<Outcome>, ghost kept: set<Key>, ghost complete: set<Key>)
    requires BatchMisses(ks, batch, ends, Got, cache.entries, kept0, flagged) == true
    requires BulkGoing(ks, found, plan.fates, ends, mode, cache.entries, outcomes0, kept0, complete0, flagged, marks, failed0, tally.stored, tally.Flags(mode)) == true
    requires A.Records(now) == true
    modifies cache, tally`stored
    ensures BulkGoing(ks, found, plan.fates, ends, mode, cache.entries, outcomes, kept, complete, flagged, marks, failed0 || bad, tally.stored, tally.Flags(mode)) == true
    ensures kept == kept0 + Tried(ks, batch, plan.hookFails, plan.fates)
    ensures Grew(kept0, kept, Adds(batch, true), bad) == true
    ensures bad == !BatchEndsWell(ks, batch, plan.hookFails, plan.fates, |batch|)
    ensures A.Records(now) == true
  {
    ghost var entries, stored0 := cache.entries, tally.stored;
    var stored;
    bad, stored, outcomes, kept, complete := RunBatch(cache, batch, true, plan.hookFails, plan.fates, outcomes0, tally.stored, ks, found, kept0, complete0, failed0);
    tally.stored := stored;
    KeptOn(ks, batch, found, plan.fates, ends, Got, mode, entries, outcomes0, kept0, complete0, flagged, marks, failed0, stored0, tally.Flags(mode),
           bad, cache.entries, outcomes, kept, complete, tally.stored);
  }

  /** Flags the misses of a batch that failed as data. */
  method FlagMisses(tally: Tally, batch: seq<Group>, mode: Mode, end: End, plan: BulkPlan, ghost outcomes: seq<Outcome>, marks0: map<nat, Result>,
                    ghost ks: seq<Key>, ghost found: map<Key, Value>, ghost entries: map<Key, Value>, ghost ends: Key -> End,
                    ghost kept: set<Key>, ghost complete: set<Key>, ghost flagged0: set<Key>, ghost failed0: bool, ghost now: A.Balance)
    returns (bad: bool, marks: map<nat, Result>, ghost flagged: set<Key>)
    requires BatchMisses(ks, batch, ends, end, entries, kept, flagged0) == true && end.Flagged?
    requires BulkGoing(ks, found, plan.fates, ends, mode, entries, outcomes, kept, complete, flagged0, marks0, failed0, tally.stored, tally.Flags(mode)) == true
    requires A.Records(now) == true
    modifies tally`quarantined, tally`skipped
    ensures BulkGoing(ks, found, plan.fates, ends, mode, entries, outcomes, kept, complete, flagged, marks, failed0 || bad, tally.stored, tally.Flags(mode)) == true
    ensures Grew(flagged0, flagged, Adds(batch, true), bad) == true
    ensures bad == !TellsAll(ks, batch, plan.flagFails, |batch|)
    ensures tally.Others(mode) == old(tally.Others(mode))
    ensures A.Records(now) == true
  {
    ghost var flags0 := tally.Flags(mode);
    BatchIsFlaggable(ks, batch, ends, end, entries, kept, flagged0);
    bad, marks, flagged := FlagBatch(tally, batch, mode, end, plan.flagFails, marks0, ks, ends, flagged0);
    FlaggedOn(ks, batch, found, plan.fates, ends, end, mode, entries, outcomes, kept, complete, flagged0, marks0, failed0, tally.stored, flags0,
              bad, flagged, marks, tally.Flags(mode));
  }

  /** What a batch does once its attempts have ended: it flags its misses, or commits them, or neither. */
  method CloseBatch(cache: Cache, tally: Tally, batch: seq<Group>, mode: Mode, end: End, plan: BulkPlan, outcomes0: seq<Outcome>, marks0: map<nat, Result>,
                    ghost ks: seq<Key>, ghost found: map<Key, Value>, ghost ends: Key -> End,
                    ghost kept0: set<Key>, ghost complete0: set<Key>, ghost flagged0: set<Key>, ghost failed0: bool, ghost now: A.Balance)
    returns (bad: bool, outcomes: seq<Outcome>, marks: map<nat, Result>, ghost kept: set<Key>, ghost complete: set<Key>, ghost flagged: set<Key>)
    requires BatchMisses(ks, batch, ends, end, cache.entries, kept0, flagged0) == true
    requires BulkGoing(ks, found, plan.fates, ends, mode, cache.entries, outcomes0, kept0, complete0, flagged0, marks0, failed0, tally.stored, tally.Flags(mode)) == true
    requires A.Records(now) == true
    modifies cache, tally`stored, tally`quarantined, tally`skipped
    ensures tally.Others(mode) == old(tally.Others(mode))
    ensures BulkGoing(ks, found, plan.fates, ends, mode, cache.entries, outcomes, kept, complete, flagged, marks, failed0 || bad, tally.stored, tally.Flags(mode)) == true
    ensures kept == kept0 + if end.Got? then Tried(ks, batch, plan.hookFails, plan.fates) else {}
    ensures Grew(kept0, kept, Adds(batch, end.Got?), bad) == true && Grew(flagged0, flagged, Adds(batch, end.Flagged?), bad) == true
    ensures bad == !BulkOk(ks, batch, end, plan)
    ensures A.Records(now) == true
  {
    outcomes, marks, kept, complete, flagged := outcomes0, marks0, kept0, complete0, flagged0;
    bad := true;
    GrewNone(kept0);
    GrewNone(flagged0);
    if end.Broke? {
      BrokeOn(ks, found, plan.fates, ends, mode, cache.entries, outcomes0, kept0, complete0, flagged0, marks0, failed0, tally.stored, tally.Flags(mode));
    } else if end.Flagged? {
      bad, marks, flagged := FlagMisses(tally, batch, mode, end, plan, outcomes0, marks0, ks, found, cache.entries, ends, kept0, complete0, flagged0, failed0, now);
    } else {
      bad, outcomes, kept, complete := KeepBatch(cache, tally, batch, mode, plan, outcomes0, marks0, ks, found, ends, kept0, complete0, flagged0, failed0, now);
    }
  }

  /** One batch: attempts, each of whose calls is paid, then flags or commits. */
  method RunBulkBatch(cache: Cache, tally: Tally, purse: Purse, batch: seq<Group>, attempts: nat, mode: Mode, b: nat, plan: BulkPlan,
                      outcomes0: seq<Outcome>, marks0: map<nat, Result>, ghost ks: seq<Key>, ghost found: map<Key, Value>, ghost ends: Key -> End,
                      ghost heard: Script, ghost w: Wallet, ghost kept0: set<Key>, ghost complete0: set<Key>, ghost flagged0: set<Key>, ghost failed0: bool)
    returns (bad: bool, outcomes: seq<Outcome>, marks: map<nat, Result>, ghost kept: set<Key>, ghost complete: set<Key>, ghost flagged: set<Key>)
    requires tally.Valid() && attempts >= 1 && Carries(purse, w) == true && Faces(heard, plan.attempts, b, |batch|, w) == true
    requires BatchMisses(ks, batch, ends, EndOf(heard, b, attempts, mode), cache.entries, kept0, flagged0) == true
    requires BulkGoing(ks, found, plan.fates, ends, mode, cache.entries, outcomes0, kept0, complete0, flagged0, marks0, failed0, tally.stored, tally.Flags(mode)) == true
    modifies cache, tally, w.balance.Keys
    ensures tally.Valid() && tally.Others(mode) == old(tally.Others(mode))
    ensures BulkGoing(ks, found, plan.fates, ends, mode, cache.entries, outcomes, kept, complete, flagged, marks, failed0 || bad, tally.stored, tally.Flags(mode)) == true
    ensures kept == kept0 + if EndOf(heard, b, attempts, mode).Got? then Tried(ks, batch, plan.hookFails, plan.fates) else {}
    ensures Grew(kept0, kept, Adds(batch, EndOf(heard, b, attempts, mode).Got?), bad) == true
    ensures Grew(flagged0, flagged, Adds(batch, EndOf(heard, b, attempts, mode).Flagged?), bad) == true
    ensures bad == !BulkOk(ks, batch, EndOf(heard, b, attempts, mode), plan)
    ensures tally.calls == old(tally.calls) + Same(|batch|, CallsOf(heard, b, attempts))
    ensures tally.retries == old(tally.retries) + RetriesOf(heard, b, attempts)
    ensures tally.sequences == old(tally.sequences) + if CallsOf(heard, b, attempts) > 0 then 1 else 0
    ensures Settled(w, A.Times(|batch|, CallsOf(heard, b, attempts))) == true
  {
    var end := TryBatch(tally, purse, |batch|, attempts, mode, plan.attempts, b, heard, w);
    ghost var paid := A.Times(|batch|, CallsOf(heard, b, attempts));
    HoldingIs(w, paid);
    bad, outcomes, marks, kept, complete, flagged :=
      CloseBatch(cache, tally, batch, mode, end, plan, outcomes0, marks0, ks, found, ends, kept0, complete0, flagged0, failed0,
                 w.After(paid).balance);
    HoldingIs(w, paid);
  }

  lemma GrewNone(before: set<Key>)
    ensures forall bad, batch :: Grew(before, before, Adds(batch, false), bad)
  {}

  /** A batch that broke leaves everything as it was. */
  lemma BrokeOn(ks: seq<Key>, found: map<Key, Value>, fates: Key -> Fate, ends: Key -> End, mode: Mode, entries: map<Key, Value>, outcomes: seq<Outcome>,
                kept: set<Key>, complete: set<Key>, flagged: set<Key>, marks: map<nat, Result>, failed: bool, stored: nat, flags: nat)
    requires BulkGoing(ks, found, fates, ends, mode, entries, outcomes, kept, complete, flagged, marks, failed, stored, flags)
    ensures BulkGoing(ks, found, fates, ends, mode, entries, outcomes, kept, complete, flagged, marks, true, stored, flags)
  {
    hide Worked, Left, FlagsOk, Counted;
  }

  lemma FlaggedOn(ks: seq<Key>, batch: seq<Group>, found: map<Key, Value>, fates: Key -> Fate, ends: Key -> End, end: End, mode: Mode,
                  entries: map<Key, Value>, outcomes: seq<Outcome>, kept: set<Key>, complete: set<Key>, flagged0: set<Key>, marks0: map<nat, Result>,
                  failed0: bool, stored: nat, flags0: nat, bad: bool, flagged: set<Key>, marks: map<nat, Result>, flags: nat)
    requires BulkGoing(ks, found, fates, ends, mode, entries, outcomes, kept, complete, flagged0, marks0, failed0, stored, flags0)
    requires BatchMisses(ks, batch, ends, end, entries, kept, flagged0) && end.Flagged?
    requires FlagsOk(ks, ends, flagged, [], mode, marks) && (bad || FlagCount(ks, flagged0, flags0, flagged, flags))
    requires Grew(flagged0, flagged, Adds(batch, true), bad)
    ensures BulkGoing(ks, found, fates, ends, mode, entries, outcomes, kept, complete, flagged, marks, failed0 || bad, stored, flags)
  {
    KeySetEnds(batch, ends, end);
    hide Worked, Left, FlagsOk, KeySet, Counted, FreshBatch;
  }

  lemma KeptOn(ks: seq<Key>, batch: seq<Group>, found: map<Key, Value>, fates: Key -> Fate, ends: Key -> End, end: End, mode: Mode,
               entries0: map<Key, Value>, outcomes0: seq<Outcome>, kept0: set<Key>, complete0: set<Key>, flagged: set<Key>, marks: map<nat, Result>,
               failed0: bool, stored0: nat, flags: nat, bad: bool, entries: map<Key, Value>, outcomes: seq<Outcome>, kept: set<Key>, complete: set<Key>, stored: nat)
    requires BulkGoing(ks, found, fates, ends, mode, entries0, outcomes0, kept0, complete0, flagged, marks, failed0, stored0, flags)
    requires BatchMisses(ks, batch, ends, end, entries0, kept0, flagged) && end.Got?
    requires BatchesGoing(ks, found, fates, entries, outcomes, kept, complete, failed0 || bad, stored)
    requires Grew(kept0, kept, Adds(batch, true), bad)
    ensures BulkGoing(ks, found, fates, ends, mode, entries, outcomes, kept, complete, flagged, marks, failed0 || bad, stored, flags)
  {
    KeySetEnds(batch, ends, end);
    hide Worked, Left, FlagsOk, KeySet, Counted, FreshBatch;
  }

  ghost predicate Flaggables(ks: seq<Key>, batch: seq<Group>, ends: Key -> End, end: End, flagged: set<Key>) {
    && (forall p :: 0 <= p < |batch| ==> Flaggable(ks, batch[p], ends, end, flagged))
    && (forall a, b :: 0 <= a < b < |batch| ==> batch[a].key != batch[b].key)
  }

  lemma BatchIsFlaggable(ks: seq<Key>, batch: seq<Group>, ends: Key -> End, end: End, entries: map<Key, Value>, kept: set<Key>, flagged: set<Key>)
    requires BatchMisses(ks, batch, ends, end, entries, kept, flagged)
    ensures Flaggables(ks, batch, ends, end, flagged)
  {
    forall p | 0 <= p < |batch| ensures Flaggable(ks, batch[p], ends, end, flagged) { assert FreshGroup(ks, batch[p], entries, kept); }
  }

  /** Some of the new keys have been added; all of them, unless something broke. */
  ghost predicate Grew(before: set<Key>, after: set<Key>, more: set<Key>, bad: bool) {
    before <= after <= before + more && (!bad ==> after == before + more)
  }

  /** The keys a batch adds if it ends in this way. */
  function Adds(batch: seq<Group>, here: bool): set<Key> { if here then KeySet(batch) else {} }

  lemma KeySetEnds(batch: seq<Group>, ends: Key -> End, end: End)
    requires forall p :: 0 <= p < |batch| ==> ends(batch[p].key) == end
    ensures forall k :: k in KeySet(batch) ==> ends(k) == end
  {
    forall k | k in KeySet(batch) ensures ends(k) == end {
      var g :| g in batch && g.key == k;
      var p :| 0 <= p < |batch| && batch[p] == g;
    }
  }

  lemma StillApart(batch: seq<Group>, a: set<Key>)
    requires forall p :: 0 <= p < |batch| ==> batch[p].key !in a
    ensures a !! KeySet(batch)
  {
    forall k | k in KeySet(batch) ensures k !in a {
      var g :| g in batch && g.key == k;
      var p :| 0 <= p < |batch| && batch[p] == g;
    }
  }

  // ----- a whole schedule -------------------------------------------------------------------------------

  /** How the batch of key k ends. */
  ghost function EndFor(batches: seq<seq<Group>>, script: Script, attempts: nat, mode: Mode, k: Key): End
    requires attempts >= 1
  {
    if b: nat :| b < |batches| && k in KeySet(batches[b]) then EndOf(script, b, attempts, mode) else Broke
  }

  ghost function EndsOf(batches: seq<seq<Group>>, script: Script, attempts: nat, mode: Mode): Key -> End
    requires attempts >= 1
  { k => EndFor(batches, script, attempts, mode, k) }

  ghost predicate EndsAre(batches: seq<seq<Group>>, ends: Key -> End, script: Script, attempts: nat, mode: Mode)
    requires attempts >= 1
  { forall b: nat, p: nat :: b < |batches| && p < |batches[b]| ==> ends(batches[b][p].key) == EndOf(script, b, attempts, mode) }

  lemma EndsAgree(ks: seq<Key>, missKeys: seq<Key>, batches: seq<seq<Group>>, script: Script, attempts: nat, mode: Mode)
    requires Joined(batches) == GroupsFor(ks, missKeys) && Distinct(missKeys) && attempts >= 1
    ensures EndsAre(batches, EndsOf(batches, script, attempts, mode), script, attempts, mode)
  {
    forall b: nat, p: nat | b < |batches| && p < |batches[b]|
      ensures EndFor(batches, script, attempts, mode, batches[b][p].key) == EndOf(script, b, attempts, mode) {
      var k := batches[b][p].key;
      assert batches[b][p] in batches[b] && k in KeySet(batches[b]);
      forall c: nat | c < |batches| && k in KeySet(batches[c]) ensures c == b {
        if c != b { KeyElsewhere(ks, missKeys, batches, b, p, c); }
      }
    }
  }

  /** The keys dealt with by the answered ones of the first t batches of the schedule. */
  function BulkKept(ks: seq<Key>, batches: seq<seq<Group>>, attempts: nat, mode: Mode, plan: BulkPlan, t: nat): set<Key>
    requires t <= |plan.order| && Schedules(plan.order, plan.stopped, |batches|) && attempts >= 1
  {
    if t == 0 then {}
    else
      var b := plan.order[t - 1];
      BulkKept(ks, batches, attempts, mode, plan, t - 1)
        + if EndOf(plan.attempts, b, attempts, mode).Got? then Tried(ks, batches[b], plan.hookFails, plan.fates) else {}
  }

  /** The bulk calls of the first t batches of the schedule, by size. */
  function BulkCalls(batches: seq<seq<Group>>, attempts: nat, plan: BulkPlan, t: nat): seq<nat>
    requires t <= |plan.order| && Schedules(plan.order, plan.stopped, |batches|) && attempts >= 1
  {
    if t == 0 then []
    else BulkCalls(batches, attempts, plan, t - 1) + Same(|batches[plan.order[t - 1]]|, CallsOf(plan.attempts, plan.order[t - 1], attempts))
  }

  function BulkRetries(attempts: nat, plan: BulkPlan, t: nat): nat
    requires t <= |plan.order| && attempts >= 1
  { if t == 0 then 0 else BulkRetries(attempts, plan, t - 1) + RetriesOf(plan.attempts, plan.order[t - 1], attempts) }

  ghost predicate AllBulkOk(ks: seq<Key>, batches: seq<seq<Group>>, attempts: nat, mode: Mode, plan: BulkPlan, t: nat)
    requires t <= |plan.order| && Schedules(plan.order, plan.stopped, |batches|) && attempts >= 1
  { forall u :: 0 <= u < t ==> BulkOk(ks, batches[plan.order[u]], EndOf(plan.attempts, plan.order[u], attempts, mode), plan) }

  /** Everything that the first t batches of the schedule have done. */
  ghost predicate BulkDone(ks: seq<Key>, found: map<Key, Value>, ends: Key -> End, batches: seq<seq<Group>>, attempts: nat, mode: Mode, plan: BulkPlan, t: nat,
                           entries: map<Key, Value>, outcomes: seq<Outcome>, complete: set<Key>, flagged: set<Key>, marks: map<nat, Result>, failed: bool,
                           stored: nat, flags: nat, calls: seq<nat>, sequences: nat, retries: nat)
    requires Schedules(plan.order, plan.stopped, |batches|) && attempts >= 1
  {
    && t <= |plan.order|
    && BulkGoing(ks, found, plan.fates, ends, mode, entries, outcomes, BulkKept(ks, batches, attempts, mode, plan, t), complete, flagged, marks, failed, stored, flags)
    && OnSchedule(batches, plan.order, t, BulkKept(ks, batches, attempts, mode, plan, t) + flagged, failed)
    && (failed <==> !AllBulkOk(ks, batches, attempts, mode, plan, t))
    && calls == BulkCalls(batches, attempts, plan, t) && retries == BulkRetries(attempts, plan, t)
    && 0 <= sequences + retries - |calls| <= (if failed then t else 0)
  }

  /** The same, in a form that is only taken apart where `Opened` asks for it. */
  ghost predicate BulkUpTo(ks: seq<Key>, found: map<Key, Value>, ends: Key -> End, batches: seq<seq<Group>>, attempts: nat, mode: Mode, plan: BulkPlan, t: nat,
                           entries: map<Key, Value>, outcomes: seq<Outcome>, complete: set<Key>, flagged: set<Key>, marks: map<nat, Result>, failed: bool,
                           stored: nat, flags: nat, calls: seq<nat>, sequences: nat, retries: nat)
    requires Schedules(plan.order, plan.stopped, |batches|) && attempts >= 1
  { forall u: nat :: u == t ==> BulkDone(ks, found, ends, batches, attempts, mode, plan, u, entries, outcomes, complete, flagged, marks, failed, stored, flags, calls, sequences, retries) }

  lemma Opened(ks: seq<Key>, found: map<Key, Value>, ends: Key -> End, batches: seq<seq<Group>>, attempts: nat, mode: Mode, plan: BulkPlan, t: nat,
               entries: map<Key, Value>, outcomes: seq<Outcome>, complete: set<Key>, flagged: set<Key>, marks: map<nat, Result>, failed: bool,
               stored: nat, flags: nat, calls: seq<nat>, sequences: nat, retries: nat)
    requires Schedules(plan.order, plan.stopped, |batches|) && attempts >= 1
    ensures BulkUpTo(ks, found, ends, batches, attempts, mode, plan, t, entries, outcomes, complete, flagged, marks, failed, stored, flags, calls, sequences, retries)
            == BulkDone(ks, found, ends, batches, attempts, mode, plan, t, entries, outcomes, complete, flagged, marks, failed, stored, flags, calls, sequences, retries)
  {}

  lemma BatchIsMiss(ks: seq<Key>, found: map<Key, Value>, entries: map<Key, Value>, fates: Key -> Fate, ends: Key -> End, end: End,
                    batches: seq<seq<Group>>, order: seq<nat>, t: nat, kept: set<Key>, flagged: set<Key>)
    requires Joined(batches) == GroupsFor(ks, MissKeys(ks, found))
    requires t < |order| && Distinct(order) && forall u :: 0 <= u < |order| ==> order[u] < |batches|
    requires Left(found, kept, fates, entries) && kept + flagged <= CachedBatches.Started(batches, order, t)
    requires forall p :: 0 <= p < |batches[order[t]]| ==> ends(batches[order[t]][p].key) == end
    ensures BatchMisses(ks, batches[order[t]], ends, end, entries, kept, flagged)
  {
    BatchIsFresh(ks, found, entries, fates, kept, batches, order, t);
    MissKeysDistinct(ks, found);
    var batch := batches[order[t]];
    forall p | 0 <= p < |batch| ensures batch[p].key !in flagged {
      forall u | 0 <= u < t ensures batch[p].key !in KeySet(batches[order[u]]) {
        KeyElsewhere(ks, MissKeys(ks, found), batches, order[t], p, order[u]);
      }
      InStarted(batches, order, t, batch[p].key);
    }
  }

  lemma KeySetSize(batch: seq<Group>)
    requires forall a, b :: 0 <= a < b < |batch| ==> batch[a].key != batch[b].key
    ensures |KeySet(batch)| == |batch|
  {
    var keys := seq(|batch|, p requires 0 <= p < |batch| => batch[p].key);
    forall k ensures k in keys <==> k in KeySet(batch) {
      if k in keys { var p :| 0 <= p < |keys| && keys[p] == k; assert batch[p] in batch; }
      if k in KeySet(batch) { var g :| g in batch && g.key == k; var p :| 0 <= p < |batch| && batch[p] == g; assert keys[p] == k; }
    }
    SizeOfDistinct(keys, KeySet(batch));
  }

  function Sizes(batches: seq<seq<Group>>): (r: seq<nat>)
    ensures |r| == |batches|
  { seq(|batches|, b requires 0 <= b < |batches| => |batches[b]|) }

  /** The plan as it turns out once the accounts have had their say about every attempt. */
  ghost function Heed(plan: BulkPlan, batches: seq<seq<Group>>, attempts: nat, w: Wallet): BulkPlan
    requires attempts >= 1 && Schedules(plan.order, plan.stopped, |batches|)
  { plan.(attempts := RealScript(plan.attempts, Sizes(batches), plan.order, attempts, w)) }

  ghost predicate Heeds(heeded: BulkPlan, plan: BulkPlan, batches: seq<seq<Group>>, attempts: nat, w: Wallet) {
    attempts >= 1 && Schedules(plan.order, plan.stopped, |batches|) && heeded == Heed(plan, batches, attempts, w)
  }

  /** What a schedule has paid are its calls, each with one unit per item. */
  lemma {:induction false} PaidIs(plan: BulkPlan, batches: seq<seq<Group>>, attempts: nat, w: Wallet, t: nat)
    requires attempts >= 1 && Schedules(plan.order, plan.stopped, |batches|) && t <= |plan.order|
    ensures Sum(BulkCalls(batches, attempts, Heed(plan, batches, attempts, w), t)) == PaidUpTo(plan.attempts, Sizes(batches), plan.order, attempts, w, t)
  {
    if t > 0 {
      PaidIs(plan, batches, attempts, w, t - 1);
      var b, heeded, p := plan.order[t - 1], Heed(plan, batches, attempts, w), PaidUpTo(plan.attempts, Sizes(batches), plan.order, attempts, w, t - 1);
      var hearing := Hearing(plan.attempts, w.After(p), |batches[b]|);
      forall a: nat | a >= 1 ensures heeded.attempts(b, a) == hearing(b, a) { RealAt(plan.attempts, Sizes(batches), plan.order, attempts, w, t - 1, a); }
      SameCalls(heeded.attempts, hearing, b, attempts);
      SumConcat(BulkCalls(batches, attempts, heeded, t - 1), |batches[b]|, CallsOf(heeded.attempts, b, attempts));
      hide RealScript, Hearing, CallsOf;
    }
  }

  /** The batch that is t-th to start faces the accounts as its predecessors left them. */
  lemma FacesBudgets(heeded: BulkPlan, plan: BulkPlan, batches: seq<seq<Group>>, attempts: nat, w: Wallet, t: nat, calls: seq<nat>)
    requires Heeds(heeded, plan, batches, attempts, w) && t < |plan.order| && calls == BulkCalls(batches, attempts, heeded, t)
    ensures Faces(heeded.attempts, plan.attempts, plan.order[t], |batches[plan.order[t]]|, w.After(Sum(calls))) == true
  {
    PaidIs(plan, batches, attempts, w, t);
    var b := plan.order[t];
    forall a: nat | a >= 1 ensures Hears(heeded.attempts, plan.attempts, b, |batches[b]|, w.After(Sum(calls)), a) {
      RealAt(plan.attempts, Sizes(batches), plan.order, attempts, w, t, a);
    }
  }

  /** The calls of one more batch have been paid. */
  lemma SettledOn(w: Wallet, calls: seq<nat>, units: nat, k: nat)
    requires Solvent(w, Sum(calls)) && Settled(w.After(Sum(calls)), A.Times(units, k))
    ensures Settled(w, Sum(calls + Same(units, k))) == true
  {
    SumConcat(calls, units, k);
    ChargedOn(w.balance, w.marks, Sum(calls), A.Times(units, k));
    HoldingIs(w.After(Sum(calls)), A.Times(units, k));
    HoldingIs(w, Sum(calls) + A.Times(units, k));
  }

  lemma CarriesOn(purse: Purse, w: Wallet, paid: int)
    requires Bound(purse, w) && Settled(w, paid)
    ensures Carries(purse, w.After(paid)) == true && w.After(paid).balance.Keys == w.balance.Keys && Solvent(w, paid) == true
  {
    HoldingIs(w, paid);
  }

  ghost predicate Bound(purse: Purse, w: Wallet) { w == WalletOf(purse, w.balance) && forall b :: b in w.marks ==> b in w.balance }

  /** Runs the batches of the schedule.  (Comparing predicates with true keeps the verifier from taking
      them apart.) */
  method RunBulkBatches(cache: Cache, tally: Tally, purse: Purse, batches: seq<seq<Group>>, attempts: nat, mode: Mode, plan: BulkPlan, outcomes0: seq<Outcome>,
                        ghost ks: seq<Key>, ghost ends: Key -> End, ghost heeded: BulkPlan, ghost w: Wallet)
    returns (failed: bool, outcomes: seq<Outcome>, marks: map<nat, Result>, ghost complete: set<Key>, ghost flagged: set<Key>)
    requires tally.Valid() && Heeds(heeded, plan, batches, attempts, w) == true && attempts >= 1 && EndsAre(batches, ends, heeded.attempts, attempts, mode) == true
    requires Joined(batches) == GroupsFor(ks, MissKeys(ks, cache.entries)) && Schedules(heeded.order, heeded.stopped, |batches|) == true
    requires BulkUpTo(ks, cache.entries, ends, batches, attempts, mode, heeded, 0, cache.entries, outcomes0, {}, {}, map[], false,
                      tally.stored, tally.Flags(mode), tally.calls, tally.sequences, tally.retries) == true
    requires Bound(purse, w) == true && Settled(w, Sum(tally.calls)) == true
    modifies cache, tally, w.balance.Keys
    ensures tally.Valid() && tally.Others(mode) == old(tally.Others(mode))
    ensures BulkUpTo(ks, old(cache.entries), ends, batches, attempts, mode, heeded, |plan.order|, cache.entries, outcomes, complete, flagged, marks, failed,
                     tally.stored, tally.Flags(mode), tally.calls, tally.sequences, tally.retries) == true
    ensures Settled(w, Sum(tally.calls)) == true
  {
    ghost var found := cache.entries;
    failed, outcomes, marks, complete, flagged := false, outcomes0, map[], {}, {};
    var t := 0;
    while t != |plan.order|
      invariant 0 <= t <= |plan.order|
      invariant tally.Valid() && tally.Others(mode) == old(tally.Others(mode))
      invariant BulkUpTo(ks, found, ends, batches, attempts, mode, heeded, t, cache.entries, outcomes, complete, flagged, marks, failed,
                         tally.stored, tally.Flags(mode), tally.calls, tally.sequences, tally.retries) == true
      invariant Settled(w, Sum(tally.calls)) == true
    {
      failed, outcomes, marks, complete, flagged :=
        BulkTurn(cache, tally, purse, batches, t, attempts, mode, plan, failed, outcomes, marks, ks, found, ends, heeded, w, complete, flagged);
      t := t + 1;
    }
  }

  /** One turn of the schedule. */
  method BulkTurn(cache: Cache, tally: Tally, purse: Purse, batches: seq<seq<Group>>, t: nat, attempts: nat, mode: Mode, plan: BulkPlan, failed0: bool,
                  outcomes0: seq<Outcome>, marks0: map<nat, Result>, ghost ks: seq<Key>, ghost found: map<Key, Value>, ghost ends: Key -> End,
                  ghost heeded: BulkPlan, ghost w: Wallet, ghost complete0: set<Key>, ghost flagged0: set<Key>)
    returns (failed: bool, outcomes: seq<Outcome>, marks: map<nat, Result>, ghost complete: set<Key>, ghost flagged: set<Key>)
    requires tally.Valid() && Heeds(heeded, plan, batches, attempts, w) == true && attempts >= 1 && EndsAre(batches, ends, heeded.attempts, attempts, mode) == true
    requires Joined(batches) == GroupsFor(ks, MissKeys(ks, found)) && Schedules(heeded.order, heeded.stopped, |batches|) == true && t < |plan.order|
    requires BulkUpTo(ks, found, ends, batches, attempts, mode, heeded, t, cache.entries, outcomes0, complete0, flagged0, marks0, failed0,
                      tally.stored, tally.Flags(mode), tally.calls, tally.sequences, tally.retries) == true
    requires Bound(purse, w) == true && Settled(w, Sum(tally.calls)) == true
    modifies cache, tally, w.balance.Keys
    ensures tally.Valid() && tally.Others(mode) == old(tally.Others(mode))
    ensures BulkUpTo(ks, found, ends, batches, attempts, mode, heeded, t + 1, cache.entries, outcomes, complete, flagged, marks, failed,
                     tally.stored, tally.Flags(mode), tally.calls, tally.sequences, tally.retries) == true
    ensures Settled(w, Sum(tally.calls)) == true
  {
    var b := plan.order[t];
    ghost var entries, stored, flags := cache.entries, tally.stored, tally.Flags(mode);
    ghost var calls, sequences, retries := tally.calls, tally.sequences, tally.retries;
    ghost var kept0 := BulkKept(ks, batches, attempts, mode, heeded, t);
    ghost var kept;
    TurnReady(ks, found, ends, batches, attempts, mode, heeded, plan, w, t, cache.entries, outcomes0, complete0, flagged0, marks0, failed0,
              tally.stored, tally.Flags(mode), tally.calls, tally.sequences, tally.retries);
    CarriesOn(purse, w, Sum(calls));
    var bad;
    bad, outcomes, marks, kept, complete, flagged :=
      RunBulkBatch(cache, tally, purse, batches[b], attempts, mode, b, plan, outcomes0, marks0, ks, found, ends, heeded.attempts, w.After(Sum(calls)),
                   kept0, complete0, flagged0, failed0);
    failed := failed0 || bad;
    TurnDone(ks, found, ends, batches, attempts, mode, heeded, plan, w, t, entries, outcomes0, complete0, flagged0, marks0, failed0, stored, flags, calls, sequences, retries, bad,
             cache.entries, outcomes, kept, complete, flagged, marks, tally.stored, tally.Flags(mode), tally.calls, tally.sequences, tally.retries);
    SettledOn(w, calls, |batches[b]|, CallsOf(heeded.attempts, b, attempts));
  }

  /** What the batch that is t-th to start begins with. */
  lemma TurnReady(ks: seq<Key>, found: map<Key, Value>, ends: Key -> End, batches: seq<seq<Group>>, attempts: nat, mode: Mode, heeded: BulkPlan, plan: BulkPlan,
                  w: Wallet, t: nat, entries: map<Key, Value>, outcomes: seq<Outcome>, complete: set<Key>, flagged: set<Key>, marks: map<nat, Result>, failed: bool,
                  stored: nat, flags: nat, calls: seq<nat>, sequences: nat, retries: nat)
    requires Heeds(heeded, plan, batches, attempts, w) && EndsAre(batches, ends, heeded.attempts, attempts, mode) && t < |plan.order|
    requires Joined(batches) == GroupsFor(ks, MissKeys(ks, found))
    requires BulkUpTo(ks, found, ends, batches, attempts, mode, heeded, t, entries, outcomes, complete, flagged, marks, failed, stored, flags, calls, sequences, retries)
    ensures plan.order[t] < |batches| && heeded.fates == plan.fates
    ensures var b, kept := plan.order[t], BulkKept(ks, batches, attempts, mode, heeded, t);
      && BatchMisses(ks, batches[b], ends, EndOf(heeded.attempts, b, attempts, mode), entries, kept, flagged) == true
      && BulkGoing(ks, found, plan.fates, ends, mode, entries, outcomes, kept, complete, flagged, marks, failed, stored, flags) == true
      && Faces(heeded.attempts, plan.attempts, b, |batches[b]|, w.After(Sum(calls))) == true
  {
    Opened(ks, found, ends, batches, attempts, mode, heeded, t, entries, outcomes, complete, flagged, marks, failed, stored, flags, calls, sequences, retries);
    var b, kept := plan.order[t], BulkKept(ks, batches, attempts, mode, heeded, t);
    BatchIsMiss(ks, found, entries, plan.fates, ends, EndOf(heeded.attempts, b, attempts, mode), batches, plan.order, t, kept, flagged);
    FacesBudgets(heeded, plan, batches, attempts, w, t, calls);
    hide *;
  }

  /** What the schedule has come to when that batch has ended. */
  lemma TurnDone(ks: seq<Key>, found: map<Key, Value>, ends: Key -> End, batches: seq<seq<Group>>, attempts: nat, mode: Mode, heeded: BulkPlan, plan: BulkPlan,
                 w: Wallet, t: nat, entries0: map<Key, Value>, outcomes0: seq<Outcome>, complete0: set<Key>, flagged0: set<Key>, marks0: map<nat, Result>,
                 failed0: bool, stored0: nat, flags0: nat, calls0: seq<nat>, sequences0: nat, retries0: nat, bad: bool,
                 entries: map<Key, Value>, outcomes: seq<Outcome>, kept: set<Key>, complete: set<Key>, flagged: set<Key>, marks: map<nat, Result>,
                 stored: nat, flags: nat, calls: seq<nat>, sequences: nat, retries: nat)
    requires Heeds(heeded, plan, batches, attempts, w) && t < |plan.order|
    requires BulkUpTo(ks, found, ends, batches, attempts, mode, heeded, t, entries0, outcomes0, complete0, flagged0, marks0, failed0, stored0, flags0, calls0, sequences0, retries0)
    requires BulkGoing(ks, found, plan.fates, ends, mode, entries, outcomes, kept, complete, flagged, marks, failed0 || bad, stored, flags)
    requires var b := plan.order[t];
      var end, kept0 := EndOf(heeded.attempts, b, attempts, mode), BulkKept(ks, batches, attempts, mode, heeded, t);
      && kept == kept0 + (if end.Got? then Tried(ks, batches[b], plan.hookFails, plan.fates) else {})
      && Grew(kept0, kept, Adds(batches[b], end.Got?), bad) && Grew(flagged0, flagged, Adds(batches[b], end.Flagged?), bad)
      && bad == !BulkOk(ks, batches[b], end, plan)
      && calls == calls0 + Same(|batches[b]|, CallsOf(heeded.attempts, b, attempts)) && retries == retries0 + RetriesOf(heeded.attempts, b, attempts)
      && sequences == sequences0 + if CallsOf(heeded.attempts, b, attempts) > 0 then 1 else 0
    ensures BulkUpTo(ks, found, ends, batches, attempts, mode, heeded, t + 1, entries, outcomes, complete, flagged, marks, failed0 || bad,
                     stored, flags, calls, sequences, retries) == true
  {
    Opened(ks, found, ends, batches, attempts, mode, heeded, t, entries0, outcomes0, complete0, flagged0, marks0, failed0, stored0, flags0, calls0, sequences0, retries0);
    var b, kept0 := plan.order[t], BulkKept(ks, batches, attempts, mode, heeded, t);
    var end := EndOf(heeded.attempts, b, attempts, mode);
    assert bad == !BulkOk(ks, batches[b], end, heeded);
    NextBoth(batches, plan.order, t, kept0, flagged0, failed0, kept, flagged, bad, end);
    BilledNext(ks, found, ends, batches, attempts, mode, heeded, t, failed0, calls0, sequences0, retries0, bad,
               entries, outcomes, kept, complete, flagged, marks, stored, flags, calls, sequences, retries);
  }

  lemma NextBoth(batches: seq<seq<Group>>, order: seq<nat>, t: nat, kept0: set<Key>, flagged0: set<Key>, failed0: bool,
                 kept: set<Key>, flagged: set<Key>, bad: bool, end: End)
    requires t < |order| && (forall u :: 0 <= u < |order| ==> order[u] < |batches|) && OnSchedule(batches, order, t, kept0 + flagged0, failed0)
    requires Grew(kept0, kept, Adds(batches[order[t]], end.Got?), bad) && Grew(flagged0, flagged, Adds(batches[order[t]], end.Flagged?), bad)
    requires end.Broke? ==> bad
    ensures OnSchedule(batches, order, t + 1, kept + flagged, failed0 || bad) == true
  {
    assert kept + flagged <= kept0 + flagged0 + KeySet(batches[order[t]]) && (!bad ==> kept + flagged == kept0 + flagged0 + KeySet(batches[order[t]])) by {
      hide OnSchedule, KeySet;
    }
    NextOnSchedule(batches, order, t, kept0 + flagged0, failed0, kept + flagged, bad);
  }

  lemma BilledNext(ks: seq<Key>, found: map<Key, Value>, ends: Key -> End, batches: seq<seq<Group>>, attempts: nat, mode: Mode, plan: BulkPlan, t: nat,
                 failed0: bool, calls0: seq<nat>, sequences0: nat, retries0: nat, bad: bool,
                 entries: map<Key, Value>, outcomes: seq<Outcome>, kept: set<Key>, complete: set<Key>, flagged: set<Key>, marks: map<nat, Result>,
                 stored: nat, flags: nat, calls: seq<nat>, sequences: nat, retries: nat)
    requires Schedules(plan.order, plan.stopped, |batches|) && attempts >= 1 && t < |plan.order|
    requires OnSchedule(batches, plan.order, t + 1, kept + flagged, failed0 || bad)
    requires failed0 <==> !AllBulkOk(ks, batches, attempts, mode, plan, t)
    requires calls0 == BulkCalls(batches, attempts, plan, t) && retries0 == BulkRetries(attempts, plan, t)
    requires 0 <= sequences0 + retries0 - |calls0| <= (if failed0 then t else 0)
    requires BulkGoing(ks, found, plan.fates, ends, mode, entries, outcomes, kept, complete, flagged, marks, failed0 || bad, stored, flags)
    requires var b, kept0 := plan.order[t], BulkKept(ks, batches, attempts, mode, plan, t);
      && kept == kept0 + (if EndOf(plan.attempts, b, attempts, mode).Got? then Tried(ks, batches[b], plan.hookFails, plan.fates) else {})
      && (bad <==> !BulkOk(ks, batches[b], EndOf(plan.attempts, b, attempts, mode), plan))
      && calls == calls0 + Same(|batches[b]|, CallsOf(plan.attempts, b, attempts)) && retries == retries0 + RetriesOf(plan.attempts, b, attempts)
      && sequences == sequences0 + if CallsOf(plan.attempts, b, attempts) > 0 then 1 else 0
    ensures BulkUpTo(ks, found, ends, batches, attempts, mode, plan, t + 1, entries, outcomes, complete, flagged, marks, failed0 || bad,
                     stored, flags, calls, sequences, retries)
  {
    hide OnSchedule;
    NextBulk(ks, batches, attempts, mode, plan, t);
    CallsBehind(plan.attempts, plan.order[t], attempts, mode);
    hide BulkGoing, BulkOk, EndOf, CallsOf, RetriesOf, AllBulkOk, KeySet, Tried, BulkKept, BulkCalls, BulkRetries, Schedules;
  }

  lemma NothingBilled(ks: seq<Key>, found: map<Key, Value>, ends: Key -> End, batches: seq<seq<Group>>, attempts: nat, mode: Mode, plan: BulkPlan,
                    outcomes: seq<Outcome>)
    requires Schedules(plan.order, plan.stopped, |batches|) && attempts >= 1 && Worked(ks, found, found, plan.fates, outcomes, {})
    ensures BulkUpTo(ks, found, ends, batches, attempts, mode, plan, 0, found, outcomes, {}, {}, map[], false, 0, 0, [], 0, 0)
  {
    CountedNone(ks, |ks|);
    NothingTouched(ks, found, plan.fates, outcomes);
    hide BatchesGoing, Counted;
  }

  lemma NextBulk(ks: seq<Key>, batches: seq<seq<Group>>, attempts: nat, mode: Mode, plan: BulkPlan, t: nat)
    requires Schedules(plan.order, plan.stopped, |batches|) && t < |plan.order| && attempts >= 1
    ensures var b := plan.order[t];
      var end := EndOf(plan.attempts, b, attempts, mode);
      && (AllBulkOk(ks, batches, attempts, mode, plan, t + 1) <==> AllBulkOk(ks, batches, attempts, mode, plan, t) && BulkOk(ks, batches[b], end, plan))
      && (end.Broke? ==> !BulkOk(ks, batches[b], end, plan))
      && BulkKept(ks, batches, attempts, mode, plan, t + 1)
         == BulkKept(ks, batches, attempts, mode, plan, t) + (if end.Got? then Tried(ks, batches[b], plan.hookFails, plan.fates) else {})
      && BulkCalls(batches, attempts, plan, t + 1) == BulkCalls(batches, attempts, plan, t) + Same(|batches[b]|, CallsOf(plan.attempts, b, attempts))
      && BulkRetries(attempts, plan, t + 1) == BulkRetries(attempts, plan, t) + RetriesOf(plan.attempts, b, attempts)
  {
    hide EndOf, CallsOf, RetriesOf;
  }

  /** The calls are the first t batches of the schedule, once each. */
  ghost predicate OneCallEach(calls: seq<nat>, batches: seq<seq<Group>>, order: seq<nat>, t: nat)
    requires t <= |order| && forall u :: 0 <= u < |order| ==> order[u] < |batches|
  { |calls| == t && forall u :: 0 <= u < t ==> calls[u] == |batches[order[u]]| }

  /** Every batch call answers at its first attempt. */
  ghost predicate Smooth(plan: BulkPlan, n: nat) { forall b: nat :: b < n ==> plan.attempts(b, 1).Answers? }

  lemma {:induction false} SmoothCalls(batches: seq<seq<Group>>, attempts: nat, plan: BulkPlan, t: nat)
    requires Smooth(plan, |batches|) && attempts >= 1 && t <= |plan.order| && Schedules(plan.order, plan.stopped, |batches|)
    ensures OneCallEach(BulkCalls(batches, attempts, plan, t), batches, plan.order, t) && BulkRetries(attempts, plan, t) == 0
  {
    if t > 0 {
      SmoothCalls(batches, attempts, plan, t - 1);
      assert plan.attempts(plan.order[t - 1], 1).Answers?;
    }
  }

  /** Units paid for batches called once each are the keys they hold. */
  lemma {:induction false} StartedSize(ks: seq<Key>, missKeys: seq<Key>, batches: seq<seq<Group>>, order: seq<nat>, calls: seq<nat>, t: nat)
    requires Joined(batches) == GroupsFor(ks, missKeys) && Distinct(missKeys)
    requires Distinct(order) && (forall u :: 0 <= u < |order| ==> order[u] < |batches|)
    requires t <= |order| && OneCallEach(calls, batches, order, |order|)
    ensures |CachedBatches.Started(batches, order, t)| == Sum(calls[..t])
  {
    if t == 0 { assert CachedBatches.Started(batches, order, 0) == {}; } else {
      StartedSize(ks, missKeys, batches, order, calls, t - 1);
      OneMoreBatch(ks, missKeys, batches, order, t - 1);
      hide CachedBatches.Started;
      assert calls[..t][..t - 1] == calls[..t - 1];
    }
  }

  lemma OneMoreBatch(ks: seq<Key>, missKeys: seq<Key>, batches: seq<seq<Group>>, order: seq<nat>, t: nat)
    requires Joined(batches) == GroupsFor(ks, missKeys) && Distinct(missKeys)
    requires Distinct(order) && (forall u :: 0 <= u < |order| ==> order[u] < |batches|) && t < |order|
    ensures |CachedBatches.Started(batches, order, t + 1)| == |CachedBatches.Started(batches, order, t)| + |batches[order[t]]|
  {
    var batch, before := batches[order[t]], CachedBatches.Started(batches, order, t);
    BatchDistinct(ks, missKeys, batches, order[t]);
    KeySetSize(batch);
    forall p | 0 <= p < |batch| ensures batch[p].key !in before {
      forall u | 0 <= u < t ensures batch[p].key !in KeySet(batches[order[u]]) { KeyElsewhere(ks, missKeys, batches, order[t], p, order[u]); }
      InStarted(batches, order, t, batch[p].key);
    }
    StillApart(batch, before);
  }

  /** How many keys the first t batches of a schedule hold. */
  function Begun(batches: seq<seq<Group>>, order: seq<nat>, t: nat): nat
    requires t <= |order| && forall u :: 0 <= u < |order| ==> order[u] < |batches|
  { |CachedBatches.Started(batches, order, t)| }

  lemma BegunNext(ks: seq<Key>, missKeys: seq<Key>, batches: seq<seq<Group>>, order: seq<nat>, t: nat)
    requires Joined(batches) == GroupsFor(ks, missKeys) && Distinct(missKeys)
    requires Distinct(order) && (forall u :: 0 <= u < |order| ==> order[u] < |batches|) && t < |order|
    ensures Begun(batches, order, t + 1) == Begun(batches, order, t) + |batches[order[t]]| <= |missKeys|
    ensures Begun(batches, order, 0) == 0
  {
    OneMoreBatch(ks, missKeys, batches, order, t);
    StartedFits(ks, missKeys, batches, order, t + 1);
    assert CachedBatches.Started(batches, order, 0) == {};
  }

  /** Batches that are called once each pay for the keys they hold, which budgets that cover all misses
      can always admit. */
  lemma {:induction false} SmoothPaid(ks: seq<Key>, missKeys: seq<Key>, batches: seq<seq<Group>>, plan: BulkPlan, attempts: nat, w: Wallet, size: nat, t: nat)
    requires Joined(batches) == GroupsFor(ks, missKeys) && Distinct(missKeys) && (forall b :: 0 <= b < |batches| ==> 1 <= |batches[b]| <= size)
    requires attempts >= 1 && Schedules(plan.order, plan.stopped, |batches|) && t < |plan.order|
    requires Smooth(plan, |batches|) && w.Covers(|missKeys|, size)
    ensures PaidUpTo(plan.attempts, Sizes(batches), plan.order, attempts, w, t) == Begun(batches, plan.order, t)
    ensures Heed(plan, batches, attempts, w).attempts(plan.order[t], 1).Answers?
  {
    hide Schedules, Distinct, Begun, Smooth, Wallet.Covers, Heed, Joined, GroupsFor, PaidUpTo;
    Starts(plan.order, plan.stopped, |batches|);
    BegunNext(ks, missKeys, batches, plan.order, t);
    if t > 0 {
      BegunNext(ks, missKeys, batches, plan.order, t - 1);
      SmoothPaid(ks, missKeys, batches, plan, attempts, w, size, t - 1);
      OneMorePaid(batches, plan, attempts, w, t - 1, |missKeys|, size);
    } else { PaidNothing(plan.attempts, Sizes(batches), plan.order, attempts, w); }
    OneMorePaid(batches, plan, attempts, w, t, |missKeys|, size);
  }

  lemma Starts(order: seq<nat>, stopped: bool, n: nat)
    requires Schedules(order, stopped, n)
    ensures Distinct(order) && forall u :: 0 <= u < |order| ==> order[u] < n
  {}

  lemma OneMorePaid(batches: seq<seq<Group>>, plan: BulkPlan, attempts: nat, w: Wallet, t: nat, n: nat, size: nat)
    requires attempts >= 1 && Schedules(plan.order, plan.stopped, |batches|) && t < |plan.order| && 1 <= |batches[plan.order[t]]| <= size
    requires Smooth(plan, |batches|) && w.Covers(n, size)
    requires 0 <= PaidUpTo(plan.attempts, Sizes(batches), plan.order, attempts, w, t) <= n - |batches[plan.order[t]]|
    ensures Heed(plan, batches, attempts, w).attempts(plan.order[t], 1).Answers?
    ensures PaidUpTo(plan.attempts, Sizes(batches), plan.order, attempts, w, t + 1)
            == PaidUpTo(plan.attempts, Sizes(batches), plan.order, attempts, w, t) + |batches[plan.order[t]]|
  {
    var b, p := plan.order[t], PaidUpTo(plan.attempts, Sizes(batches), plan.order, attempts, w, t);
    var units := |batches[b]|;
    RealAt(plan.attempts, Sizes(batches), plan.order, attempts, w, t, 1);
    CoveredAdmits(w, n, size, p, units);
    ChargedNothing(w.After(p).balance, w.marks);
    assert HeardAt(plan.attempts(b, 1), w.After(p), units, 1).Answers?;
    AnsweredOnce(Hearing(plan.attempts, w.After(p), units), b, attempts);
    assert A.Times(units, 1) == A.Times(units, 0) + units;
    hide RealScript, CallsOf, Hearing, HeardAt;
  }

  lemma AnsweredOnce(script: Script, b: nat, attempts: nat)
    requires attempts >= 1 && script(b, 1).Answers?
    ensures CallsOf(script, b, attempts) == 1
  {}

  lemma StartedFits(ks: seq<Key>, missKeys: seq<Key>, batches: seq<seq<Group>>, order: seq<nat>, t: nat)
    requires Joined(batches) == GroupsFor(ks, missKeys) && Distinct(missKeys)
    requires (forall u :: 0 <= u < |order| ==> order[u] < |batches|) && t <= |order|
    ensures |CachedBatches.Started(batches, order, t)| <= |missKeys|
  {
    var some := CachedBatches.Started(batches, order, t);
    var all := set k | k in missKeys;
    SizeOfDistinct(missKeys, all);
    forall k | k in some ensures k in all {
      InStarted(batches, order, t, k);
      InStarted(batches, order, |order|, k);
      StartedMisses(ks, missKeys, batches, order, k);
    }
    SubsetSize(some, all);
  }

  lemma SubsetSize<T>(a: set<T>, b: set<T>)
    requires a <= b
    ensures |a| <= |b|
  {
    assert b == a + (b - a);
  }

  /** If the environment lets every call through and each is answered, and the budgets cover the misses,
      then so it turns out. */
  lemma SmoothHeeded(ks: seq<Key>, missKeys: seq<Key>, batches: seq<seq<Group>>, plan: BulkPlan, attempts: nat, w: Wallet, size: nat)
    requires Joined(batches) == GroupsFor(ks, missKeys) && Distinct(missKeys) && (forall b :: 0 <= b < |batches| ==> 1 <= |batches[b]| <= size)
    requires attempts >= 1 && Schedules(plan.order, plan.stopped, |batches|)
    requires Smooth(plan, |batches|) && w.Covers(|missKeys|, size)
    ensures Smooth(Heed(plan, batches, attempts, w), |batches|)
  {
    forall b: nat | b < |batches| ensures Heed(plan, batches, attempts, w).attempts(b, 1).Answers? {
      if u: nat :| u < |plan.order| && plan.order[u] == b {
        hide *;
        SmoothPaid(ks, missKeys, batches, plan, attempts, w, size, u);
      } else {
        hide PaidUpTo, HeardAt;
        assert RealAttempt(plan.attempts, Sizes(batches), plan.order, attempts, w, b, 1) == plan.attempts(b, 1);
      }
    }
  }

  lemma BatchDistinct(ks: seq<Key>, missKeys: seq<Key>, batches: seq<seq<Group>>, b: nat)
    requires Joined(batches) == GroupsFor(ks, missKeys) && Distinct(missKeys) && b < |batches|
    ensures forall p, q :: 0 <= p < q < |batches[b]| ==> batches[b][p].key != batches[b][q].key
  {
    forall p, q | 0 <= p < q < |batches[b]| ensures batches[b][p].key != batches[b][q].key {
      JoinedAt(batches, b, p);
      JoinedAt(batches, b, q);
      AtOrder(batches, b, p, q);
      assert missKeys[At(batches, b, p)] != missKeys[At(batches, b, q)];
    }
  }

  // ----- the bulk step ---------------------------------------------------------------------------------

  function BatchesOf(ks: seq<Key>, found: map<Key, Value>, size: nat): seq<seq<Group>>
    requires size >= 1
  { Cut(GroupsFor(ks, MissKeys(ks, found)), size) }

  /** One input of a bulk run without an error: the value found, its key's stored value, or a flag of its own. */
  ghost predicate BulkInput(found: map<Key, Value>, entries: map<Key, Value>, ends: Key -> End, mode: Mode, i: nat, k: Key, r: Result) {
    if k in found then k in entries && entries[k] == found[k] && r == Done(found[k], Hit)
    else if ends(k).Flagged? then k !in entries && r == FlagOf(i, mode, ends(k))
    else k in entries && r == Done(entries[k], Stored)
  }

  /** The missing keys whose batch failed as data. */
  ghost function FlaggedKeys(ks: seq<Key>, found: map<Key, Value>, ends: Key -> End): set<Key> { set k | k in ks && k !in found && ends(k).Flagged? }

  /** A bulk run without an error. */
  ghost predicate BulkSucceeded(keys: seq<KeyResult>, found: map<Key, Value>, entries: map<Key, Value>, ends: Key -> End, mode: Mode,
                                results: seq<Result>, hits: nat, misses: nat, stored: nat, flags: nat) {
    && AllBuilt(keys, |keys|) && |results| == |keys|
    && (forall i :: 0 <= i < |keys| ==> BulkInput(found, entries, ends, mode, i, keys[i].key, results[i]))
    && (forall k :: k in found ==> k in entries && entries[k] == found[k])
    && (forall k :: k in entries ==> k in found || k in KeysOf(keys, |keys|))
    && hits == Counted(KeysOf(keys, |keys|), |keys|, found.Keys) && hits + misses == |keys|
    && |entries| == |found| + stored
    && flags == Counted(KeysOf(keys, |keys|), |keys|, FlaggedKeys(KeysOf(keys, |keys|), found, ends))
  }

  /** What a run costs whose calls all answer at once: one unit per unique miss, in as few calls as the
      batch size allows. */
  ghost predicate SmoothBill(ks: seq<Key>, found: map<Key, Value>, size: nat, spent: nat, workCalls: nat, retries: nat)
    requires size >= 1
  { retries == 0 && spent == |MissKeys(ks, found)| && workCalls == Ceil(|MissKeys(ks, found)|, size) }

  /** Exactly what a run has called, retried and stored when it ends, whether it fails or not. */
  ghost predicate BulkAccounted(keys: seq<KeyResult>, found: map<Key, Value>, size: nat, attempts: nat, mode: Mode, plan: BulkPlan,
                                entries: map<Key, Value>, calls: seq<nat>, retries: nat, stored: nat)
    requires size >= 1 && attempts >= 1
    requires AllBuilt(keys, |keys|) ==> Schedules(plan.order, plan.stopped, |BatchesOf(KeysOf(keys, |keys|), found, size)|)
  {
    if Reaches(keys, found, plan.loadFails, plan.hookFails) then
      var ks := KeysOf(keys, |keys|);
      var batches := BatchesOf(ks, found, size);
      var kept := BulkKept(ks, batches, attempts, mode, plan, |plan.order|);
      && calls == BulkCalls(batches, attempts, plan, |plan.order|) && retries == BulkRetries(attempts, plan, |plan.order|)
      && stored == |StoredIn(kept, plan.fates)| && Left(found, kept, plan.fates, entries)
    else calls == [] && retries == 0 == stored && entries == found
  }

  /** What a run needs in order to succeed. */
  ghost predicate BulkClear(keys: seq<KeyResult>, found: map<Key, Value>, size: nat, attempts: nat, mode: Mode, plan: BulkPlan)
    requires size >= 1 && attempts >= 1
  {
    && Reaches(keys, found, plan.loadFails, plan.hookFails)
    && (plan.stopped ==> MissKeys(KeysOf(keys, |keys|), found) == [])
    && BatchesAllOk(KeysOf(keys, |keys|), BatchesOf(KeysOf(keys, |keys|), found, size), attempts, mode, plan)
  }

  ghost predicate BatchesAllOk(ks: seq<Key>, batches: seq<seq<Group>>, attempts: nat, mode: Mode, plan: BulkPlan)
    requires attempts >= 1
  { forall b: nat :: b < |batches| ==> BulkOk(ks, batches[b], EndOf(plan.attempts, b, attempts, mode), plan) }

  lemma AllOkIs(ks: seq<Key>, batches: seq<seq<Group>>, attempts: nat, mode: Mode, plan: BulkPlan)
    requires AllStart(plan.order, plan.stopped, |batches|) && attempts >= 1
    ensures AllBulkOk(ks, batches, attempts, mode, plan, |plan.order|) <==> BatchesAllOk(ks, batches, attempts, mode, plan)
  {
    hide BulkOk, EndOf;
    if AllBulkOk(ks, batches, attempts, mode, plan, |plan.order|) {
      forall b: nat | b < |batches| ensures BulkOk(ks, batches[b], EndOf(plan.attempts, b, attempts, mode), plan) {
        assert b in plan.order;
        var u :| 0 <= u < |plan.order| && plan.order[u] == b;
      }
    }
  }

  /** What has been done, and whether the run succeeds, once its batches have ended. */
  lemma BulkVerdict(keys: seq<KeyResult>, found: map<Key, Value>, size: nat, ends: Key -> End, attempts: nat, mode: Mode, plan: BulkPlan,
                    entries: map<Key, Value>, outcomes: seq<Outcome>, complete: set<Key>, flagged: set<Key>, marks: map<nat, Result>, failed: bool,
                    stored: nat, flags: nat, calls: seq<nat>, sequences: nat, retries: nat)
    requires size >= 1 && attempts >= 1 && Reaches(keys, found, plan.loadFails, plan.hookFails)
    requires Schedules(plan.order, plan.stopped, |BatchesOf(KeysOf(keys, |keys|), found, size)|)
    requires BulkUpTo(KeysOf(keys, |keys|), found, ends, BatchesOf(KeysOf(keys, |keys|), found, size), attempts, mode, plan, |plan.order|,
                      entries, outcomes, complete, flagged, marks, failed, stored, flags, calls, sequences, retries)
    ensures BulkAccounted(keys, found, size, attempts, mode, plan, entries, calls, retries, stored)
    ensures BulkClear(keys, found, size, attempts, mode, plan) <==> !failed && (plan.stopped ==> MissKeys(KeysOf(keys, |keys|), found) == [])
    ensures |calls| <= sequences + retries && (!failed ==> |calls| == sequences + retries)
  {
    Opened(KeysOf(keys, |keys|), found, ends, BatchesOf(KeysOf(keys, |keys|), found, size), attempts, mode, plan, |plan.order|,
           entries, outcomes, complete, flagged, marks, failed, stored, flags, calls, sequences, retries);
    var ks := KeysOf(keys, |keys|);
    var missKeys, batches := MissKeys(ks, found), BatchesOf(ks, found, size);
    CutPartitions(GroupsFor(ks, missKeys), size);
    assert missKeys == [] ==> batches == [];
    hide KeysOf, MissKeys, BatchesOf, Schedules, Reaches, Left, Worked, FlagsOk, BulkKept, BulkCalls, BulkRetries, AllBulkOk, BatchesAllOk, OnSchedule, Counted;
    if plan.stopped ==> missKeys == [] { AllOkIs(ks, batches, attempts, mode, plan); }
  }

  /** The result of one input, from its outcome. */
  function Pick(o: Outcome, i: nat, loaded: map<nat, Value>, marks: map<nat, Result>, fate: Fate): Option<Result> {
    if !o.Outcome? then None
    else if o.state.Hit? then (if i in loaded then Some(Done(loaded[i], Hit)) else None)
    else if o.state.Stored? then (if fate.Stores? then Some(Done(fate.value, Stored)) else None)
    else if i in marks then Some(marks[i]) else None
  }

  method Assemble(keys: seq<KeyResult>, ks: seq<Key>, outcomes: seq<Outcome>, loaded: map<nat, Value>, marks: map<nat, Result>, fates: Key -> Fate)
    returns (list: seq<Result>)
    requires |outcomes| == |ks| && forall i: nat :: i < |ks| ==> Pick(outcomes[i], i, loaded, marks, fates(ks[i])).Some?
    ensures |list| == |ks| && forall i: nat :: i < |ks| ==> Some(list[i]) == Pick(outcomes[i], i, loaded, marks, fates(ks[i]))
  {
    list := [];
    var i := 0;
    while i < |ks|
      invariant 0 <= i <= |ks| && |list| == i
      invariant forall j: nat :: j < i ==> Some(list[j]) == Pick(outcomes[j], j, loaded, marks, fates(ks[j]))
    {
      list := list + [Pick(outcomes[i], i, loaded, marks, fates(ks[i])).value];
      i := i + 1;
    }
  }

  /** Every input of a run without an error can be assembled, and is what it should be. */
  lemma Assembled(ks: seq<Key>, found: map<Key, Value>, fates: Key -> Fate, ends: Key -> End, mode: Mode, entries: map<Key, Value>,
                  loaded0: seq<Outcome>, loaded: map<nat, Value>, outcomes: seq<Outcome>, kept: set<Key>, complete: set<Key>, flagged: set<Key>,
                  marks: map<nat, Result>, stored: nat, flags: nat, i: nat)
    requires BulkGoing(ks, found, fates, ends, mode, entries, outcomes, kept, complete, flagged, marks, false, stored, flags)
    requires Looked(ks, found, set k | k in ks, [], loaded0, loaded)
    requires i < |ks| && (ks[i] in kept + flagged <==> ks[i] !in found)
    ensures var r := Pick(outcomes[i], i, loaded, marks, fates(ks[i])); r.Some? && BulkInput(found, entries, ends, mode, i, ks[i], r.value)
  {
    assert OutcomeOk(found, entries, complete, ks[i], outcomes[i]);
    assert LeftAt(found, kept, fates, entries, ks[i]);
    assert ks[i] in ks;
  }

  /** Everything that the end of a run without an error starts from. */
  ghost predicate Concluding(ks: seq<Key>, batches: seq<seq<Group>>, found: map<Key, Value>, ends: Key -> End, plan: BulkPlan, mode: Mode, entries: map<Key, Value>,
                             loaded0: seq<Outcome>, loaded: map<nat, Value>, outcomes: seq<Outcome>, kept: set<Key>, complete: set<Key>,
                             flagged: set<Key>, marks: map<nat, Result>, stored: nat, flags: nat) {
    && Joined(batches) == GroupsFor(ks, MissKeys(ks, found)) && AllStart(plan.order, plan.stopped, |batches|)
    && Looked(ks, found, set k | k in ks, [], loaded0, loaded)
    && BulkGoing(ks, found, plan.fates, ends, mode, entries, outcomes, kept, complete, flagged, marks, false, stored, flags)
    && kept + flagged == CachedBatches.Started(batches, plan.order, |plan.order|)
  }

  lemma AllDealtWith(ks: seq<Key>, batches: seq<seq<Group>>, found: map<Key, Value>, plan: BulkPlan, k: Key)
    requires Joined(batches) == GroupsFor(ks, MissKeys(ks, found)) && AllStart(plan.order, plan.stopped, |batches|)
    ensures k in CachedBatches.Started(batches, plan.order, |plan.order|) <==> k in ks && k !in found
  {
    AllBatches(ks, found, batches, plan.order, plan.stopped);
    InMissKeys(ks, found, k);
  }

  lemma AllAssembled(ks: seq<Key>, batches: seq<seq<Group>>, found: map<Key, Value>, ends: Key -> End, plan: BulkPlan, mode: Mode, entries: map<Key, Value>,
                     loaded0: seq<Outcome>, loaded: map<nat, Value>, outcomes: seq<Outcome>, kept: set<Key>, complete: set<Key>,
                     flagged: set<Key>, marks: map<nat, Result>, stored: nat, flags: nat)
    requires Concluding(ks, batches, found, ends, plan, mode, entries, loaded0, loaded, outcomes, kept, complete, flagged, marks, stored, flags)
    ensures |outcomes| == |ks| && flagged == FlaggedKeys(ks, found, ends)
    ensures forall i: nat :: i < |ks| ==> var r := Pick(outcomes[i], i, loaded, marks, plan.fates(ks[i]));
              r.Some? && BulkInput(found, entries, ends, mode, i, ks[i], r.value)
  {
    OutcomesFit(ks, found, plan.fates, entries, outcomes, complete);
    hide Pick, BulkInput, Looked, Worked, Left, FlagsOk, Counted, AllStart;
    forall k ensures k in flagged <==> k in FlaggedKeys(ks, found, ends) { AllDealtWith(ks, batches, found, plan, k); }
    forall i: nat | i < |ks| ensures var r := Pick(outcomes[i], i, loaded, marks, plan.fates(ks[i]));
        r.Some? && BulkInput(found, entries, ends, mode, i, ks[i], r.value) {
      assert ks[i] in ks;
      AllDealtWith(ks, batches, found, plan, ks[i]);
      Assembled(ks, found, plan.fates, ends, mode, entries, loaded0, loaded, outcomes, kept, complete, flagged, marks, stored, flags, i);
    }
  }

  lemma OutcomesFit(ks: seq<Key>, found: map<Key, Value>, fates: Key -> Fate, entries: map<Key, Value>, outcomes: seq<Outcome>, complete: set<Key>)
    requires Worked(ks, found, entries, fates, outcomes, complete)
    ensures |outcomes| == |ks| && Grown(ks, found, entries)
  {}

  lemma CountsFit(ks: seq<Key>, found: map<Key, Value>, fates: Key -> Fate, ends: Key -> End, mode: Mode, entries: map<Key, Value>, outcomes: seq<Outcome>,
                  kept: set<Key>, complete: set<Key>, flagged: set<Key>, marks: map<nat, Result>, stored: nat, flags: nat)
    requires BulkGoing(ks, found, fates, ends, mode, entries, outcomes, kept, complete, flagged, marks, false, stored, flags)
    ensures Grown(ks, found, entries) && |entries| == |found| + stored && flags == Counted(ks, |ks|, flagged)
  {
    OutcomesFit(ks, found, fates, entries, outcomes, complete);
    hide Worked, Left, FlagsOk, Counted, Grown;
  }

  lemma Succeeds(keys: seq<KeyResult>, ks: seq<Key>, batches: seq<seq<Group>>, found: map<Key, Value>, ends: Key -> End, plan: BulkPlan, mode: Mode,
                 entries: map<Key, Value>, loaded0: seq<Outcome>, loaded: map<nat, Value>, outcomes: seq<Outcome>, kept: set<Key>, complete: set<Key>,
                 flagged: set<Key>, marks: map<nat, Result>, hits: nat, misses: nat, stored: nat, flags: nat, list: seq<Result>)
    requires Concluding(ks, batches, found, ends, plan, mode, entries, loaded0, loaded, outcomes, kept, complete, flagged, marks, stored, flags)
    requires AllBuilt(keys, |keys|) && ks == KeysOf(keys, |keys|) && hits == Counted(ks, |ks|, found.Keys) && hits + misses == |ks|
    requires |outcomes| == |ks| == |list| && forall i: nat :: i < |ks| ==> Some(list[i]) == Pick(outcomes[i], i, loaded, marks, plan.fates(ks[i]))
    ensures BulkSucceeded(keys, found, entries, ends, mode, list, hits, misses, stored, flags) == true
  {
    AllAssembled(ks, batches, found, ends, plan, mode, entries, loaded0, loaded, outcomes, kept, complete, flagged, marks, stored, flags);
    CountsFit(ks, found, plan.fates, ends, mode, entries, outcomes, kept, complete, flagged, marks, stored, flags);
    hide Concluding;
    forall i: nat | i < |keys| ensures BulkInput(found, entries, ends, mode, i, keys[i].key, list[i]) {
      hide *;
      var r := Pick(outcomes[i], i, loaded, marks, plan.fates(ks[i]));
      assert r == Some(list[i]) && ks[i] == keys[i].key;
    }
    SucceedsIf(keys, ks, found, ends, mode, entries, flagged, hits, misses, stored, flags, list);
  }

  lemma SucceedsIf(keys: seq<KeyResult>, ks: seq<Key>, found: map<Key, Value>, ends: Key -> End, mode: Mode, entries: map<Key, Value>, flagged: set<Key>,
                   hits: nat, misses: nat, stored: nat, flags: nat, list: seq<Result>)
    requires AllBuilt(keys, |keys|) && ks == KeysOf(keys, |keys|) && |list| == |ks|
    requires forall i: nat :: i < |keys| ==> BulkInput(found, entries, ends, mode, i, keys[i].key, list[i])
    requires Grown(ks, found, entries) && |entries| == |found| + stored
    requires hits == Counted(ks, |ks|, found.Keys) && hits + misses == |ks|
    requires flags == Counted(ks, |ks|, flagged) && flagged == FlaggedKeys(ks, found, ends)
    ensures BulkSucceeded(keys, found, entries, ends, mode, list, hits, misses, stored, flags) == true
  {
    hide BulkInput, Counted, FlaggedKeys;
  }

  lemma NewFromFates(ks: seq<Key>, found: map<Key, Value>, entries: map<Key, Value>, fates: Key -> Fate, outcomes: seq<Outcome>, kept: set<Key>,
                     complete: set<Key>, stored: nat)
    requires BatchesGoing(ks, found, fates, entries, outcomes, kept, complete, false, stored)
    ensures FromFates(found, entries, fates) == true
  {
    forall k | k in entries && k !in found ensures fates(k) == Stores(entries[k]) { assert LeftAt(found, kept, fates, entries, k); }
  }

  /** The part of a run after its loads. */
  method BulkMisses(cache: Cache, tally: Tally, purse: Purse, keys: seq<KeyResult>, ks: seq<Key>, missGroups: seq<Group>, size: nat, attempts: nat, mode: Mode,
                    plan: BulkPlan, loaded: seq<Outcome>, hitResults: map<nat, Value>, hits: nat, misses: nat,
                    ghost heeded: BulkPlan, ghost w: Wallet)
    returns (out: Option<seq<Result>>)
    requires tally.Valid() && size >= 1 && attempts >= 1 && tally.calls == []
    requires tally.sequences == tally.retries == tally.stored == tally.quarantined == tally.skipped == 0
    requires Reaches(keys, cache.entries, plan.loadFails, plan.hookFails) && ks == KeysOf(keys, |keys|)
    requires missGroups == GroupsFor(ks, MissKeys(ks, cache.entries)) && Schedules(plan.order, plan.stopped, |BatchesOf(ks, cache.entries, size)|)
    requires Heeds(heeded, plan, BatchesOf(ks, cache.entries, size), attempts, w) == true && Bound(purse, w) == true && Settled(w, 0) == true
    requires Looked(ks, cache.entries, set k | k in ks, [], loaded, hitResults) == true
    requires hits == Counted(ks, |ks|, cache.entries.Keys) && hits + misses == |ks|
    modifies cache, tally, w.balance.Keys
    ensures Settled(w, Sum(tally.calls)) == true
    ensures tally.Valid() && tally.Others(mode) == 0
    ensures tally.workCalls <= tally.sequences + tally.retries && (out.Some? ==> tally.workCalls == tally.sequences + tally.retries)
    ensures BulkAccounted(keys, old(cache.entries), size, attempts, mode, heeded, cache.entries, tally.calls, tally.retries, tally.stored) == true
    ensures out.Some? == BulkClear(keys, old(cache.entries), size, attempts, mode, heeded)
    ensures out.Some? ==> FromFates(old(cache.entries), cache.entries, plan.fates) == true
    ensures out.Some? ==> BulkSucceeded(keys, old(cache.entries), cache.entries,
              EndsOf(BatchesOf(ks, old(cache.entries), size), heeded.attempts, attempts, mode), mode, out.value, hits, misses, tally.stored, tally.Flags(mode)) == true
    ensures out.Some? && Smooth(heeded, |BatchesOf(ks, old(cache.entries), size)|) ==>
              SmoothBill(ks, old(cache.entries), size, Sum(tally.calls), tally.workCalls, tally.retries) == true
  {
    var batches := CutInto(missGroups, size);
    ghost var found, ends := cache.entries, EndsOf(batches, heeded.attempts, attempts, mode);
    BatchesFit(ks, found, size, heeded.attempts, attempts, mode);
    assert heeded.order == plan.order && heeded.stopped == plan.stopped && heeded.fates == plan.fates;
    NoneDone(ks, found, ends, batches, attempts, mode, heeded, loaded, hitResults);
    var failed, outcomes, marks;
    ghost var complete, flagged;
    failed, outcomes, marks, complete, flagged := RunBulkBatches(cache, tally, purse, batches, attempts, mode, plan, loaded, ks, ends, heeded, w);
    BulkVerdict(keys, found, size, ends, attempts, mode, heeded, cache.entries, outcomes, complete, flagged, marks, failed,
                tally.stored, tally.Flags(mode), tally.calls, tally.sequences, tally.retries);
    if failed || (plan.stopped && missGroups != []) { return None; }
    var list := ConcludeBulk(keys, ks, size, attempts, mode, plan, cache.entries, loaded, hitResults, outcomes, marks, hits, misses,
                             heeded, found, ends, complete, flagged, tally.stored, tally.Flags(mode), tally.calls, tally.sequences, tally.retries);
    out := Some(list);
  }

  /** The results of a run without an error. */
  method ConcludeBulk(keys: seq<KeyResult>, ks: seq<Key>, ghost size: nat, ghost attempts: nat, ghost mode: Mode, plan: BulkPlan, ghost entries: map<Key, Value>,
                      ghost loaded: seq<Outcome>, hitResults: map<nat, Value>, outcomes: seq<Outcome>, marks: map<nat, Result>, ghost hits: nat, ghost misses: nat,
                      ghost heeded: BulkPlan, ghost found: map<Key, Value>, ghost ends: Key -> End, ghost complete: set<Key>, ghost flagged: set<Key>,
                      ghost stored: nat, ghost flags: nat, ghost calls: seq<nat>, ghost sequences: nat, ghost retries: nat)
    returns (list: seq<Result>)
    requires size >= 1 && attempts >= 1 && (heeded.stopped ==> MissKeys(ks, found) == []) && heeded.fates == plan.fates
    requires Schedules(heeded.order, heeded.stopped, |BatchesOf(ks, found, size)|) == true
    requires Looked(ks, found, set k | k in ks, [], loaded, hitResults) == true
    requires BulkUpTo(ks, found, ends, BatchesOf(ks, found, size), attempts, mode, heeded, |heeded.order|,
                      entries, outcomes, complete, flagged, marks, false, stored, flags, calls, sequences, retries) == true
    requires AllBuilt(keys, |keys|) && ks == KeysOf(keys, |keys|) && hits == Counted(ks, |ks|, found.Keys) && hits + misses == |ks|
    ensures BulkSucceeded(keys, found, entries, ends, mode, list, hits, misses, stored, flags) == true
    ensures FromFates(found, entries, plan.fates) == true
    ensures Smooth(heeded, |BatchesOf(ks, found, size)|) ==> SmoothBill(ks, found, size, Sum(calls), |calls|, retries) == true
  {
    ghost var batches := BatchesOf(ks, found, size);
    ghost var kept := BulkKept(ks, batches, attempts, mode, heeded, |heeded.order|);
    Concludes(ks, found, size, ends, attempts, mode, heeded, entries, loaded, hitResults, outcomes, complete, flagged, marks, false,
              stored, flags, calls, sequences, retries);
    AllAssembled(ks, batches, found, ends, heeded, mode, entries, loaded, hitResults, outcomes, kept, complete, flagged, marks, stored, flags);
    list := Assemble(keys, ks, outcomes, hitResults, marks, plan.fates);
    Succeeds(keys, ks, batches, found, ends, heeded, mode, entries, loaded, hitResults, outcomes, kept, complete, flagged, marks,
             hits, misses, stored, flags, list);
    NewFromFates(ks, found, entries, plan.fates, outcomes, kept, complete, stored);
    if Smooth(heeded, |batches|) { BillIs(ks, found, size, attempts, heeded, calls, retries); }
  }

  lemma BatchesFit(ks: seq<Key>, found: map<Key, Value>, size: nat, script: Script, attempts: nat, mode: Mode)
    requires size >= 1 && attempts >= 1
    ensures var batches, missKeys := BatchesOf(ks, found, size), MissKeys(ks, found);
      && Joined(batches) == GroupsFor(ks, missKeys) && |batches| == Ceil(|missKeys|, size)
      && EndsAre(batches, EndsOf(batches, script, attempts, mode), script, attempts, mode) == true
  {
    CutPartitions(GroupsFor(ks, MissKeys(ks, found)), size);
    MissKeysDistinct(ks, found);
    EndsAgree(ks, MissKeys(ks, found), BatchesOf(ks, found, size), script, attempts, mode);
  }

  lemma NoneDone(ks: seq<Key>, found: map<Key, Value>, ends: Key -> End, batches: seq<seq<Group>>, attempts: nat, mode: Mode, plan: BulkPlan,
                 loaded: seq<Outcome>, hitResults: map<nat, Value>)
    requires Looked(ks, found, set k | k in ks, [], loaded, hitResults) && Schedules(plan.order, plan.stopped, |batches|) && attempts >= 1
    ensures BulkUpTo(ks, found, ends, batches, attempts, mode, plan, 0, found, loaded, {}, {}, map[], false, 0, 0, [], 0, 0) == true
  {
    LookedWorks(ks, found, plan.fates, loaded, hitResults);
    NothingBilled(ks, found, ends, batches, attempts, mode, plan, loaded);
  }

  lemma Concludes(ks: seq<Key>, found: map<Key, Value>, size: nat, ends: Key -> End, attempts: nat, mode: Mode, plan: BulkPlan, entries: map<Key, Value>,
                  loaded0: seq<Outcome>, loaded: map<nat, Value>, outcomes: seq<Outcome>, complete: set<Key>, flagged: set<Key>, marks: map<nat, Result>,
                  failed: bool, stored: nat, flags: nat, calls: seq<nat>, sequences: nat, retries: nat)
    requires size >= 1 && attempts >= 1 && !failed && (plan.stopped ==> MissKeys(ks, found) == [])
    requires Schedules(plan.order, plan.stopped, |BatchesOf(ks, found, size)|) && Looked(ks, found, set k | k in ks, [], loaded0, loaded)
    requires BulkUpTo(ks, found, ends, BatchesOf(ks, found, size), attempts, mode, plan, |plan.order|,
                      entries, outcomes, complete, flagged, marks, failed, stored, flags, calls, sequences, retries)
    ensures Concluding(ks, BatchesOf(ks, found, size), found, ends, plan, mode, entries, loaded0, loaded, outcomes,
                       BulkKept(ks, BatchesOf(ks, found, size), attempts, mode, plan, |plan.order|), complete, flagged, marks, stored, flags) == true
    ensures calls == BulkCalls(BatchesOf(ks, found, size), attempts, plan, |plan.order|) && retries == BulkRetries(attempts, plan, |plan.order|)
    ensures AllStart(plan.order, plan.stopped, |BatchesOf(ks, found, size)|)
  {
    Opened(ks, found, ends, BatchesOf(ks, found, size), attempts, mode, plan, |plan.order|,
           entries, outcomes, complete, flagged, marks, failed, stored, flags, calls, sequences, retries);
    var batches := BatchesOf(ks, found, size);
    assert Joined(batches) == GroupsFor(ks, MissKeys(ks, found)) && (plan.stopped ==> |batches| == 0) by {
      CutPartitions(GroupsFor(ks, MissKeys(ks, found)), size);
      hide BulkDone;
    }
    hide BulkGoing, Looked, BulkKept, MissKeys, BulkCalls, BulkRetries, AllBulkOk, BatchesOf, Schedules, GroupsFor, CachedBatches.Started, Joined;
  }

  /** The plan of a run as it turns out once the accounts have had their say. */
  ghost function Heeded(keys: seq<KeyResult>, found: map<Key, Value>, size: nat, attempts: nat, plan: BulkPlan, w: Wallet): BulkPlan
    requires size >= 1 && attempts >= 1
    requires AllBuilt(keys, |keys|) ==> Schedules(plan.order, plan.stopped, |BatchesOf(KeysOf(keys, |keys|), found, size)|)
  { if AllBuilt(keys, |keys|) then Heed(plan, BatchesOf(KeysOf(keys, |keys|), found, size), attempts, w) else plan }

  /** Every account has fallen by the units paid, once per occurrence, and no budget is overdrawn. */
  ghost predicate Paid(w: Wallet, paid: nat)
    reads w.balance.Keys
  {
    forall b :: b in w.balance ==> b.remaining == w.balance[b] - paid * w.marks[b] && (A.Within(w.balance) ==> b.remaining <= b.limit && (b.rated || 0 <= b.remaining))
  }

  lemma SettledIsPaid(w: Wallet, paid: nat)
    requires Settled(w, paid)
    ensures Paid(w, paid)
  {
    HoldingIs(w, paid);
    forall b | b in w.balance ensures b.remaining == w.balance[b] - paid * w.marks[b] && (A.Within(w.balance) ==> b.remaining <= b.limit && (b.rated || 0 <= b.remaining)) {
      assert b in w.After(paid).balance;
      A.TimesIsProduct(paid, w.marks[b]);
    }
  }

  /** The bulk step over the whole list of inputs.  However it ends, each account has paid for exactly the
      calls that were made. */
  method RunBulk(cache: Cache, tally: Tally, purse: Purse, keys: seq<KeyResult>, size: nat, attempts: nat, mode: Mode, plan: BulkPlan, ghost was: A.Balance)
    returns (out: Option<seq<Result>>, hits: nat, misses: nat)
    requires tally.Valid() && size >= 1 && attempts >= 1 && tally.calls == []
    requires tally.sequences == tally.retries == tally.stored == tally.quarantined == tally.skipped == 0
    requires A.Records(was) && forall b :: b in WalletOf(purse, was).marks ==> b in was
    requires AllBuilt(keys, |keys|) ==> Schedules(plan.order, plan.stopped, |BatchesOf(KeysOf(keys, |keys|), cache.entries, size)|)
    modifies cache, tally, was.Keys
    ensures Paid(WalletOf(purse, was), Sum(tally.calls))
    ensures tally.workCalls == |tally.calls| && tally.Others(mode) == 0
    ensures tally.workCalls <= tally.sequences + tally.retries && (out.Some? ==> tally.workCalls == tally.sequences + tally.retries)
    ensures var found, w := old(cache.entries), WalletOf(purse, was);
      var heeded := Heeded(keys, found, size, attempts, plan, w);
      && BulkAccounted(keys, found, size, attempts, mode, heeded, cache.entries, tally.calls, tally.retries, tally.stored)
      && (Reaches(keys, found, plan.loadFails, plan.hookFails) ==> Loaded(keys, found, hits, misses))
      && (out.Some? <==> BulkClear(keys, found, size, attempts, mode, heeded))
      && (out.Some? ==> FromFates(found, cache.entries, plan.fates))
      && (out.Some? ==> BulkSucceeded(keys, found, cache.entries, EndsOf(BatchesOf(KeysOf(keys, |keys|), found, size), heeded.attempts, attempts, mode), mode,
                                      out.value, hits, misses, tally.stored, tally.Flags(mode)))
      && (out.Some? && Smooth(heeded, |BatchesOf(KeysOf(keys, |keys|), found, size)|) ==>
            SmoothBill(KeysOf(keys, |keys|), found, size, Sum(tally.calls), tally.workCalls, tally.retries))
  {
    out, hits, misses := None, 0, 0;
    ghost var w, found := WalletOf(purse, was), cache.entries;
    NothingPaid(w);
    SettledIsPaid(w, 0);
    var bad, groups, outcomes := GroupKeys(keys);
    if bad.Some? { return; }
    var ks := KeysOf(keys, |keys|);
    var failed, results, missGroups;
    failed, outcomes, results, hits, misses, missGroups := LoadGroups(cache.entries, ks, groups, plan.loadFails, plan.hookFails, outcomes);
    if failed { return; }
    ghost var heeded := Heeded(keys, found, size, attempts, plan, w);
    out := BulkMisses(cache, tally, purse, keys, ks, missGroups, size, attempts, mode, plan, outcomes, results, hits, misses, heeded, w);
    SettledIsPaid(w, Sum(tally.calls));
  }

  lemma BillIs(ks: seq<Key>, found: map<Key, Value>, size: nat, attempts: nat, plan: BulkPlan, calls: seq<nat>, retries: nat)
    requires size >= 1 && attempts >= 1 && Smooth(plan, |BatchesOf(ks, found, size)|)
    requires AllStart(plan.order, plan.stopped, |BatchesOf(ks, found, size)|)
    requires calls == BulkCalls(BatchesOf(ks, found, size), attempts, plan, |plan.order|) && retries == BulkRetries(attempts, plan, |plan.order|)
    ensures SmoothBill(ks, found, size, Sum(calls), |calls|, retries) == true
  {
    var missKeys, batches := MissKeys(ks, found), BatchesOf(ks, found, size);
    var all := CachedBatches.Started(batches, plan.order, |plan.order|);
    CutPartitions(GroupsFor(ks, missKeys), size);
    MissKeysDistinct(ks, found);
    SmoothCalls(batches, attempts, plan, |plan.order|);
    StartedSize(ks, missKeys, batches, plan.order, calls, |calls|);
    assert calls[..|calls|] == calls;
    AllBatches(ks, found, batches, plan.order, plan.stopped);
    SizeOfDistinct(missKeys, all);
    AllStartOnce(plan.order, plan.stopped, |batches|);
  }
}
