/**
 Which batches of a bulk run are retried, become data, or fail the run, told from the attempts alone:
 what each attempt met, the mode, and the number of attempts allowed.
 */
module BulkPolicy {
  import opened Common
  import opened BulkScript
  import opened CachedMap
  import opened CachedBatches
  import opened Chunks
  import opened Bulk

  /** A call that failed on a live context with a transient error, all of whose retry events were journaled. */
  predicate Passing(now: Attempt) { now == Errs(Transient, false, false) }

  /** The attempts at a batch end with attempt a: all before it were passing failures, and it was not, or was the last
      allowed. */
  ghost predicate EndsWith(script: Script, b: nat, attempts: nat, a: nat) {
    && 1 <= a <= attempts
    && (forall x: nat :: 1 <= x < a ==> Passing(script(b, x)))
    && (a == attempts || !Passing(script(b, a)))
  }

  /** The final attempt failed in a way that counts against the items of its batch. */
  predicate FailsAsData(now: Attempt, a: nat, attempts: nat) {
    now.Errs? && !now.done && (now.cls.DataError? || (now.cls.Transient? && a == attempts))
  }

  /** What a final attempt makes of its batch: values, flags, or an error. */
  predicate Tells(end: End, now: Attempt, a: nat, attempts: nat, mode: Mode) {
    && (end.Got? <==> now.Answers?)
    && (end.Flagged? <==> FailsAsData(now, a, attempts) && !mode.FailFast?)
    && (end.Flagged? ==> end.cls == now.cls && end.made == a)
  }

  lemma SameLastAttempt(script: Script, b: nat, attempts: nat, a: nat)
    requires EndsWith(script, b, attempts, a)
    ensures LastFrom(script, b, 1, attempts) == a
  {
    var last := LastFrom(script, b, 1, attempts);
    assert last < a ==> Passing(script(b, last));
    assert a < last ==> Retried(script, b, a, attempts);
  }

  /** The attempts of a batch are calls, but for a last one that was cancelled or refused; all but the last are
      retries, and so is a last one whose retry could not be journaled; and the last one alone decides. */
  lemma AttemptsDecide(script: Script, b: nat, attempts: nat, mode: Mode, a: nat)
    requires EndsWith(script, b, attempts, a)
    ensures var now := script(b, a);
      && Tells(EndOf(script, b, attempts, mode), now, a, attempts, mode)
      && CallsOf(script, b, attempts) == (if now.Cancelled? || now.Refused? then a - 1 else a)
      && RetriesOf(script, b, attempts) == (if a < attempts && now.Errs? && !now.done && now.cls.Transient? then a else a - 1)
  {
    SameLastAttempt(script, b, attempts, a);
  }

  /** Attempts end somewhere. */
  lemma SomeAttemptEnds(script: Script, b: nat, attempts: nat) returns (a: nat)
    requires attempts >= 1
    ensures EndsWith(script, b, attempts, a)
  {
    a := LastFrom(script, b, 1, attempts);
    forall x: nat | 1 <= x < a ensures Passing(script(b, x)) { assert Retried(script, b, x, attempts); }
  }

  /** Nothing goes wrong with a batch whose attempts end like this: it answers, and its values are stored and told, or it
      fails as data, and its flags are journaled. */
  ghost predicate GoesWell(ks: seq<Key>, batch: seq<Group>, mode: Mode, plan: BulkPlan, now: Attempt, a: nat, attempts: nat) {
    if now.Answers? then forall p :: 0 <= p < |batch| ==> EndsWell(ks, plan.hookFails, plan.fates(batch[p].key), batch[p].key)
    else
      && FailsAsData(now, a, attempts) && !mode.FailFast?
      && forall p :: 0 <= p < |batch| ==> forall i: nat :: i < |ks| && ks[i] == batch[p].key ==> i !in plan.flagFails
  }

  ghost predicate AllGoWell(ks: seq<Key>, batches: seq<seq<Group>>, attempts: nat, mode: Mode, plan: BulkPlan) {
    forall b: nat, a: nat :: b < |batches| && EndsWith(plan.attempts, b, attempts, a) ==> GoesWell(ks, batches[b], mode, plan, plan.attempts(b, a), a, attempts)
  }

  lemma OneGoesWell(ks: seq<Key>, batch: seq<Group>, b: nat, attempts: nat, mode: Mode, plan: BulkPlan, a: nat)
    requires EndsWith(plan.attempts, b, attempts, a)
    ensures BulkOk(ks, batch, EndOf(plan.attempts, b, attempts, mode), plan) <==> GoesWell(ks, batch, mode, plan, plan.attempts(b, a), a, attempts)
  {
    AttemptsDecide(plan.attempts, b, attempts, mode, a);
    hide EndOf, EndsWith, EndsWell;
    forall p | 0 <= p < |batch| ensures Bulk.Tells(ks, plan.flagFails, batch[p].key) <==> forall i: nat :: i < |ks| && ks[i] == batch[p].key ==> i !in plan.flagFails {}
  }

  /** A run that gets to its batches succeeds exactly when all of them start, unless there are none, and each one goes
      well: in particular no batch ends with a fatal or unknown class, on a done context, without admission, or, under
      FailFast, with any error; and one that fails as data, its flags journaled, does not fail the run. */
  lemma SucceedsExactlyWhen(keys: seq<KeyResult>, found: map<Key, Value>, size: nat, attempts: nat, mode: Mode, plan: BulkPlan)
    requires size >= 1 && attempts >= 1 && Reaches(keys, found, plan.loadFails, plan.hookFails)
    ensures var ks := KeysOf(keys, |keys|);
      BulkClear(keys, found, size, attempts, mode, plan) <==>
        (plan.stopped ==> MissKeys(ks, found) == []) && AllGoWell(ks, BatchesOf(ks, found, size), attempts, mode, plan)
  {
    var ks := KeysOf(keys, |keys|);
    var batches := BatchesOf(ks, found, size);
    hide BatchesOf, KeysOf, MissKeys, BulkOk, GoesWell, EndsWith, Reaches, EndOf;
    if AllGoWell(ks, batches, attempts, mode, plan) {
      forall b: nat | b < |batches| ensures BulkOk(ks, batches[b], EndOf(plan.attempts, b, attempts, mode), plan) {
        var a := SomeAttemptEnds(plan.attempts, b, attempts);
        OneGoesWell(ks, batches[b], b, attempts, mode, plan, a);
      }
    }
    if BatchesAllOk(ks, batches, attempts, mode, plan) {
      forall b: nat, a: nat | b < |batches| && EndsWith(plan.attempts, b, attempts, a)
        ensures GoesWell(ks, batches[b], mode, plan, plan.attempts(b, a), a, attempts) {
        OneGoesWell(ks, batches[b], b, attempts, mode, plan, a);
      }
    }
  }

  /** The result of one missing input, by the final attempt of its key's batch. */
  predicate ByPolicy(entries: map<Key, Value>, mode: Mode, i: nat, k: Key, r: Result, now: Attempt, a: nat, attempts: nat) {
    if now.Answers? then k in entries && r == Done(entries[k], Stored)
    else
      && FailsAsData(now, a, attempts) && k !in entries
      && match mode
         case FailFast => false
         case Quarantine => r == Quarantined(i, now.cls, a)
         case Skip => r == Skipped
  }

  /** In a run that succeeds, the input that group p of batch b holds has its value exactly when that batch's final
      attempt answered, and otherwise that attempt failed as data: the input is dropped under Skip, and under Quarantine
      flagged with that very class and number of attempts. */
  lemma FlagsFollowPolicy(keys: seq<KeyResult>, found: map<Key, Value>, size: nat, attempts: nat, mode: Mode, plan: BulkPlan, entries: map<Key, Value>,
                          results: seq<Result>, hits: nat, misses: nat, stored: nat, flags: nat, i: nat, b: nat, p: nat, a: nat)
    requires size >= 1 && attempts >= 1 && BulkClear(keys, found, size, attempts, mode, plan)
    requires BulkSucceeded(keys, found, entries, EndsOf(BatchesOf(KeysOf(keys, |keys|), found, size), plan.attempts, attempts, mode), mode,
                           results, hits, misses, stored, flags)
    requires var batches := BatchesOf(KeysOf(keys, |keys|), found, size);
      && i < |keys| && b < |batches| && p < |batches[b]| && batches[b][p].key == keys[i].key
    requires EndsWith(plan.attempts, b, attempts, a)
    ensures ByPolicy(entries, mode, i, keys[i].key, results[i], plan.attempts(b, a), a, attempts)
  {
    var ks := KeysOf(keys, |keys|);
    var batches := BatchesOf(ks, found, size);
    CutPartitions(GroupsFor(ks, MissKeys(ks, found)), size);
    MissKeysDistinct(ks, found);
    EndsAgree(ks, MissKeys(ks, found), batches, plan.attempts, attempts, mode);
    AttemptsDecide(plan.attempts, b, attempts, mode, a);
    JoinedAt(batches, b, p);
    InMissKeys(ks, found, keys[i].key);
    assert BulkInput(found, entries, EndsOf(batches, plan.attempts, attempts, mode), mode, i, keys[i].key, results[i]);
    assert BulkOk(ks, batches[b], EndOf(plan.attempts, b, attempts, mode), plan);
    hide EndOf, KeysOf, MissKeys, BatchesOf, EndsWith, BulkSucceeded;
  }
}
