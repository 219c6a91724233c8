/** Merging step reports, in place, one map entry after another in no particular order. */
module Reports {

  datatype Spend = Spend(limit: int, spent: int, remaining: int)

  /** The integer counters of one step. */
  datatype Counts = Counts(items: int, hits: int, misses: int, stored: int, workCalls: int, sequences: int,
                           retries: int, quarantined: int, skipped: int)

  datatype Step = Step(counts: Counts, byClass: map<string, int>, spend: map<string, Spend>)

  const NO_COUNTS: Counts := Counts(0, 0, 0, 0, 0, 0, 0, 0, 0)
  const NO_STEP: Step := Step(NO_COUNTS, map[], map[])

  function Add(a: Counts, b: Counts): Counts {
    Counts(a.items + b.items, a.hits + b.hits, a.misses + b.misses, a.stored + b.stored, a.workCalls + b.workCalls,
           a.sequences + b.sequences, a.retries + b.retries, a.quarantined + b.quarantined, a.skipped + b.skipped)
  }

  function At(m: map<string, int>, name: string): int { if name in m then m[name] else 0 }

  function Sum(a: map<string, int>, b: map<string, int>): map<string, int> {
    map name | name in a.Keys + b.Keys :: At(a, name) + At(b, name)
  }

  /** Counters add up; of two spend snapshots of one resource the later one wins. */
  function Merged(a: Step, b: Step): Step { Step(Add(a.counts, b.counts), Sum(a.byClass, b.byClass), a.spend + b.spend) }

  function StepOf(steps: map<string, Step>, name: string): Step { if name in steps then steps[name] else NO_STEP }

  function MergedAll(a: map<string, Step>, b: map<string, Step>): map<string, Step> {
    map name | name in a.Keys + b.Keys :: if name in b then Merged(StepOf(a, name), b[name]) else StepOf(a, name)
  }

  // ----- reports in memory ---------------------------------------------------------------------------------

  /** The maps inside a step report, which whoever holds the report shares. */
  class ClassTable {
    var entries: map<string, int>
    constructor (entries: map<string, int>) ensures this.entries == entries { this.entries := entries; }
  }

  class SpendTable {
    var entries: map<string, Spend>
    constructor (entries: map<string, Spend>) ensures this.entries == entries { this.entries := entries; }
  }

  /** A step report as it is held: counters by value, maps by reference, absent until they are needed. */
  datatype Live = Live(counts: Counts, byClass: ClassTable?, spend: SpendTable?) {
    ghost function Tables(): set<object> {
      (if byClass == null then {} else {byClass as object}) + if spend == null then {} else {spend as object}
    }

    ghost function Value(): Step reads Tables() {
      Step(counts, if byClass == null then map[] else byClass.entries, if spend == null then map[] else spend.entries)
    }

    /** The report of the same step after a merge: its tables are the old ones, or new. */
    ghost predicate Continues(old_: Live) {
      (old_.byClass != null ==> byClass == old_.byClass) && (old_.spend != null ==> spend == old_.spend)
    }
  }

  const NO_LIVE: Live := Live(NO_COUNTS, null, null)

  /** Adds the entries of one map to a table, in place and in any order. */
  method AddClasses(into: ClassTable, other: map<string, int>)
    modifies into
    ensures into.entries == Sum(old(into.entries), other)
  {
    ghost var before := into.entries;
    var todo := other.Keys;
    while todo != {}
      invariant todo <= other.Keys
      invariant into.entries == Sum(before, map name | name in other.Keys - todo :: other[name])
    {
      var name :| name in todo;
      ghost var done := map n | n in other.Keys - todo :: other[n];
      todo := todo - {name};
      into.entries := into.entries[name := At(into.entries, name) + other[name]];
      assert (map n | n in other.Keys - todo :: other[n]) == done[name := other[name]];
    }
    assert (map name | name in other.Keys - todo :: other[name]) == other;
  }

  /** Merges one step's report into a held one: its tables are changed in place, and made when missing. */
  method MergeStep(live: Live, other: Step) returns (merged: Live)
    modifies live.Tables()
    ensures merged.Continues(live) && merged.Value() == Merged(old(live.Value()), other)
    ensures forall o :: o in merged.Tables() - live.Tables() ==> fresh(o)
  {
    var byClass, spend := live.byClass, live.spend;
    if other.byClass != map[] {
      if byClass == null { byClass := new ClassTable(map[]); }
      AddClasses(byClass, other.byClass);
    }
    if other.spend != map[] {
      if spend == null { spend := new SpendTable(map[]); }
      spend.entries := spend.entries + other.spend;
    }
    merged := Live(Add(live.counts, other.counts), byClass, spend);
  }

  /** A copy of a held step: its tables are new. */
  method Copied(live: Live) returns (copied: Live)
    ensures copied.Value() == live.Value() && fresh(copied.Tables())
  {
    var byClass, spend := null, null;
    if live.byClass != null { byClass := new ClassTable(live.byClass.entries); }
    if live.spend != null { spend := new SpendTable(live.spend.entries); }
    copied := Live(live.counts, byClass, spend);
  }

  /** The entries of a map that are not still to come. */
  function Part<T>(m: map<string, T>, todo: set<string>): map<string, T> { map name | name in m.Keys - todo :: m[name] }

  lemma PartNext<T>(m: map<string, T>, todo: set<string>, name: string)
    requires name in todo && todo <= m.Keys
    ensures Part(m, todo - {name}) == Part(m, todo)[name := m[name]]
  {}

  lemma PartEnds<T>(was: map<string, Step>, m: map<string, T>)
    ensures Part(m, m.Keys) == map[] && Part(m, {}) == m && MergedAll(was, map[]) == was
  {}

  /** No two steps share a table. */
  ghost predicate Apart(steps: map<string, Live>) { forall m, n :: m in steps && n in steps && m != n ==> steps[m].Tables() !! steps[n].Tables() }

  ghost predicate Within(steps: map<string, Live>, repr: set<object>) { forall n :: n in steps ==> steps[n].Tables() <= repr }

  lemma PutApart(steps: map<string, Live>, name: string, more: Live, repr: set<object>)
    requires Apart(steps) && Within(steps, repr) && more.Tables() !! repr - (if name in steps then steps[name].Tables() else {})
    ensures Apart(steps[name := more]) && Within(steps[name := more], repr + more.Tables())
  {
    forall n | n in steps && n != name ensures steps[n].Tables() !! more.Tables() {
      if name in steps { assert steps[n].Tables() !! steps[name].Tables(); }
    }
  }

  class Report {
    var steps: map<string, Live>
    ghost var repr: set<object>

    ghost predicate Valid() reads this { Apart(steps) && Within(steps, repr) && this !in repr }

    /** The report shows these values. */
    ghost predicate Shows(value: map<string, Step>)
      requires Valid()
      reads this, repr
    { steps.Keys == value.Keys && forall n :: n in steps ==> steps[n].Value() == value[n] }

    constructor ()
      ensures Valid() && Shows(map[]) && repr == {}
    { steps, repr := map[], {}; }

    /** Merges one step into this report. */
    method MergeNamed(name: string, other: Step, ghost was: map<string, Step>)
      requires Valid() && Shows(was)
      modifies this, repr
      ensures Valid() && fresh(repr - old(repr))
      ensures Shows(was[name := Merged(StepOf(was, name), other)])
    {
      var live := if name in steps then steps[name] else NO_LIVE;
      assert live.Tables() <= repr && live.Value() == StepOf(was, name);
      var merged := MergeStep(live, other);
      assert merged.Tables() - live.Tables() !! repr;
      PutApart(steps, name, merged, repr);
      forall n | n in steps && n != name ensures steps[n].Value() == was[n] { assert steps[n].Tables() !! live.Tables() && steps[n].Tables() <= repr; }
      assert merged.Value() == Merged(StepOf(was, name), other);
      forall o | o in merged.Tables() && o !in repr ensures fresh(o) { assert o in merged.Tables() - live.Tables(); }
      steps, repr := steps[name := merged], repr + merged.Tables();
    }

    /** Merges a report into this one, in any order of its steps. */
    method Merge(other: map<string, Step>, ghost was: map<string, Step>)
      requires Valid() && Shows(was)
      modifies this, repr
      ensures Valid() && fresh(repr - old(repr))
      ensures Shows(MergedAll(was, other))
    {
      var todo := other.Keys;
      PartEnds(was, other);
      while todo != {}
        invariant todo <= other.Keys && Valid() && fresh(repr - old(repr))
        invariant Shows(MergedAll(was, Part(other, todo))) == true
      {
        var name :| name in todo;
        MergeOne(was, other, todo, name);
        MergeNamed(name, other[name], MergedAll(was, Part(other, todo)));
        todo := todo - {name};
      }
    }

    /** Gives this report a copy of its own of a step. */
    method CopyStep(name: string, live: Live, ghost was: map<string, Step>)
      requires Valid() && Shows(was) && live.Tables() !! repr && this !in live.Tables()
      modifies this
      ensures Valid() && fresh(repr - old(repr)) && Shows(was[name := live.Value()])
    {
      var copied := Copied(live);
      PutApart(steps, name, copied, repr);
      forall n | n in steps && n != name ensures steps[n].Value() == was[n] { assert steps[n].Tables() <= repr; }
      steps, repr := steps[name := copied], repr + copied.Tables();
    }

    /** An independent copy: every table in it is new. */
    method Clone(ghost was: map<string, Step>) returns (copy: Report)
      requires Valid() && Shows(was)
      ensures fresh(copy) && fresh(copy.repr) && copy.Valid() && copy.Shows(was)
    {
      copy := new Report();
      var todo := steps.Keys;
      PartEnds(map[], was);
      while todo != {}
        invariant todo <= was.Keys && fresh(copy) && fresh(copy.repr) && copy.Valid()
        invariant copy.Shows(Part(was, todo)) == true
      {
        var name :| name in todo;
        PartNext(was, todo, name);
        assert steps[name].Tables() <= repr && steps[name].Value() == was[name];
        copy.CopyStep(name, steps[name], Part(was, todo));
        todo := todo - {name};
      }
    }

    /** A reader can keep the copy: what is merged into the report later does not reach it. */
    method Publish(later: map<string, Step>, ghost was: map<string, Step>) returns (copy: Report)
      requires Valid() && Shows(was)
      modifies this, repr
      ensures fresh(copy) && copy.Valid() && copy.Shows(was)
      ensures Valid() && Shows(MergedAll(was, later))
    {
      copy := Clone(was);
      Merge(later, was);
    }
  }

  /** A merged report, step by step. */
  lemma MergedAt(a: map<string, Step>, b: map<string, Step>, name: string)
    ensures name in MergedAll(a, b) <==> name in a || name in b
    ensures StepOf(MergedAll(a, b), name) == if name in b then Merged(StepOf(a, name), b[name]) else StepOf(a, name)
  {
    hide Merged;
  }

  lemma MergeOne(before: map<string, Step>, other: map<string, Step>, todo: set<string>, name: string)
    requires name in todo && todo <= other.Keys
    ensures var done, next := Part(other, todo), Part(other, todo - {name});
      MergedAll(before, next) == MergedAll(before, done)[name := Merged(StepOf(MergedAll(before, done), name), other[name])]
  {
    var done, next := Part(other, todo), Part(other, todo - {name});
    SameMap(MergedAll(before, next), MergedAll(before, done)[name := Merged(StepOf(MergedAll(before, done), name), other[name])]) by {
      hide Merged, MergedAll;
      forall n ensures var x, y := MergedAll(before, next), MergedAll(before, done)[name := Merged(StepOf(MergedAll(before, done), name), other[name])];
          (n in x <==> n in y) && StepOf(x, n) == StepOf(y, n) {
        MergedAt(before, next, n);
        MergedAt(before, done, n);
      }
    }
  }

  lemma SameMap(x: map<string, Step>, y: map<string, Step>)
    requires forall n :: (n in x <==> n in y) && StepOf(x, n) == StepOf(y, n)
    ensures x == y
  {
    forall n | n in x ensures n in y && x[n] == y[n] { assert StepOf(x, n) == StepOf(y, n); }
  }

  // ----- what merging means ------------------------------------------------------------------------------

  lemma SumAdds(a: map<string, int>, b: map<string, int>, name: string)
    ensures At(Sum(a, b), name) == At(a, name) + At(b, name)
  {}

  lemma CountsAdd(a: map<string, Step>, b: map<string, Step>, name: string)
    ensures StepOf(MergedAll(a, b), name).counts == Add(StepOf(a, name).counts, StepOf(b, name).counts)
  {
    hide MergedAll;
    MergedAt(a, b, name);
  }

  /** Every integer counter of the first is the sum of those of the others. */
  predicate AddsUp(sum: Counts, x: Counts, y: Counts) {
    && sum.items == x.items + y.items && sum.hits == x.hits + y.hits && sum.misses == x.misses + y.misses
    && sum.stored == x.stored + y.stored && sum.workCalls == x.workCalls + y.workCalls && sum.sequences == x.sequences + y.sequences
    && sum.retries == x.retries + y.retries && sum.quarantined == x.quarantined + y.quarantined && sum.skipped == x.skipped + y.skipped
  }

  /** Merging adds every integer counter of every step, and neither loses nor repeats any; a step that only one report has is
      merged with zeroes.  So merging several reports gives the same counters in any order and grouping. */
  lemma MergeAdds(a: map<string, Step>, b: map<string, Step>, c: map<string, Step>, name: string, cls: string)
    ensures name in MergedAll(a, b) <==> name in a || name in b
    ensures AddsUp(StepOf(MergedAll(a, b), name).counts, StepOf(a, name).counts, StepOf(b, name).counts)
    ensures At(StepOf(MergedAll(a, b), name).byClass, cls) == At(StepOf(a, name).byClass, cls) + At(StepOf(b, name).byClass, cls)
    ensures StepOf(MergedAll(a, b), name).counts == StepOf(MergedAll(b, a), name).counts
    ensures StepOf(MergedAll(MergedAll(a, b), c), name).counts == StepOf(MergedAll(a, MergedAll(b, c)), name).counts
  {
    hide MergedAll;
    MergedAt(a, b, name);
    CountsAdd(a, b, name);
    CountsAdd(b, a, name);
    CountsAdd(b, c, name);
    CountsAdd(MergedAll(a, b), c, name);
    CountsAdd(a, MergedAll(b, c), name);
    ClassesAdd(a, b, name, cls);
    hide StepOf;
  }

  lemma ClassesAdd(a: map<string, Step>, b: map<string, Step>, name: string, cls: string)
    ensures At(StepOf(MergedAll(a, b), name).byClass, cls) == At(StepOf(a, name).byClass, cls) + At(StepOf(b, name).byClass, cls)
  {
    MergedAt(a, b, name);
    hide MergedAll;
    if name in b { SumAdds(StepOf(a, name).byClass, b[name].byClass, cls); }
  }

  /** Spend is not added: of a resource that both reports have, the later snapshot replaces the earlier one, and a resource
      that one of them has is kept; so the order of merging shows exactly when two reports disagree about a resource. */
  lemma SpendIsLastWriter(a: map<string, Step>, b: map<string, Step>, name: string, resource: string)
    ensures var x, y, merged := StepOf(a, name).spend, StepOf(b, name).spend, StepOf(MergedAll(a, b), name).spend;
      && (resource in merged <==> resource in x || resource in y)
      && (resource in merged ==> merged[resource] == if resource in y then y[resource] else x[resource])
      && (merged == StepOf(MergedAll(b, a), name).spend <==> forall r :: r in x && r in y ==> x[r] == y[r])
  {
    MergedAt(a, b, name);
    MergedAt(b, a, name);
    var x, y := StepOf(a, name).spend, StepOf(b, name).spend;
    hide MergedAll;
    assert StepOf(MergedAll(a, b), name).spend == x + y && StepOf(MergedAll(b, a), name).spend == y + x;
    if forall r :: r in x && r in y ==> x[r] == y[r] { assert x + y == y + x; }
    if x + y == y + x { forall r | r in x && r in y ensures x[r] == y[r] { assert (x + y)[r] == y[r] && (y + x)[r] == x[r]; } }
  }
}
