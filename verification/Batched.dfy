/**
 Grouped calls with per-item repair: the groups are validated, whatever a group response misses is
 repaired in a nested run over a compact slice, and every index that run shows is translated back.
 The nested runs, the response parser and the result hook are arbitrary.
 */
module Batched {
  import opened Common

  type In(!new)
  type Out(!new)

  datatype Result = Blank | Fine(value: Out) | Quarantined(index: nat, reason: string) | Skipped
  {
    predicate Flagged() { Quarantined? || Skipped? }
  }

  datatype Raw = FlaggedRaw | Response(text: string)
  datatype GroupRun = GroupsFailed | GroupsRan(raws: seq<Raw>)
  datatype Parse = ParseError | Parsed(values: map<int, Out>)
  datatype Event = Event(index: int, kind: string)
  datatype Seen = Seen(index: nat, value: Out)

  /** A nested repair run: what it journals and shows its own observer carries compact positions. */
  datatype RepairRun = RepairRun(results: Option<seq<Result>>, events: seq<Event>, observed: seq<Seen>)

  datatype Spec = Spec(run: seq<seq<In>> -> GroupRun, split: (string, seq<In>) -> Parse,
                       repair: seq<In> -> RepairRun, accepts: (nat, Out) -> bool)
  {
    /** Nested runs return one result per item, at its position. */
    ghost predicate Valid() {
      && (forall gs :: run(gs).GroupsRan? ==> |run(gs).raws| == |gs|)
      && (forall xs :: RepairOk(xs, repair(xs)))
    }
  }

  ghost predicate RepairOk(xs: seq<In>, r: RepairRun) {
    && (r.results.Some? ==> Aligned(r.results.value, |xs|))
    && (forall e :: e in r.events ==> e.index < |xs|)
    && (forall o :: o in r.observed ==> o.index < |xs|)
  }

  ghost predicate Aligned(results: seq<Result>, n: nat) {
    |results| == n && forall p :: 0 <= p < n ==> !results[p].Blank? && (results[p].Quarantined? ==> results[p].index == p)
  }

  datatype Outcome =
    | Outside(group: nat, item: int)
    | Repeated(item: int)
    | GroupError
    | HookError(at: nat)
    | RepairError
    | Done(results: seq<Result>)

  // ----- groups ------------------------------------------------------------------------------------

  function Flat<T>(groups: seq<seq<T>>): seq<T> {
    if groups == [] then [] else Flat(groups[..|groups| - 1]) + groups[|groups| - 1]
  }

  ghost predicate InRange(s: seq<int>, n: nat) { forall p :: 0 <= p < |s| ==> 0 <= s[p] < n }

  /** The groups name items of [0, n), each at most once. */
  ghost predicate ValidGroups(groups: seq<seq<int>>, n: nat) { Sound(Flat(groups), n) }

  lemma FlatSnoc<T>(groups: seq<seq<T>>, g: nat)
    requires g < |groups|
    ensures Flat(groups[..g + 1]) == Flat(groups[..g]) + groups[g]
  {
    assert groups[..g + 1][..g] == groups[..g];
  }

  lemma {:induction false} FlatPrefix<T>(groups: seq<seq<T>>, g: nat)
    requires g <= |groups|
    ensures Flat(groups[..g]) <= Flat(groups)
  {
    if g == |groups| { assert groups[..g] == groups; } else {
      FlatPrefix(groups[..|groups| - 1], g);
      assert groups[..|groups| - 1][..g] == groups[..g];
    }
  }

  /** Where group g begins among all references. */
  function Offset<T>(groups: seq<seq<T>>, g: nat): nat
    requires g <= |groups|
  { |Flat(groups[..g])| }

  lemma FlatAt<T>(groups: seq<seq<T>>, g: nat)
    requires g < |groups|
    ensures Offset(groups, g + 1) == Offset(groups, g) + |groups[g]| <= |Flat(groups)|
    ensures forall p :: 0 <= p < |groups[g]| ==> Flat(groups)[Offset(groups, g) + p] == groups[g][p]
  {
    FlatSnoc(groups, g);
    FlatPrefix(groups, g + 1);
    forall p | 0 <= p < |groups[g]| ensures Flat(groups)[Offset(groups, g) + p] == groups[g][p] {
      assert Flat(groups)[Offset(groups, g) + p] == Flat(groups[..g + 1])[Offset(groups, g) + p];
    }
  }

  ghost predicate Sound(seen: seq<int>, n: nat) { InRange(seen, n) && Distinct(seen) }

  /** Reference k is the first that is out of range or repeated. */
  ghost predicate FirstBad(flat: seq<int>, k: nat, n: nat) {
    k < |flat| && Sound(flat[..k], n) && !(0 <= flat[k] < n && flat[k] !in flat[..k])
  }

  /** The outcome names the first bad reference, which is in group g. */
  ghost predicate Blames(o: Outcome, groups: seq<seq<int>>, g: nat, k: nat, n: nat) {
    && FirstBad(Flat(groups), k, n) && g < |groups| && Offset(groups, g) <= k < Offset(groups, g + 1)
    && o == (if 0 <= Flat(groups)[k] < n then Repeated(Flat(groups)[k]) else Outside(g, Flat(groups)[k]))
  }

  ghost predicate Marked(marks: seq<bool>, seen: seq<int>, n: nat) {
    && |marks| == n && Sound(seen, n)
    && forall i :: 0 <= i < n ==> marks[i] == (i in seen)
  }

  lemma MarkOne(marks: seq<bool>, flat: seq<int>, k: nat, n: nat)
    requires k < |flat| && Marked(marks, flat[..k], n)
    ensures if 0 <= flat[k] < n && !marks[flat[k]] then Marked(marks[flat[k] := true], flat[..k + 1], n)
            else FirstBad(flat, k, n) && !Sound(flat, n)
  {
    assert flat[..k + 1] == flat[..k] + [flat[k]];
    if !(0 <= flat[k] < n && !marks[flat[k]]) { BadHere(flat, k, n); }
  }

  lemma BadHere(flat: seq<int>, k: nat, n: nat)
    requires FirstBad(flat, k, n)
    ensures !Sound(flat, n)
  {
    if flat[k] in flat[..k] {
      var q :| 0 <= q < k && flat[..k][q] == flat[k];
      assert flat[q] == flat[k];
    }
  }

  /** Marks the covered items, or reports the first reference that is out of range or repeated. */
  method Cover(groups: seq<seq<int>>, n: nat) returns (bad: Option<Outcome>, covered: seq<bool>)
    ensures bad.None? <==> ValidGroups(groups, n)
    ensures bad.None? ==> |covered| == n && forall i :: 0 <= i < n ==> covered[i] == (i in Flat(groups))
    ensures bad.Some? ==> exists g: nat, k: nat :: Blames(bad.value, groups, g, k, n)
  {
    var marks := new bool[n](_ => false);
    ghost var flat := Flat(groups);
    var g := 0;
    while g < |groups|
      invariant 0 <= g <= |groups| && Offset(groups, g) <= |flat|
      invariant Marked(marks[..], flat[..Offset(groups, g)], n)
    {
      FlatAt(groups, g);
      var found := CoverGroup(groups[g], marks, flat, Offset(groups, g));
      if found.Some? {
        var i := groups[g][found.value];
        bad := Some(if 0 <= i < n then Repeated(i) else Outside(g, i));
        assert Blames(bad.value, groups, g, Offset(groups, g) + found.value, n);
        return bad, [];
      }
      g := g + 1;
    }
    assert groups[..g] == groups && flat[..|flat|] == flat;
    bad, covered := None, marks[..];
  }

  method CoverGroup(group: seq<int>, marks: array<bool>, ghost flat: seq<int>, ghost base: nat) returns (found: Option<nat>)
    requires base + |group| <= |flat| && forall p :: 0 <= p < |group| ==> flat[base + p] == group[p]
    requires Marked(marks[..], flat[..base], marks.Length)
    modifies marks
    ensures if found.None? then Marked(marks[..], flat[..base + |group|], marks.Length)
            else found.value < |group| && FirstBad(flat, base + found.value, marks.Length) && !Sound(flat, marks.Length)
  {
    var p := 0;
    while p < |group|
      invariant 0 <= p <= |group|
      invariant Marked(marks[..], flat[..base + p], marks.Length)
    {
      var i := group[p];
      MarkOne(marks[..], flat, base + p, marks.Length);
      if i < 0 || i >= marks.Length || marks[i] { return Some(p); }
      ghost var next := marks[..][i := true];
      marks[i] := true;
      assert marks[..] == next;
      p := p + 1;
    }
    found := None;
  }

  // ----- what the groups answered -------------------------------------------------------------------

  /** One reference of a group to an item, and the value its response holds for it, if any. */
  datatype Slot = Slot(item: nat, fate: Option<Out>)

  function Fate(s: Spec, raw: Raw, members: seq<In>, p: nat): Option<Out> {
    match raw
    case FlaggedRaw => None
    case Response(text) =>
      match s.split(text, members)
      case ParseError => None
      case Parsed(values) => if p in values then Some(values[p]) else None
  }

  function Members(items: seq<In>, group: seq<int>): seq<In>
    requires InRange(group, |items|)
  { seq(|group|, p requires 0 <= p < |group| => items[group[p]]) }

  function GroupSlots(s: Spec, items: seq<In>, group: seq<int>, raw: Raw): seq<Slot>
    requires InRange(group, |items|)
  {
    seq(|group|, p requires 0 <= p < |group| => Slot(group[p], Fate(s, raw, Members(items, group), p)))
  }

  ghost predicate AllInRange(groups: seq<seq<int>>, n: nat) { forall g :: 0 <= g < |groups| ==> InRange(groups[g], n) }

  lemma {:induction false} FlatInRange(groups: seq<seq<int>>, n: nat)
    requires InRange(Flat(groups), n)
    ensures AllInRange(groups, n)
  {
    if groups != [] {
      var rest, last := groups[..|groups| - 1], groups[|groups| - 1];
      forall p | 0 <= p < |Flat(rest)| ensures 0 <= Flat(rest)[p] < n { assert Flat(groups)[p] == Flat(rest)[p]; }
      FlatInRange(rest, n);
      forall p | 0 <= p < |last| ensures 0 <= last[p] < n { assert Flat(groups)[|Flat(rest)| + p] == last[p]; }
      forall g | 0 <= g < |groups| ensures InRange(groups[g], n) { if g < |rest| { assert rest[g] == groups[g]; } }
    }
  }

  function Slots(s: Spec, items: seq<In>, groups: seq<seq<int>>, raws: seq<Raw>): seq<Slot>
    requires AllInRange(groups, |items|) && |raws| == |groups|
  {
    if groups == [] then []
    else Slots(s, items, groups[..|groups| - 1], raws[..|raws| - 1]) + GroupSlots(s, items, groups[|groups| - 1], raws[|raws| - 1])
  }

  lemma {:induction false} SlotItems(s: Spec, items: seq<In>, groups: seq<seq<int>>, raws: seq<Raw>)
    requires AllInRange(groups, |items|) && |raws| == |groups|
    ensures var slots := Slots(s, items, groups, raws);
            |slots| == |Flat(groups)| && forall p :: 0 <= p < |slots| ==> slots[p].item == Flat(groups)[p]
  {
    if groups != [] { SlotItems(s, items, groups[..|groups| - 1], raws[..|raws| - 1]); }
  }

  /** Items no group names, in order; items whose slot is empty, in slot order; and the hook calls of
      the filled slots. */
  function Uncovered(covered: seq<bool>, k: nat): seq<nat>
    requires k <= |covered|
  { if k == 0 then [] else Uncovered(covered, k - 1) + if covered[k - 1] then [] else [k - 1] }

  function Misses(slots: seq<Slot>): seq<nat> {
    if slots == [] then [] else Misses(slots[..|slots| - 1]) + if slots[|slots| - 1].fate.None? then [slots[|slots| - 1].item] else []
  }

  function Fills(slots: seq<Slot>): seq<Seen> {
    if slots == [] then []
    else Fills(slots[..|slots| - 1])
         + if slots[|slots| - 1].fate.Some? then [Seen(slots[|slots| - 1].item, slots[|slots| - 1].fate.value)] else []
  }

  /** The value the slots hold for item i, the latest winning. */
  function ValueAt(slots: seq<Slot>, i: nat): Option<Out> {
    if slots == [] then None
    else
      var last := slots[|slots| - 1];
      if last.item == i && last.fate.Some? then last.fate else ValueAt(slots[..|slots| - 1], i)
  }

  function Split(v: Option<Out>): Result { if v.Some? then Fine(v.value) else Blank }

  /** Split values are in place, the rest is blank. */
  ghost predicate Placed(results: seq<Result>, slots: seq<Slot>) {
    forall i :: 0 <= i < |results| ==> results[i] == Split(ValueAt(slots, i))
  }

  /** The hook accepted all of these. */
  ghost predicate Accepted(s: Spec, calls: seq<Seen>) {
    forall p :: 0 <= p < |calls| ==> s.accepts(calls[p].index, calls[p].value)
  }

  /** The hook was called on `calls` in turn and refused the last one, for item i. */
  ghost predicate RefusedAt(s: Spec, calls: seq<Seen>, i: nat) {
    calls != [] && calls[|calls| - 1].index == i && !s.accepts(i, calls[|calls| - 1].value) && Accepted(s, calls[..|calls| - 1])
  }

  /** `calls` is a prefix of the calls due, and stops at a refusal. */
  ghost predicate Stopped(s: Spec, calls: seq<Seen>, due: seq<Seen>, i: nat) {
    calls <= due && RefusedAt(s, calls, i)
  }

  lemma OneMore(slots: seq<Slot>, one: Slot)
    ensures Misses(slots + [one]) == Misses(slots) + if one.fate.None? then [one.item] else []
    ensures Fills(slots + [one]) == Fills(slots) + if one.fate.Some? then [Seen(one.item, one.fate.value)] else []
    ensures forall i :: ValueAt(slots + [one], i) == if one.item == i && one.fate.Some? then one.fate else ValueAt(slots, i)
  {
    assert (slots + [one])[..|slots|] == slots;
  }

  lemma {:induction false} FillsGrow(slots: seq<Slot>, k: nat)
    requires k <= |slots|
    ensures Fills(slots[..k]) <= Fills(slots)
  {
    if k == |slots| { assert slots[..k] == slots; } else {
      FillsGrow(slots[..|slots| - 1], k);
      assert slots[..|slots| - 1][..k] == slots[..k];
    }
  }

  lemma {:induction false} SlotAt(s: Spec, items: seq<In>, groups: seq<seq<int>>, raws: seq<Raw>, g: nat)
    requires AllInRange(groups, |items|) && |raws| == |groups| && g < |groups|
    ensures var all := Slots(s, items, groups, raws);
      && Offset(groups, g + 1) == Offset(groups, g) + |groups[g]| <= |all|
      && forall p :: 0 <= p < |groups[g]| ==> all[Offset(groups, g) + p] == Slot(groups[g][p], Fate(s, raws[g], Members(items, groups[g]), p))
    decreases |groups|
  {
    var k := |groups| - 1;
    FlatSnoc(groups, g);
    SlotItems(s, items, groups[..k], raws[..k]);
    if g < k {
      SlotAt(s, items, groups[..k], raws[..k], g);
      assert groups[..k][..g] == groups[..g] && groups[..k][..g + 1] == groups[..g + 1];
    }
  }

  /** The first k slots have been dealt with. */
  ghost predicate Dealt(s: Spec, results: seq<Result>, uncovered: seq<nat>, missing: seq<nat>, calls: seq<Seen>, all: seq<Slot>, k: nat) {
    && k <= |all|
    && Placed(results, all[..k])
    && missing == uncovered + Misses(all[..k])
    && calls == Fills(all[..k])
    && Accepted(s, calls)
  }

  lemma NothingDealt(s: Spec, results: seq<Result>, uncovered: seq<nat>, all: seq<Slot>)
    requires forall i :: 0 <= i < |results| ==> results[i].Blank?
    ensures Dealt(s, results, uncovered, uncovered, [], all, 0) == true
  {}

  lemma DealMissing(s: Spec, results: seq<Result>, uncovered: seq<nat>, missing: seq<nat>, calls: seq<Seen>, all: seq<Slot>, k: nat)
    requires Dealt(s, results, uncovered, missing, calls, all, k) && k < |all| && all[k].fate.None? && all[k].item < |results|
    ensures Dealt(s, results, uncovered, missing + [all[k].item], calls, all, k + 1)
  {
    assert all[..k + 1] == all[..k] + [all[k]];
    OneMore(all[..k], all[k]);
    hide Misses, Fills, ValueAt;
  }

  lemma DealFilled(s: Spec, results: seq<Result>, uncovered: seq<nat>, missing: seq<nat>, calls: seq<Seen>, all: seq<Slot>, k: nat, v: Out)
    requires Dealt(s, results, uncovered, missing, calls, all, k) && k < |all| && all[k].fate == Some(v) && all[k].item < |results|
    requires s.accepts(all[k].item, v)
    ensures Dealt(s, results[all[k].item := Fine(v)], uncovered, missing, calls + [Seen(all[k].item, v)], all, k + 1)
  {
    assert all[..k + 1] == all[..k] + [all[k]];
    OneMore(all[..k], all[k]);
    hide Misses, Fills, ValueAt;
  }

  lemma DealRefused(s: Spec, results: seq<Result>, uncovered: seq<nat>, missing: seq<nat>, calls: seq<Seen>, all: seq<Slot>, k: nat, v: Out)
    requires Dealt(s, results, uncovered, missing, calls, all, k) && k < |all| && all[k].fate == Some(v)
    requires !s.accepts(all[k].item, v)
    ensures Stopped(s, calls + [Seen(all[k].item, v)], Fills(all), all[k].item)
  {
    assert all[..k + 1] == all[..k] + [all[k]];
    OneMore(all[..k], all[k]);
    FillsGrow(all, k + 1);
    hide Misses, Fills, ValueAt, Placed, Stopped;
    StopsHere(s, calls, Seen(all[k].item, v), Fills(all));
  }

  /** The hook refuses the next call that is due. */
  lemma StopsHere(s: Spec, calls: seq<Seen>, x: Seen, due: seq<Seen>)
    requires Accepted(s, calls) && !s.accepts(x.index, x.value) && calls + [x] <= due
    ensures Stopped(s, calls + [x], due, x.index)
  {
    assert (calls + [x])[..|calls|] == calls;
  }

  /** Reads the responses: split values are placed and shown to the hook, the rest goes missing. */
  method Fill(s: Spec, items: seq<In>, groups: seq<seq<int>>, raws: seq<Raw>, results: array<Result>, uncovered: seq<nat>)
    returns (refused: Option<nat>, missing: seq<nat>, calls: seq<Seen>)
    requires results.Length == |items| && AllInRange(groups, |items|) && |raws| == |groups|
    requires forall i :: 0 <= i < results.Length ==> results[i].Blank?
    modifies results
    ensures var all := Slots(s, items, groups, raws);
      if refused.None? then Dealt(s, results[..], uncovered, missing, calls, all, |all|) else Stopped(s, calls, Fills(all), refused.value)
  {
    missing, calls := uncovered, [];
    ghost var all := Slots(s, items, groups, raws);
    SlotItems(s, items, groups, raws);
    NothingDealt(s, results[..], uncovered, all);
    var g := 0;
    while g < |groups|
      invariant 0 <= g <= |groups|
      invariant Dealt(s, results[..], uncovered, missing, calls, all, Offset(groups, g)) == true
    {
      SlotAt(s, items, groups, raws, g);
      refused, missing, calls := FillGroup(s, items, groups[g], raws[g], results, uncovered, missing, calls, all, Offset(groups, g));
      if refused.Some? { return; }
      g := g + 1;
    }
    assert groups[..g] == groups;
    refused := None;
  }

  /** One group's response. */
  method FillGroup(s: Spec, items: seq<In>, group: seq<int>, raw: Raw, results: array<Result>, ghost uncovered: seq<nat>,
                   missing0: seq<nat>, calls0: seq<Seen>, ghost all: seq<Slot>, ghost k: nat)
    returns (refused: Option<nat>, missing: seq<nat>, calls: seq<Seen>)
    requires results.Length == |items| && InRange(group, |items|) && k + |group| <= |all|
    requires forall p :: 0 <= p < |group| ==> all[k + p] == Slot(group[p], Fate(s, raw, Members(items, group), p))
    requires Dealt(s, results[..], uncovered, missing0, calls0, all, k)
    modifies results
    ensures if refused.None? then Dealt(s, results[..], uncovered, missing, calls, all, k + |group|)
            else Stopped(s, calls, Fills(all), refused.value)
  {
    missing, calls := missing0, calls0;
    var parsed := if raw.FlaggedRaw? then ParseError else s.split(raw.text, Members(items, group));
    var p := 0;
    while p < |group|
      invariant 0 <= p <= |group|
      invariant results.Length == |items|
      invariant Dealt(s, results[..], uncovered, missing, calls, all, k + p)
    {
      assert all[k + p] == Slot(group[p], if parsed.ParseError? || p !in parsed.values then None else Some(parsed.values[p]));
      if parsed.ParseError? || p !in parsed.values {
        DealMissing(s, results[..], uncovered, missing, calls, all, k + p);
        missing := missing + [group[p]];
      } else {
        var value := parsed.values[p];
        if s.accepts(group[p], value) { DealFilled(s, results[..], uncovered, missing, calls, all, k + p, value); }
        else { DealRefused(s, results[..], uncovered, missing, calls, all, k + p, value); }
        calls := calls + [Seen(group[p], value)];
        ghost var next := results[..][group[p] := Fine(value)];
        results[group[p]] := Fine(value);
        assert results[..] == next;
        if !s.accepts(group[p], value) { return Some(group[p]), [], calls; }
      }
      p := p + 1;
    }
    refused := None;
  }

  // ----- repair ------------------------------------------------------------------------------------

  function Compact(items: seq<In>, missing: seq<nat>): (r: seq<In>)
    requires forall p :: 0 <= p < |missing| ==> missing[p] < |items|
    ensures |r| == |missing|
  { seq(|missing|, p requires 0 <= p < |missing| => items[missing[p]]) }

  /** A repair result with its flag put back at the original position. */
  function Adjusted(r: Result, i: nat): Result { if r.Quarantined? then r.(index := i) else r }

  function RepairCalls(missing: seq<nat>, repaired: seq<Result>, k: nat): seq<Seen>
    requires k <= |missing| <= |repaired|
  {
    if k == 0 then []
    else RepairCalls(missing, repaired, k - 1) + if repaired[k - 1].Fine? then [Seen(missing[k - 1], repaired[k - 1].value)] else []
  }

  lemma {:induction false} RepairCallsGrow(missing: seq<nat>, repaired: seq<Result>, j: nat, k: nat)
    requires j <= k <= |missing| <= |repaired|
    ensures RepairCalls(missing, repaired, j) <= RepairCalls(missing, repaired, k)
    decreases k
  {
    if j < k { RepairCallsGrow(missing, repaired, j, k - 1); }
  }

  /** The first k repaired results are in place, and everything else is as before. */
  ghost predicate MendedTo(before: seq<Result>, now: seq<Result>, missing: seq<nat>, repaired: seq<Result>, k: nat)
    requires k <= |missing| == |repaired|
  {
    && |now| == |before|
    && (forall p :: 0 <= p < k ==> missing[p] < |now| && now[missing[p]] == Adjusted(repaired[p], missing[p]))
    && (forall i :: 0 <= i < |now| && i !in missing[..k] ==> now[i] == before[i])
  }

  /** The hook has accepted the calls for the first k repaired results. */
  ghost predicate CalledTo(s: Spec, calls0: seq<Seen>, calls: seq<Seen>, missing: seq<nat>, repaired: seq<Result>, k: nat)
    requires k <= |missing| == |repaired|
  { calls == calls0 + RepairCalls(missing, repaired, k) && Accepted(s, calls) }

  lemma CallMore(s: Spec, calls0: seq<Seen>, calls: seq<Seen>, missing: seq<nat>, repaired: seq<Result>, k: nat)
    requires k < |missing| == |repaired| && CalledTo(s, calls0, calls, missing, repaired, k)
    ensures var r := repaired[k];
      if !r.Fine? then CalledTo(s, calls0, calls, missing, repaired, k + 1)
      else if s.accepts(missing[k], r.value) then CalledTo(s, calls0, calls + [Seen(missing[k], r.value)], missing, repaired, k + 1)
      else Stopped(s, calls + [Seen(missing[k], r.value)], calls0 + RepairCalls(missing, repaired, |missing|), missing[k])
  {
    RepairCallsGrow(missing, repaired, k + 1, |missing|);
    var r := repaired[k];
    if r.Fine? {
      var x := Seen(missing[k], r.value);
      assert calls + [x] == calls0 + RepairCalls(missing, repaired, k + 1);
      if !s.accepts(x.index, x.value) { StopsHere(s, calls, x, calls0 + RepairCalls(missing, repaired, |missing|)); }
    }
  }

  lemma MendMore(before: seq<Result>, now: seq<Result>, missing: seq<nat>, repaired: seq<Result>, k: nat)
    requires k < |missing| == |repaired| && Distinct(missing) && missing[k] < |now| && MendedTo(before, now, missing, repaired, k)
    ensures MendedTo(before, now[missing[k] := Adjusted(repaired[k], missing[k])], missing, repaired, k + 1)
  {
    assert missing[..k + 1] == missing[..k] + [missing[k]];
  }

  /** Puts the repaired results back at their original positions. */
  method Mend(s: Spec, missing: seq<nat>, repaired: seq<Result>, results: array<Result>, calls0: seq<Seen>)
    returns (refused: Option<nat>, calls: seq<Seen>)
    requires |repaired| == |missing| && Distinct(missing) && (forall p :: 0 <= p < |missing| ==> missing[p] < results.Length && !repaired[p].Blank?)
    requires Accepted(s, calls0)
    modifies results
    ensures var due := calls0 + RepairCalls(missing, repaired, |missing|);
      if refused.None? then
        && (forall p :: 0 <= p < |missing| ==> results[missing[p]] == Adjusted(repaired[p], missing[p]))
        && (forall i :: 0 <= i < results.Length && i !in missing ==> results[i] == old(results[i]))
        && calls == due && Accepted(s, calls)
      else Stopped(s, calls, due, refused.value)
  {
    calls := calls0;
    var k := 0;
    ghost var before := results[..];
    assert calls0 + [] == calls0;
    while k < |missing|
      invariant 0 <= k <= |missing|
      invariant MendedTo(before, results[..], missing, repaired, k) == true
      invariant CalledTo(s, calls0, calls, missing, repaired, k) == true
    {
      var i, r := missing[k], repaired[k];
      if r.Quarantined? { r := r.(index := i); }
      MendMore(before, results[..], missing, repaired, k);
      ghost var next := results[..][i := r];
      results[i] := r;
      assert results[..] == next;
      CallMore(s, calls0, calls, missing, repaired, k);
      if r.Fine? {
        calls := calls + [Seen(i, r.value)];
        if !s.accepts(i, r.value) { return Some(i), calls; }
      }
      k := k + 1;
    }
    assert missing[..k] == missing;
    refused := None;
  }

  /** Translates an index of a compact run back; anything outside the run is left alone. */
  function Remap(indexes: seq<nat>, e: Event): Event {
    if 0 <= e.index < |indexes| then e.(index := indexes[e.index]) else e
  }

  function RemapAll(indexes: seq<nat>, events: seq<Event>): seq<Event> {
    seq(|events|, k requires 0 <= k < |events| => Remap(indexes, events[k]))
  }

  function ObservedAll(indexes: seq<nat>, seen: seq<Seen>): seq<Seen>
    requires forall o :: o in seen ==> o.index < |indexes|
  { seq(|seen|, k requires 0 <= k < |seen| => assert seen[k] in seen; Seen(indexes[seen[k].index], seen[k].value)) }

  // ----- the whole step -------------------------------------------------------------------------------

  /** What one invocation shows: its outcome, the result-hook calls, the repair run's journal events
      and the repair step's own observations, all under original positions. */
  datatype Shown = Shown(outcome: Outcome, calls: seq<Seen>, events: seq<Event>, observed: seq<Seen>)

  function Covers(groups: seq<seq<int>>, n: nat): seq<bool> { seq(n, i => i in Flat(groups)) }

  /** The repair list: the items no group names, then the items whose slot came back empty. */
  function Missing(s: Spec, items: seq<In>, groups: seq<seq<int>>, raws: seq<Raw>): seq<nat>
    requires AllInRange(groups, |items|) && |raws| == |groups|
  {
    Uncovered(Covers(groups, |items|), |items|) + Misses(Slots(s, items, groups, raws))
  }

  /** Every result is the split value of its slot or the repair result of that very item. */
  ghost predicate Resolved(s: Spec, items: seq<In>, all: seq<Slot>, missing: seq<nat>, repaired: seq<Result>, results: seq<Result>) {
    && |results| == |items| && |repaired| == |missing|
    && (forall p :: 0 <= p < |missing| ==> missing[p] < |items| && results[missing[p]] == Adjusted(repaired[p], missing[p]))
    && (forall i :: 0 <= i < |items| && i !in missing ==> results[i] == Split(ValueAt(all, i)))
  }

  method MarkUncovered(covered: seq<bool>) returns (missing: seq<nat>)
    ensures missing == Uncovered(covered, |covered|)
  {
    missing := [];
    var i := 0;
    while i < |covered|
      invariant 0 <= i <= |covered|
      invariant missing == Uncovered(covered, i)
    {
      if !covered[i] { missing := missing + [i]; }
      i := i + 1;
    }
  }

  method RunBatched(s: Spec, items: seq<In>, groups: seq<seq<int>>) returns (shown: Shown)
    requires s.Valid()
    ensures (shown.outcome.Outside? || shown.outcome.Repeated?) <==> !ValidGroups(groups, |items|)
    ensures !ValidGroups(groups, |items|) ==> shown == Shown(shown.outcome, [], [], []) && exists g: nat, k: nat :: Blames(shown.outcome, groups, g, k, |items|)
    ensures ValidGroups(groups, |items|) ==> AllInRange(groups, |items|) && Answered(s, items, groups, shown)
  {
    var bad, covered := Cover(groups, |items|);
    if bad.Some? { return Shown(bad.value, [], [], []); }
    FlatInRange(groups, |items|);
    assert covered == Covers(groups, |items|);
    var inputs := seq(|groups|, g requires 0 <= g < |groups| => Members(items, groups[g]));
    var run := s.run(inputs);
    if run.GroupsFailed? { return Shown(GroupError, [], [], []); }
    var results := new Result[|items|](_ => Blank);
    var uncovered := MarkUncovered(covered);
    var refused, missing, calls := Fill(s, items, groups, run.raws, results, uncovered);
    if refused.Some? { return Shown(HookError(refused.value), calls, [], []); }
    shown := Repair(s, items, groups, run.raws, results, missing, calls);
  }

  function GroupInputs(items: seq<In>, groups: seq<seq<int>>): seq<seq<In>>
    requires AllInRange(groups, |items|)
  { seq(|groups|, g requires 0 <= g < |groups| => Members(items, groups[g])) }

  /** What a run over valid groups shows. */
  ghost predicate Answered(s: Spec, items: seq<In>, groups: seq<seq<int>>, shown: Shown)
    requires AllInRange(groups, |items|)
  {
    var run := s.run(GroupInputs(items, groups));
    if run.GroupsFailed? || |run.raws| != |groups| then shown == Shown(GroupError, [], [], [])
    else Mended(s, items, groups, run.raws, shown)
  }

  ghost predicate Mended(s: Spec, items: seq<In>, groups: seq<seq<int>>, raws: seq<Raw>, shown: Shown)
    requires AllInRange(groups, |items|) && |raws| == |groups|
  {
    var all, missing := Slots(s, items, groups, raws), Missing(s, items, groups, raws);
    || (shown.outcome.HookError? && shown.events == [] && shown.observed == [] && Stopped(s, shown.calls, Fills(all), shown.outcome.at))
    || (Accepted(s, Fills(all)) && (forall p :: 0 <= p < |missing| ==> missing[p] < |items|) && AfterFill(s, items, all, missing, shown))
  }

  ghost predicate AfterFill(s: Spec, items: seq<In>, all: seq<Slot>, missing: seq<nat>, shown: Shown)
    requires forall p :: 0 <= p < |missing| ==> missing[p] < |items|
  {
    if missing == [] then
      shown.outcome.Done? && Resolved(s, items, all, [], [], shown.outcome.results) && shown == Shown(shown.outcome, Fills(all), [], [])
    else
      var r := s.repair(Compact(items, missing));
      && RepairOk(Compact(items, missing), r)
      && shown.events == RemapAll(missing, r.events) && shown.observed == ObservedAll(missing, r.observed)
      && if r.results.None? then shown.outcome == RepairError && shown.calls == Fills(all)
         else
           var due := Fills(all) + RepairCalls(missing, r.results.value, |missing|);
           if shown.outcome.Done? then
             shown.calls == due && Accepted(s, due) && Resolved(s, items, all, missing, r.results.value, shown.outcome.results)
           else shown.outcome.HookError? && Stopped(s, shown.calls, due, shown.outcome.at)
  }

  method Repair(s: Spec, items: seq<In>, ghost groups: seq<seq<int>>, ghost raws: seq<Raw>, results: array<Result>, missing: seq<nat>, calls: seq<Seen>)
    returns (shown: Shown)
    requires s.Valid() && AllInRange(groups, |items|) && |raws| == |groups| && results.Length == |items| && ValidGroups(groups, |items|)
    requires var all := Slots(s, items, groups, raws);
             Dealt(s, results[..], Uncovered(Covers(groups, |items|), |items|), missing, calls, all, |all|)
    modifies results
    ensures Mended(s, items, groups, raws, shown)
  {
    ghost var all := Slots(s, items, groups, raws);
    assert all[..|all|] == all;
    MissingPartition(s, items, groups, raws);
    if missing == [] { return Shown(Done(results[..]), calls, [], []); }
    assert forall p :: 0 <= p < |missing| ==> missing[p] in missing;
    var compact := Compact(items, missing);
    var r := s.repair(compact);
    assert RepairOk(compact, r);
    var events, observed := RemapAll(missing, r.events), ObservedAll(missing, r.observed);
    if r.results.None? { return Shown(RepairError, calls, events, observed); }
    var refused, seen := Mend(s, missing, r.results.value, results, calls);
    return Shown(if refused.Some? then HookError(refused.value) else Done(results[..]), seen, events, observed);
  }

  // ----- every index exactly once ---------------------------------------------------------------------

  lemma {:induction false} UncoveredAre(covered: seq<bool>, k: nat)
    requires k <= |covered|
    ensures Distinct(Uncovered(covered, k)) && forall i: nat :: i in Uncovered(covered, k) <==> i < k && !covered[i]
  {
    if k > 0 { UncoveredAre(covered, k - 1); }
  }

  ghost predicate FilledIn(slots: seq<Slot>, i: nat) {
    exists p :: 0 <= p < |slots| && slots[p].item == i && slots[p].fate.Some?
  }

  ghost predicate DistinctItems(slots: seq<Slot>) { forall p, q :: 0 <= p < q < |slots| ==> slots[p].item != slots[q].item }

  lemma {:induction false} MissesAre(slots: seq<Slot>)
    requires DistinctItems(slots)
    ensures Distinct(Misses(slots))
    ensures forall i: nat :: i in Misses(slots) <==> Slot(i, None) in slots
    ensures forall i: nat :: ValueAt(slots, i).Some? <==> FilledIn(slots, i)
  {
    if slots != [] {
      var rest, last := slots[..|slots| - 1], slots[|slots| - 1];
      MissesAre(rest);
      assert slots == rest + [last];
      if last.fate.None? {
        forall i | i in Misses(rest) ensures i != last.item {
          assert Slot(i, None) in rest;
          var p :| 0 <= p < |rest| && rest[p] == Slot(i, None);
          assert slots[p].item != slots[|rest|].item;
        }
      }
      forall i: nat | FilledIn(slots, i) ensures ValueAt(slots, i).Some? {
        var p :| 0 <= p < |slots| && slots[p].item == i && slots[p].fate.Some?;
        if p < |rest| { assert rest[p].item == i; }
      }
      forall i: nat | ValueAt(slots, i).Some? ensures FilledIn(slots, i) {
        if last.item == i && last.fate.Some? { assert slots[|rest|] == last; } else {
          assert ValueAt(rest, i).Some? && FilledIn(rest, i);
          var p :| 0 <= p < |rest| && rest[p].item == i && rest[p].fate.Some?;
          assert slots[p] == rest[p];
        }
      }
    }
  }

  lemma Disjoint(a: seq<nat>, b: seq<nat>)
    requires Distinct(a) && Distinct(b) && forall i :: i in a ==> i !in b
    ensures Distinct(a + b)
  {
    forall p, q | 0 <= p < q < |a + b| ensures (a + b)[p] != (a + b)[q] {
      if p < |a| <= q { assert a[p] in a && b[q - |a|] in b; }
    }
  }

  /** The missing list has no repeats, and with the split-filled items it makes up [0, n): an item is
      missing exactly when no response holds a value for it. */
  lemma MissingPartition(s: Spec, items: seq<In>, groups: seq<seq<int>>, raws: seq<Raw>)
    requires AllInRange(groups, |items|) && |raws| == |groups| && ValidGroups(groups, |items|)
    ensures var all, missing := Slots(s, items, groups, raws), Missing(s, items, groups, raws);
      && Distinct(missing)
      && (forall i :: i in missing ==> i < |items|)
      && (forall i: nat :: i < |items| ==> (i in missing <==> ValueAt(all, i).None?))
  {
    var all, flat, n := Slots(s, items, groups, raws), Flat(groups), |items|;
    var none, some := Uncovered(Covers(groups, n), n), Misses(all);
    SlotItems(s, items, groups, raws);
    UncoveredAre(Covers(groups, n), n);
    MissesAre(all);
    forall i | i in some ensures i in flat && i < n {
      var p :| 0 <= p < |all| && all[p] == Slot(i, None);
      assert flat[p] == i;
    }
    Disjoint(none, some);
    forall i: nat | i < n ensures i in none + some <==> ValueAt(all, i).None? {
      if i in flat {
        var p :| 0 <= p < |flat| && flat[p] == i;
        assert all[p].item == i;
        if all[p].fate.None? { assert all[p] == Slot(i, None); }
        if ValueAt(all, i).Some? {
          var q :| 0 <= q < |all| && all[q].item == i && all[q].fate.Some?;
          assert flat[q] == i;
        }
        if Slot(i, None) in all {
          var q :| 0 <= q < |all| && all[q] == Slot(i, None);
          assert flat[q] == i;
        }
      } else {
        forall q | 0 <= q < |all| ensures all[q].item != i { assert flat[q] in flat; }
      }
    }
  }

  /** Hook calls for index i. */
  function CallsFor(calls: seq<Seen>, i: nat): nat {
    if calls == [] then 0 else CallsFor(calls[..|calls| - 1], i) + if calls[|calls| - 1].index == i then 1 else 0
  }

  lemma CallsForSnoc(a: seq<Seen>, x: Seen, i: nat)
    ensures CallsFor(a + [x], i) == CallsFor(a, i) + if x.index == i then 1 else 0
  {
    assert (a + [x])[..|a|] == a;
  }

  lemma {:induction false} CallsForConcat(a: seq<Seen>, b: seq<Seen>, i: nat)
    ensures CallsFor(a + b, i) == CallsFor(a, i) + CallsFor(b, i)
  {
    if b == [] { assert a + b == a; } else {
      CallsForConcat(a, b[..|b| - 1], i);
      assert (a + b)[..|a + b| - 1] == a + b[..|b| - 1];
    }
  }

  lemma {:induction false} FillsFor(slots: seq<Slot>, i: nat)
    requires DistinctItems(slots)
    ensures CallsFor(Fills(slots), i) == if ValueAt(slots, i).Some? then 1 else 0
    ensures ValueAt(slots, i).Some? ==> Seen(i, ValueAt(slots, i).value) in Fills(slots)
  {
    if slots != [] {
      var rest, last := slots[..|slots| - 1], slots[|slots| - 1];
      FillsFor(rest, i);
      assert Fills(rest) + [] == Fills(rest);
      if last.fate.Some? {
        CallsForSnoc(Fills(rest), Seen(last.item, last.fate.value), i);
        MissesAre(rest);
        forall p | 0 <= p < |rest| ensures rest[p].item != last.item { assert slots[p].item != slots[|rest|].item; }
      }
    }
  }

  lemma {:induction false} RepairCallsFor(missing: seq<nat>, repaired: seq<Result>, k: nat, i: nat)
    requires k <= |missing| <= |repaired| && Distinct(missing)
    ensures i !in missing[..k] ==> CallsFor(RepairCalls(missing, repaired, k), i) == 0
    ensures forall p :: 0 <= p < k && missing[p] == i ==>
              && CallsFor(RepairCalls(missing, repaired, k), i) == (if repaired[p].Fine? then 1 else 0)
              && (repaired[p].Fine? ==> Seen(i, repaired[p].value) in RepairCalls(missing, repaired, k))
  {
    if k > 0 {
      RepairCallsFor(missing, repaired, k - 1, i);
      assert RepairCalls(missing, repaired, k - 1) + [] == RepairCalls(missing, repaired, k - 1);
      assert missing[..k] == missing[..k - 1] + [missing[k - 1]];
      if repaired[k - 1].Fine? {
        CallsForSnoc(RepairCalls(missing, repaired, k - 1), Seen(missing[k - 1], repaired[k - 1].value), i);
      }
      if missing[k - 1] == i { assert i !in missing[..k - 1]; }
    }
  }

  /** A run that ends well resolves every index exactly once: its result is there, flags carry the
      item's own position, and the result hook saw exactly the unflagged items, once each. */
  lemma EachIndexOnce(s: Spec, items: seq<In>, groups: seq<seq<int>>, shown: Shown, i: nat)
    requires s.Valid() && ValidGroups(groups, |items|) && AllInRange(groups, |items|)
    requires Answered(s, items, groups, shown) && shown.outcome.Done? && i < |items|
    ensures |shown.outcome.results| == |items|
    ensures var r := shown.outcome.results[i];
      && !r.Blank? && (r.Quarantined? ==> r.index == i)
      && CallsFor(shown.calls, i) == (if r.Fine? then 1 else 0)
      && (r.Fine? ==> Seen(i, r.value) in shown.calls)
  {
    var raws := s.run(GroupInputs(items, groups)).raws;
    var all, missing := Slots(s, items, groups, raws), Missing(s, items, groups, raws);
    SlotItems(s, items, groups, raws);
    MissingPartition(s, items, groups, raws);
    var repaired := if missing == [] then [] else s.repair(Compact(items, missing)).results.value;
    hide Slots, Missing, ValueAt, Fills, CallsFor;
    ResolvedOnce(s, items, all, missing, repaired, shown.outcome.results, i);
    assert Fills(all) + [] == Fills(all);
  }

  lemma ResolvedOnce(s: Spec, items: seq<In>, all: seq<Slot>, missing: seq<nat>, repaired: seq<Result>, results: seq<Result>, i: nat)
    requires Resolved(s, items, all, missing, repaired, results) && DistinctItems(all) && Distinct(missing) && Aligned(repaired, |missing|)
    requires i < |items| && (i in missing <==> ValueAt(all, i).None?)
    ensures var r, calls := results[i], Fills(all) + RepairCalls(missing, repaired, |missing|);
      && !r.Blank? && (r.Quarantined? ==> r.index == i)
      && CallsFor(calls, i) == (if r.Fine? then 1 else 0)
      && (r.Fine? ==> Seen(i, r.value) in calls)
  {
    FillsFor(all, i);
    CallsForConcat(Fills(all), RepairCalls(missing, repaired, |missing|), i);
    RepairCallsFor(missing, repaired, |missing|, i);
    assert missing[..|missing|] == missing;
    hide Fills, RepairCalls, CallsFor, ValueAt;
    if i in missing {
      var p :| 0 <= p < |missing| && missing[p] == i;
      assert results[i] == Adjusted(repaired[p], i);
    }
  }

  // ----- the plain map --------------------------------------------------------------------------------

  /** The provider answers item by item: whatever a group response is split into, its value at a position is f of
      the item that was sent at that position; and the repair run resolves every item it is given as f or a flag of
      that item, and shows and journals what belongs to it. */
  ghost predicate PerItem(s: Spec, f: In -> Out, why: In -> string, tag: In -> string) {
    && (forall gs, g: nat :: s.run(gs).GroupsRan? && g < |gs| && g < |s.run(gs).raws| ==> RawPerItem(s, gs[g], s.run(gs).raws[g], f))
    && (forall xs :: RepairPerItem(xs, s.repair(xs), f, why, tag))
  }

  ghost predicate RawPerItem(s: Spec, xs: seq<In>, raw: Raw, f: In -> Out) {
    raw.Response? && s.split(raw.text, xs).Parsed? ==>
      forall p :: p in s.split(raw.text, xs).values && 0 <= p < |xs| ==> s.split(raw.text, xs).values[p] == f(xs[p])
  }

  ghost predicate RepairPerItem(xs: seq<In>, r: RepairRun, f: In -> Out, why: In -> string, tag: In -> string) {
    && (r.results.Some? ==> forall p :: 0 <= p < |xs| && p < |r.results.value| ==> OwnResult(r.results.value[p], p, xs[p], f, why))
    && (forall e :: e in r.events && 0 <= e.index < |xs| ==> e.kind == tag(xs[e.index]))
    && (forall o :: o in r.observed && o.index < |xs| ==> o.value == f(xs[o.index]))
  }

  /** The result of item x at position i: its value, or a flag of its own. */
  ghost predicate OwnResult(r: Result, i: nat, x: In, f: In -> Out, why: In -> string) {
    r == Fine(f(x)) || r == Quarantined(i, why(x)) || r == Skipped
  }

  ghost predicate OwnCalls(items: seq<In>, calls: seq<Seen>, f: In -> Out) {
    forall o :: o in calls ==> o.index < |items| && o.value == f(items[o.index])
  }

  ghost predicate OwnSlots(items: seq<In>, slots: seq<Slot>, f: In -> Out) {
    forall q :: 0 <= q < |slots| ==> slots[q].item < |items| && (slots[q].fate.Some? ==> slots[q].fate.value == f(items[slots[q].item]))
  }

  lemma {:induction false} SlotsOwn(s: Spec, items: seq<In>, groups: seq<seq<int>>, raws: seq<Raw>, f: In -> Out)
    requires AllInRange(groups, |items|) && |raws| == |groups|
    requires forall g :: 0 <= g < |groups| ==> RawPerItem(s, Members(items, groups[g]), raws[g], f)
    ensures OwnSlots(items, Slots(s, items, groups, raws), f)
  {
    if groups != [] { SlotsOwn(s, items, groups[..|groups| - 1], raws[..|raws| - 1], f); }
  }

  lemma {:induction false} FillsOwn(items: seq<In>, slots: seq<Slot>, f: In -> Out)
    requires OwnSlots(items, slots, f)
    ensures OwnCalls(items, Fills(slots), f)
    ensures forall i: nat :: i < |items| && ValueAt(slots, i).Some? ==> ValueAt(slots, i).value == f(items[i])
  {
    if slots != [] { FillsOwn(items, slots[..|slots| - 1], f); }
  }

  lemma {:induction false} RepairCallsOwn(items: seq<In>, missing: seq<nat>, repaired: seq<Result>, k: nat, f: In -> Out, why: In -> string)
    requires k <= |missing| == |repaired| && forall p :: 0 <= p < |missing| ==> missing[p] < |items| && OwnResult(repaired[p], p, items[missing[p]], f, why)
    ensures OwnCalls(items, RepairCalls(missing, repaired, k), f)
  {
    if k > 0 { RepairCallsOwn(items, missing, repaired, k - 1, f, why); }
  }

  lemma MendedOwn(s: Spec, items: seq<In>, groups: seq<seq<int>>, raws: seq<Raw>, shown: Shown, f: In -> Out, why: In -> string, tag: In -> string)
    requires AllInRange(groups, |items|) && |raws| == |groups| && ValidGroups(groups, |items|) && Mended(s, items, groups, raws, shown)
    requires OwnSlots(items, Slots(s, items, groups, raws), f) && PerItem(s, f, why, tag)
    ensures shown.outcome.Done? ==>
              |shown.outcome.results| == |items| && forall i :: 0 <= i < |items| ==> OwnResult(shown.outcome.results[i], i, items[i], f, why)
    ensures OwnCalls(items, shown.calls, f) && OwnCalls(items, shown.observed, f)
    ensures forall e :: e in shown.events && 0 <= e.index ==> e.index < |items| && e.kind == tag(items[e.index])
  {
    var all, missing := Slots(s, items, groups, raws), Missing(s, items, groups, raws);
    MissingPartition(s, items, groups, raws);
    FillsOwn(items, all, f);
    hide Slots, Missing, Fills, ValueAt, ValidGroups, Accepted, RefusedAt;
    assert forall p :: 0 <= p < |missing| ==> missing[p] in missing;
    if !shown.outcome.HookError? || shown.events != [] || shown.observed != [] || !Stopped(s, shown.calls, Fills(all), shown.outcome.at) {
      AfterFillOwn(s, items, all, missing, shown, f, why, tag);
    }
  }

  lemma AfterFillOwn(s: Spec, items: seq<In>, all: seq<Slot>, missing: seq<nat>, shown: Shown, f: In -> Out, why: In -> string, tag: In -> string)
    requires (forall p :: 0 <= p < |missing| ==> missing[p] < |items|) && AfterFill(s, items, all, missing, shown) && PerItem(s, f, why, tag)
    requires OwnCalls(items, Fills(all), f) && forall i: nat :: i < |items| ==> if i in missing then ValueAt(all, i).None? else ValueAt(all, i) == Some(f(items[i]))
    ensures shown.outcome.Done? ==>
              |shown.outcome.results| == |items| && forall i :: 0 <= i < |items| ==> OwnResult(shown.outcome.results[i], i, items[i], f, why)
    ensures OwnCalls(items, shown.calls, f) && OwnCalls(items, shown.observed, f)
    ensures forall e :: e in shown.events && 0 <= e.index ==> e.index < |items| && e.kind == tag(items[e.index])
  {
    hide Fills, ValueAt, Accepted, RefusedAt, RepairCalls;
    if missing != [] {
      var xs := Compact(items, missing);
      var r := s.repair(xs);
      assert RepairPerItem(xs, r, f, why, tag);
      if r.results.Some? { RepairCallsOwn(items, missing, r.results.value, |missing|, f, why); }
      forall o | o in shown.observed ensures o.index < |items| && o.value == f(items[o.index]) {
        var k :| 0 <= k < |shown.observed| && shown.observed[k] == o;
        assert r.observed[k] in r.observed;
      }
      forall e | e in shown.events && 0 <= e.index ensures e.index < |items| && e.kind == tag(items[e.index]) {
        var k :| 0 <= k < |shown.events| && shown.events[k] == e;
        assert r.events[k] in r.events;
      }
    }
    if shown.outcome.Done? {
      var results := shown.outcome.results;
      forall i | 0 <= i < |items| ensures OwnResult(results[i], i, items[i], f, why) {
        if i in missing { var p :| 0 <= p < |missing| && missing[p] == i; }
      }
    }
  }

  /** Grouping and repairing are invisible: whatever the groups, and whichever items they miss, a provider that answers
      item by item gives every input its own value or its own flag; and the hook, the repair step's observer and the
      journal are shown each input's own value and events, in runs that fail as well. */
  lemma RefinesMap(s: Spec, items: seq<In>, groups: seq<seq<int>>, shown: Shown, f: In -> Out, why: In -> string, tag: In -> string)
    requires s.Valid() && ValidGroups(groups, |items|) && AllInRange(groups, |items|) && Answered(s, items, groups, shown)
    requires PerItem(s, f, why, tag)
    ensures shown.outcome.Done? ==>
              |shown.outcome.results| == |items| && forall i :: 0 <= i < |items| ==> OwnResult(shown.outcome.results[i], i, items[i], f, why)
    ensures OwnCalls(items, shown.calls, f) && OwnCalls(items, shown.observed, f)
    ensures forall e :: e in shown.events && 0 <= e.index ==> e.index < |items| && e.kind == tag(items[e.index])
  {
    var run := s.run(GroupInputs(items, groups));
    if run.GroupsRan? {
      forall g | 0 <= g < |groups| ensures RawPerItem(s, Members(items, groups[g]), run.raws[g], f) {
        assert GroupInputs(items, groups)[g] == Members(items, groups[g]);
      }
      SlotsOwn(s, items, groups, run.raws, f);
      MendedOwn(s, items, groups, run.raws, shown, f, why, tag);
    }
  }
  
  // ----- nested repairs ---------------------------------------------------------------------------------

  /** The missing lists of repairs nested in repairs, outermost first, over n items. */
  ghost predicate Nested(lists: seq<seq<nat>>, n: nat) {
    lists != [] ==> Distinct(lists[0]) && InRange(lists[0], n) && Nested(lists[1..], |lists[0]|)
  }

  /** How many items the innermost repair works on. */
  function Depth(lists: seq<seq<nat>>, n: nat): nat { if lists == [] then n else Depth(lists[1..], |lists[0]|) }

  /** Each ledger translates for the one outside it. */
  function Translated(lists: seq<seq<nat>>, e: Event): Event { if lists == [] then e else Remap(lists[0], Translated(lists[1..], e)) }

  /** Each repair keeps the items its missing list names. */
  function Repaired(items: seq<In>, lists: seq<seq<nat>>): (r: seq<In>)
    requires Nested(lists, |items|)
    ensures |r| == Depth(lists, |items|)
    decreases |lists|
  { if lists == [] then items else Repaired(Compact(items, lists[0]), lists[1..]) }

  /** Where the items that a missing list names were originally. */
  function Through(origins: seq<nat>, missing: seq<nat>): (r: seq<nat>)
    requires forall p :: 0 <= p < |missing| ==> missing[p] < |origins|
    ensures |r| == |missing| && forall p :: 0 <= p < |r| ==> r[p] == origins[missing[p]]
  { seq(|missing|, p requires 0 <= p < |missing| => origins[missing[p]]) }

  /** The original positions of the items of the innermost repair. */
  function Origins(origins: seq<nat>, lists: seq<seq<nat>>): (r: seq<nat>)
    requires Nested(lists, |origins|)
    ensures |r| == Depth(lists, |origins|)
    decreases |lists|
  { if lists == [] then origins else Origins(Through(origins, lists[0]), lists[1..]) }

  function Positions(n: nat): (r: seq<nat>)
    ensures |r| == n
  { seq(n, i => i) }

  /** Following original positions through nested repairs is reading the items at them. */
  lemma {:induction false} RepairedAt(items: seq<In>, lists: seq<seq<nat>>, origins: seq<nat>, base: seq<In>, p: nat)
    requires Nested(lists, |items|) && |origins| == |items| && p < Depth(lists, |items|)
    requires forall q :: 0 <= q < |items| ==> origins[q] < |base| && items[q] == base[origins[q]]
    ensures Origins(origins, lists)[p] < |base| && Repaired(items, lists)[p] == base[Origins(origins, lists)[p]]
    decreases |lists|
  {
    if lists != [] { RepairedAt(Compact(items, lists[0]), lists[1..], Through(origins, lists[0]), base, p); }
  }

  lemma {:induction false} RepairedApart(origins: seq<nat>, lists: seq<seq<nat>>)
    requires Nested(lists, |origins|) && Distinct(origins)
    ensures Distinct(Origins(origins, lists))
    decreases |lists|
  {
    if lists != [] {
      var kept := Through(origins, lists[0]);
      forall p, q | 0 <= p < q < |kept| ensures kept[p] != kept[q] { assert lists[0][p] != lists[0][q]; }
      RepairedApart(kept, lists[1..]);
    }
  }

  /** The outermost position an event of the innermost repair is shown at. */
  lemma {:induction false} TranslatedAt(lists: seq<seq<nat>>, n: nat, origins: seq<nat>, e: Event)
    requires Nested(lists, n) && |origins| == n && e.index < Depth(lists, n)
    ensures e.index < 0 ==> Translated(lists, e) == e
    ensures 0 <= e.index ==>
      var shown := Translated(lists, e);
      0 <= shown.index < n && shown == e.(index := shown.index) && origins[shown.index] == Origins(origins, lists)[e.index]
    decreases |lists|
  {
    if lists != [] { TranslatedAt(lists[1..], |lists[0]|, Through(origins, lists[0]), e); }
  }

  /** Repairs nested in repairs to any depth show original positions: all their translations together
      are one translation by a list without repeats, and name the very items being repaired. */
  lemma NestedRemaps(items: seq<In>, lists: seq<seq<nat>>, e: Event)
    requires Nested(lists, |items|) && e.index < Depth(lists, |items|)
    ensures var whole := Origins(Positions(|items|), lists);
      && Distinct(whole) && Translated(lists, e) == Remap(whole, e)
      && |whole| == |Repaired(items, lists)| && forall p :: 0 <= p < |whole| ==> whole[p] < |items| && Repaired(items, lists)[p] == items[whole[p]]
    ensures 0 <= e.index ==> 0 <= Translated(lists, e).index < |items| && Repaired(items, lists)[e.index] == items[Translated(lists, e).index]
  {
    var origins := Positions(|items|);
    var whole := Origins(origins, lists);
    RepairedApart(origins, lists);
    TranslatedAt(lists, |items|, origins, e);
    forall p | 0 <= p < |whole| ensures whole[p] < |items| && Repaired(items, lists)[p] == items[whole[p]] {
      RepairedAt(items, lists, origins, items, p);
    }
  }
}
