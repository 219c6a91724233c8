/**
 Observing a run: one root publishes numbered snapshots and brackets the journal, while engines nest
 inside it.  An engine's live report is its own count plus the live report of the nested run it has
 registered; the publisher reads the levels one after another while they change.  `base` stands for
 any one of the integer counters; each of them is read and merged the same way.
 */
module Observation {

  /** What a run is asked to show, and whether it is already observed by an enclosing run. */
  datatype Options = Options(reporter: bool, ledger: bool, observed: bool)

  /** A run observes itself, by bracketing events and snapshots, when it has something to show and nobody
      around it does so. */
  predicate Root(o: Options) { (o.reporter || o.ledger) && !o.observed }

  /** What a run hands to a run nested in it: its own options, but no reporter. */
  function Nested(o: Options): Options { o.(reporter := false) }

  /** One level of nested engines: what it has counted itself, whether its parent can see it, its options. */
  datatype Frame = Frame(base: nat, shown: bool, options: Options)

  datatype Snapshot = Snapshot(sequence: nat, count: nat, terminal: bool)
  datatype EventType = RunStarted | Inner | RunCompleted | RunFailed

  datatype Main = Begin | Announced | Core | Stopping(failed: bool) | Closing(failed: bool) | Sealed(failed: bool) | Ended(failed: bool)

  /** The reporter goroutine.  While reading, `acc` is the sum so far and `level` the engine to read next;
      an engine that completes under its reader keeps its final report, `left`. */
  datatype Reporter = Idle | Reading(acc: nat, level: nat) | ReadingOld(acc: nat, left: nat) | Read(count: nat)
                    | Holding(snapshot: Snapshot) | Quit

  datatype Config = Config(reports: bool, periodic: bool, journals: bool)

  /** `journal` lists the events that the journal accepted.  `broken` records that the core ended with an error, and
      `refused` that the reporter, or the journal outside the core, refused something. */
  datatype State = State(main: Main, reporter: Reporter, stack: seq<Frame>, sequence: nat, delivered: seq<Snapshot>, journal: seq<EventType>,
                         broken: bool, refused: bool)

  /** What a reader that stands at a level will still find: that engine and the visible ones inside it. */
  function Visible(stack: seq<Frame>, level: nat): nat
    decreases |stack| - level
  {
    if level >= |stack| then 0
    else stack[level].base + if level + 1 < |stack| && stack[level + 1].shown then Visible(stack, level + 1) else 0
  }

  /** Everything that has been counted, seen or not. */
  function Counted(stack: seq<Frame>): nat {
    if stack == [] then 0 else Counted(stack[..|stack| - 1]) + stack[|stack| - 1].base
  }

  ghost predicate Init(c: Config, s: State) {
    s == State(Begin, if c.reports && c.periodic then Idle else Quit, [Frame(0, true, Options(c.reports, c.journals, false))], 0, [], [], false, false)
  }

  function Publish(s: State, count: nat, terminal: bool): State {
    s.(sequence := s.sequence + 1, delivered := s.delivered + [Snapshot(s.sequence + 1, count, terminal)])
  }

  function Note(c: Config, s: State, e: EventType): State { if c.journals then s.(journal := s.journal + [e]) else s }

  /** The outermost run, which observes itself if it shows anything, marks its options. */
  function Observed(s: State): State {
    if s.stack != [] && Root(s.stack[0].options) then s.(stack := s.stack[0 := s.stack[0].(options := s.stack[0].options.(observed := true))]) else s
  }

  /** A nested run starts.  Were it to observe itself, it would announce itself as the outermost one does. */
  function Enter(s: State): State
    requires s.stack != []
  {
    var o := Nested(s.stack[|s.stack| - 1].options);
    var inner := s.(stack := s.stack + [Frame(0, false, if Root(o) then o.(observed := true) else o)]);
    if Root(o) then
      var noted := if o.ledger then inner.(journal := inner.journal + [RunStarted]) else inner;
      if o.reporter then Publish(noted, 0, false) else noted
    else inner
  }

  function Refuse(s: State): State { s.(refused := true) }

  /** What the outermost run does before its core. */
  ghost predicate Opens(c: Config, s: State, s': State) {
    match s.main
    case Begin =>
      if s.stack == [] || !Root(s.stack[0].options) then s' == s.(main := Announced)      // nothing to show
      else
        || s' == Note(c, Observed(s), RunStarted).(main := Announced)
        || (c.journals && s' == Refuse(Observed(s)).(main := Ended(true)))
    case Announced =>
      if c.reports then
        var first := Publish(s, 0, false);
        || s' == first.(main := Core)
        || s' == Refuse(Note(c, first, RunFailed)).(main := Ended(true))       // the reporter refused
        || (c.journals && s' == Refuse(first).(main := Ended(true)))           // and the journal too
      else s' == s.(main := Core)
    case _ => false
  }

  /** What it does after its core. */
  ghost predicate Closes(c: Config, s: State, s': State) {
    match s.main
    case Stopping(failed) =>                                                   // the reporter goroutine is joined
      var ends := failed || s.refused;
      s.reporter.Quit? &&
      (|| s' == s.(main := Closing(ends))
       || (c.journals && !ends && s' == s.(journal := s.journal + [Inner], main := Closing(false)))   // an override stage completes
       || (c.journals && !ends && s' == Refuse(s).(main := Closing(true))))
    case Closing(failed) =>
      if c.reports then
        |s.stack| > 0 &&
        var last := Publish(s, s.stack[0].base, true);
        (s' == last.(main := Sealed(failed)) || s' == Refuse(last).(main := Sealed(true)))
      else s' == s.(main := Sealed(failed))
    case Sealed(failed) =>
      || s' == Note(c, s, if failed then RunFailed else RunCompleted).(main := Ended(failed))
      || (c.journals && s' == Refuse(s).(main := Ended(true)))
    case _ => false
  }

  ghost predicate MainStep(c: Config, s: State, s': State) {
    Opens(c, s, s') || (s.main.Core? && CoreStep(c, s, s')) || Closes(c, s, s')
  }

  /** Work is counted, nested engines start, register and complete, or the outermost one ends. */
  ghost predicate CoreStep(c: Config, s: State, s': State) {
    var k := |s.stack| - 1;
    || (exists i: nat, x: nat :: Works(s, i, x, s'))
    || (c.journals && s' == s.(journal := s.journal + [Inner]))
    || (k >= 0 && s' == Enter(s))
    || (k > 0 && s' == s.(stack := s.stack[k := s.stack[k].(shown := true)]))
    || (k > 0 && s' == s.(stack := Popped(s.stack), reporter := Leave(s.reporter, s.stack)))
    || (k == 0 && exists failed :: s' == s.(main := Stopping(failed), broken := failed))
  }

  ghost predicate Works(s: State, i: nat, x: nat, s': State) {
    i < |s.stack| && s' == s.(stack := s.stack[i := s.stack[i].(base := s.stack[i].base + x)])
  }

  /** The innermost engine completes: its final report is merged into its parent, which forgets it. */
  function Popped(stack: seq<Frame>): (r: seq<Frame>)
    requires |stack| > 1
  {
    var k := |stack| - 1;
    stack[..k][k - 1 := stack[k - 1].(base := stack[k - 1].base + stack[k].base)]
  }

  /** A reader that stands in the completing engine goes on with the completed report. */
  function Leave(r: Reporter, stack: seq<Frame>): Reporter
    requires |stack| > 1
  {
    if r.Reading? && r.level == |stack| - 1 then ReadingOld(r.acc, stack[r.level].base) else r
  }

  ghost predicate ReporterStep(c: Config, s: State, s': State) {
    match s.reporter
    case Idle =>
      (s.main.Core? || s.main.Stopping?) && (s' == s.(reporter := Reading(0, 0)) || s' == s.(reporter := Quit))
    case Reading(acc, level) =>
      level < |s.stack| &&
      var sum := acc + s.stack[level].base;
      s' == s.(reporter := if level + 1 < |s.stack| && s.stack[level + 1].shown then Reading(sum, level + 1) else Read(sum))
    case ReadingOld(acc, left) => s' == s.(reporter := Read(acc + left))
    case Read(count) => s' == s.(sequence := s.sequence + 1, reporter := Holding(Snapshot(s.sequence + 1, count, false)))
    case Holding(x) =>
      var told := s.(delivered := s.delivered + [x]);
      s' == told.(reporter := Idle) || s' == told.(reporter := Quit) || s' == Refuse(told).(reporter := Quit)
    case Quit => false
  }

  ghost predicate Next(c: Config, s: State, s': State) { MainStep(c, s, s') || ReporterStep(c, s, s') }

  ghost predicate Run(c: Config, tr: seq<State>) {
    |tr| > 0 && Init(c, tr[0]) && forall t :: 0 <= t < |tr| - 1 ==> Next(c, tr[t], tr[t + 1])
  }

  // ----- what the steps change ---------------------------------------------------------------------------

  lemma OpensEffect(c: Config, s: State, s': State)
    requires Opens(c, s, s')
    ensures s'.reporter == s.reporter && |s'.stack| == |s.stack| && (s.main.Begin? || s.main.Announced?) && !s'.main.Begin?
    ensures forall k :: 0 <= k < |s.stack| ==> s'.stack[k].base == s.stack[k].base
    ensures s'.main.Announced? || s'.main.Core? || s'.main.Ended?
    ensures (s'.delivered == s.delivered && s'.sequence == s.sequence)
            || (s.main.Announced? && s'.delivered == s.delivered + [Snapshot(s.sequence + 1, 0, false)] && s'.sequence == s.sequence + 1 && !s'.main.Announced?)
  {}

  lemma ClosesEffect(c: Config, s: State, s': State)
    requires Closes(c, s, s')
    ensures s'.reporter == s.reporter && s'.stack == s.stack && (s.main.Stopping? ==> s.reporter.Quit?)
    ensures if s.main.Stopping? then s'.main.Closing? else if s.main.Closing? then s'.main.Sealed? else s.main.Sealed? && s'.main.Ended?
    ensures (s'.delivered == s.delivered && s'.sequence == s.sequence)
            || (s.main.Closing? && |s.stack| > 0 && s'.delivered == s.delivered + [Snapshot(s.sequence + 1, s.stack[0].base, true)] && s'.sequence == s.sequence + 1)
  {}

  lemma ReporterEffect(c: Config, s: State, s': State)
    requires ReporterStep(c, s, s')
    ensures s'.main == s.main && s'.stack == s.stack && s'.journal == s.journal && s'.broken == s.broken
    ensures if s.reporter.Holding? then s'.delivered == s.delivered + [s.reporter.snapshot] else s'.delivered == s.delivered
    ensures if s.reporter.Read? then s'.sequence == s.sequence + 1 else s'.sequence == s.sequence
    ensures match s.reporter
      case Idle => (s.main.Core? || s.main.Stopping?) && (s'.reporter == Reading(0, 0) || s'.reporter == Quit)
      case Reading(acc, level) => level < |s.stack| &&
        s'.reporter == if level + 1 < |s.stack| && s.stack[level + 1].shown then Reading(acc + s.stack[level].base, level + 1) else Read(acc + s.stack[level].base)
      case ReadingOld(acc, left) => s'.reporter == Read(acc + left)
      case Read(count) => s'.reporter == Holding(Snapshot(s.sequence + 1, count, false))
      case Holding(_) => s'.reporter == Idle || s'.reporter == Quit
      case Quit => false
  {}

  // ----- numbering -------------------------------------------------------------------------------------

  ghost predicate Numbered(s: State) {
    && (forall i :: 0 <= i < |s.delivered| ==> s.delivered[i].sequence == i + 1)
    && (forall i :: 0 <= i < |s.delivered| - 1 ==> !s.delivered[i].terminal)
    && s.sequence == |s.delivered| + (if s.reporter.Holding? then 1 else 0)
    && (s.reporter.Holding? ==> s.reporter.snapshot.sequence == s.sequence && !s.reporter.snapshot.terminal)
    && (s.delivered != [] && s.delivered[|s.delivered| - 1].terminal ==> s.main.Sealed? || s.main.Ended?)
    && (s.main.Closing? || s.main.Sealed? ==> s.reporter.Quit?)
    && (s.main.Begin? || s.main.Announced? || s.main.Ended? ==> s.reporter.Idle? || s.reporter.Quit?)
  }

  lemma NumberedStep(c: Config, s: State, s': State)
    requires Numbered(s) && Hushed(s) && Next(c, s, s')
    ensures Numbered(s')
  {
    hide ReporterStep, MainStep, Numbered;
    if MainStep(c, s, s') { NumberedMain(c, s, s'); } else { NumberedReporter(c, s, s'); }
  }

  lemma NumberedReporter(c: Config, s: State, s': State)
    requires Numbered(s) && ReporterStep(c, s, s')
    ensures Numbered(s')
  {
    ReporterEffect(c, s, s');
    hide ReporterStep;
  }

  lemma NumberedMain(c: Config, s: State, s': State)
    requires Numbered(s) && Hushed(s) && MainStep(c, s, s')
    ensures Numbered(s')
  {
    hide CoreStep, Opens, Closes;
    if Opens(c, s, s') { NumberedOpens(c, s, s'); }
    else if Closes(c, s, s') { NumberedCloses(c, s, s'); }
    else { CoreQuiet(c, s, s'); }
  }

  lemma NumberedOpens(c: Config, s: State, s': State)
    requires Numbered(s) && Opens(c, s, s')
    ensures Numbered(s')
  {
    OpensEffect(c, s, s');
    hide Opens;
  }

  lemma NumberedCloses(c: Config, s: State, s': State)
    requires Numbered(s) && Closes(c, s, s')
    ensures Numbered(s')
  {
    ClosesEffect(c, s, s');
    hide Closes;
  }

  /** Once the outermost run has begun, no run around the core would observe itself. */
  ghost predicate Hushed(s: State) {
    !s.main.Begin? ==> forall k :: 0 <= k < |s.stack| ==> !Root(s.stack[k].options)
  }

  lemma HushedStep(c: Config, s: State, s': State)
    requires Hushed(s) && FirstIsZero(c, s) && Next(c, s, s')
    ensures Hushed(s')
  {
    hide CoreStep, Opens, Closes, ReporterStep, Hushed, FirstIsZero;
    if ReporterStep(c, s, s') { StackStays(c, s, s'); HushedSame(s, s'); }
    else if Opens(c, s, s') { HushedOpens(c, s, s'); }
    else if Closes(c, s, s') { ClosesStay(c, s, s'); HushedSame(s, s'); }
    else { HushedCore(c, s, s'); }
  }

  lemma StackStays(c: Config, s: State, s': State)
    requires ReporterStep(c, s, s')
    ensures s'.stack == s.stack && s'.main == s.main
  {}

  lemma ClosesStay(c: Config, s: State, s': State)
    requires Closes(c, s, s')
    ensures s'.stack == s.stack && !s.main.Begin? && !s'.main.Begin?
  {}

  lemma HushedSame(s: State, s': State)
    requires Hushed(s) && s'.stack == s.stack && (s.main.Begin? <==> s'.main.Begin?)
    ensures Hushed(s')
  {}

  lemma HushedOpens(c: Config, s: State, s': State)
    requires Hushed(s) && FirstIsZero(c, s) && Opens(c, s, s')
    ensures Hushed(s')
  {}

  lemma HushedCore(c: Config, s: State, s': State)
    requires Hushed(s) && s.main.Core? && CoreStep(c, s, s')
    ensures Hushed(s')
  {
    if i: nat, x: nat :| Works(s, i, x, s') {}
  }

  /** The core of a run publishes nothing of its own: its nested runs leave that to the outermost one. */
  lemma CoreQuiet(c: Config, s: State, s': State)
    requires s.main.Core? && Hushed(s) && CoreStep(c, s, s')
    ensures s'.delivered == s.delivered && s'.sequence == s.sequence && (s'.main.Core? || s'.main.Stopping?)
    ensures s'.reporter == s.reporter || (s.reporter.Reading? && s'.reporter.ReadingOld?)
    ensures s'.journal == s.journal || (c.journals && s'.journal == s.journal + [Inner])
  {}

  // ----- the journal ------------------------------------------------------------------------------------

  /** run_started is first, the terminal event last, and only inner events between. */
  ghost predicate Bracketed(c: Config, s: State) {
    && (!c.journals ==> s.journal == [])
    && (c.journals ==>
          && (s.main.Begin? ==> s.journal == [])
          && (!s.main.Begin? && !s.main.Ended? ==> s.journal != [])
          && (s.journal != [] ==> s.journal[0].RunStarted?)
          && (s.journal == [] ==> s.delivered == [])
          && (forall i :: 0 < i < |s.journal| - 1 ==> s.journal[i].Inner?)
          && (!s.main.Ended? && |s.journal| > 1 ==> s.journal[|s.journal| - 1].Inner?)
          && (s.main.Ended? && |s.journal| > 1 && s.journal[|s.journal| - 1].RunCompleted? ==> !s.main.failed)
          && (s.main.Ended? && |s.journal| > 1 && s.journal[|s.journal| - 1].RunFailed? ==> s.main.failed)
          && (s.main.Ended? && (|s.journal| <= 1 || !(s.journal[|s.journal| - 1].RunCompleted? || s.journal[|s.journal| - 1].RunFailed?)) ==>
                s.main.failed && s.refused)
          && (s.main.Ended? && |s.journal| > 1 ==> !s.journal[|s.journal| - 1].RunStarted?))
  }

  lemma BracketedStep(c: Config, s: State, s': State)
    requires Bracketed(c, s) && Numbered(s) && Hushed(s) && FirstIsZero(c, s) && Next(c, s, s')
    ensures Bracketed(c, s')
  {
    hide Bracketed, Numbered, MainStep, ReporterStep;
    if MainStep(c, s, s') { BracketedMain(c, s, s'); } else { BracketedReporter(c, s, s'); }
  }

  lemma BracketedMain(c: Config, s: State, s': State)
    requires Bracketed(c, s) && Hushed(s) && FirstIsZero(c, s) && MainStep(c, s, s')
    ensures Bracketed(c, s')
  {
    hide CoreStep, Opens, Closes;
    if Opens(c, s, s') { OpensEffect(c, s, s'); BracketedOpens(c, s, s'); }
    else if Closes(c, s, s') { BracketedCloses(c, s, s'); }
    else { CoreQuiet(c, s, s'); }
  }

  lemma BracketedOpens(c: Config, s: State, s': State)
    requires Bracketed(c, s) && Opens(c, s, s') && FirstIsZero(c, s)
    ensures Bracketed(c, s')
  {}

  lemma BracketedCloses(c: Config, s: State, s': State)
    requires Bracketed(c, s) && Closes(c, s, s')
    ensures Bracketed(c, s')
  {}

  lemma BracketedReporter(c: Config, s: State, s': State)
    requires Bracketed(c, s) && Numbered(s) && ReporterStep(c, s, s')
    ensures Bracketed(c, s')
  {}

  /** Whether a run failed is whether its core did or something outside it was refused; a run that publishes ends with its
      terminal snapshot, unless it was refused before its core. */
  ghost predicate Concluded(c: Config, s: State) {
    && (!c.reports ==> s.delivered == [])
    && match s.main
       case Begin => !s.broken && !s.refused
       case Announced => !s.broken && !s.refused
       case Core => !s.broken
       case Stopping(failed) => failed == s.broken
       case Closing(failed) => failed == (s.broken || s.refused)
       case Sealed(failed) => failed == (s.broken || s.refused) && (c.reports ==> Terminal(s))
       case Ended(failed) => failed == (s.broken || s.refused) && (c.reports ==> Terminal(s) || (s.refused && !s.broken && |s.delivered| <= 1))
  }

  predicate Terminal(s: State) { s.delivered != [] && s.delivered[|s.delivered| - 1].terminal }

  lemma ConcludedStep(c: Config, s: State, s': State)
    requires Concluded(c, s) && Numbered(s) && Hushed(s) && FirstIsZero(c, s) && ReportsOnly(c, s) && Next(c, s, s')
    ensures Concluded(c, s') && ReportsOnly(c, s')
  {
    hide ReporterStep, MainStep, Concluded, Numbered, Hushed, FirstIsZero, ReportsOnly;
    if MainStep(c, s, s') { ConcludedMain(c, s, s'); } else { ConcludedReporter(c, s, s'); }
  }

  /** A reporter goroutine only works for a run that publishes. */
  ghost predicate ReportsOnly(c: Config, s: State) { !c.reports ==> s.reporter.Quit? }

  lemma ConcludedMain(c: Config, s: State, s': State)
    requires Concluded(c, s) && Hushed(s) && FirstIsZero(c, s) && ReportsOnly(c, s) && MainStep(c, s, s')
    ensures Concluded(c, s') && ReportsOnly(c, s')
  {
    hide CoreStep, Opens, Closes;
    if Opens(c, s, s') { ConcludedOpens(c, s, s'); }
    else if Closes(c, s, s') { ConcludedCloses(c, s, s'); }
    else { CoreQuiet(c, s, s'); CoreEnds(c, s, s'); }
  }

  lemma ConcludedOpens(c: Config, s: State, s': State)
    requires Concluded(c, s) && FirstIsZero(c, s) && ReportsOnly(c, s) && Opens(c, s, s')
    ensures Concluded(c, s') && ReportsOnly(c, s')
  {}

  lemma ConcludedCloses(c: Config, s: State, s': State)
    requires Concluded(c, s) && ReportsOnly(c, s) && Closes(c, s, s')
    ensures Concluded(c, s') && ReportsOnly(c, s')
  {}

  lemma CoreEnds(c: Config, s: State, s': State)
    requires s.main.Core? && !s.broken && Hushed(s) && CoreStep(c, s, s')
    ensures s'.main.Core? || s'.main.Stopping?
    ensures s'.refused == s.refused && if s'.main.Core? then !s'.broken else s'.main.failed == s'.broken
  {}

  lemma ConcludedReporter(c: Config, s: State, s': State)
    requires Concluded(c, s) && Numbered(s) && ReportsOnly(c, s) && ReporterStep(c, s, s')
    ensures Concluded(c, s') && ReportsOnly(c, s')
  {}

  // ----- the counters ------------------------------------------------------------------------------------

  /** What the levels outside a reader's hold by now. */
  function Before(stack: seq<Frame>, level: nat): nat
    requires level <= |stack|
  { if level == 0 then 0 else Before(stack, level - 1) + stack[level - 1].base }

  ghost predicate ShownTo(stack: seq<Frame>, level: nat) { level < |stack| && forall j :: 1 <= j <= level ==> stack[j].shown }

  lemma {:induction false} VisibleSplit(stack: seq<Frame>, level: nat)
    requires ShownTo(stack, level)
    ensures Visible(stack, 0) == Before(stack, level) + Visible(stack, level)
  {
    if level > 0 { VisibleSplit(stack, level - 1); }
  }

  lemma {:induction false} VisibleWithin(stack: seq<Frame>, level: nat)
    requires level <= |stack|
    ensures Before(stack, level) + Visible(stack, level) <= Before(stack, |stack|)
    decreases |stack| - level
  {
    if level < |stack| { VisibleWithin(stack, level + 1); }
  }

  /** Two stacks of which the second holds at least as much from `level` on, and in sight. */
  ghost predicate Grown(stack: seq<Frame>, more: seq<Frame>, level: nat) {
    && Visible(stack, level) <= Visible(more, level)
    && level < |stack| && level < |more| && Before(stack, level) <= Before(more, level) && ShownTo(more, level)
  }

  lemma {:induction false} BeforeSame(stack: seq<Frame>, more: seq<Frame>, level: nat)
    requires level <= |stack| && level <= |more| && forall j :: 0 <= j < level ==> stack[j].base <= more[j].base
    ensures Before(stack, level) <= Before(more, level)
  {
    if level > 0 { BeforeSame(stack, more, level - 1); }
  }

  lemma {:induction false} VisibleMore(stack: seq<Frame>, more: seq<Frame>, level: nat)
    requires level < |stack| <= |more|
    requires forall j :: 0 <= j < |stack| ==> stack[j].base <= more[j].base && (stack[j].shown ==> more[j].shown)
    ensures Visible(stack, level) <= Visible(more, level)
    decreases |stack| - level
  {
    if level + 1 < |stack| { VisibleMore(stack, more, level + 1); }
  }

  /** A completing engine takes nothing out of sight. */
  lemma {:induction false} VisiblePop(stack: seq<Frame>, k: nat, level: nat)
    requires |stack| == k + 1 && level < k
    ensures Visible(stack, level) <= Visible(Popped(stack), level)
    decreases k - level
  {
    var more := Popped(stack);
    if level + 1 < k { VisiblePop(stack, k, level + 1); } else {
      assert level == k - 1 && Visible(more, level) == more[level].base;
      assert Visible(stack, k) == stack[k].base;
    }
  }

  /** How the counts compare: what was delivered, what the reporter is about to deliver, what is in sight. */
  ghost predicate Ordered(s: State) {
    && |s.stack| >= 1
    && (s.main.Begin? || s.main.Announced? || s.main.Stopping? || s.main.Closing? || s.main.Sealed? || s.main.Ended? ==> |s.stack| == 1)
    && (forall i, j :: 0 <= i < j < |s.delivered| ==> s.delivered[i].count <= s.delivered[j].count)
    && Last(s) <= Visible(s.stack, 0)
    && match s.reporter
       case Reading(acc, level) => ShownTo(s.stack, level) && acc <= Before(s.stack, level) && Last(s) <= acc + Visible(s.stack, level)
       case ReadingOld(acc, left) => Last(s) <= acc + left <= Visible(s.stack, 0)
       case Read(count) => Last(s) <= count <= Visible(s.stack, 0)
       case Holding(x) => Last(s) <= x.count <= Visible(s.stack, 0)
       case _ => true
  }

  function Last(s: State): nat { if s.delivered == [] then 0 else s.delivered[|s.delivered| - 1].count }

  lemma OrderedReporter(c: Config, s: State, s': State)
    requires Ordered(s) && ReporterStep(c, s, s')
    ensures Ordered(s')
  {
    ReporterEffect(c, s, s');
    hide ReporterStep;
    if s.reporter.Reading? {
      VisibleSplit(s.stack, s.reporter.level);
      ReadOn(s.stack, s.reporter.level);
    }
    hide Visible, Before;
    if s.reporter.Idle? && s'.reporter.Reading? { BeforeFirst(s.stack); }
  }

  lemma BeforeFirst(stack: seq<Frame>)
    requires |stack| >= 1
    ensures Before(stack, 0) == 0 && ShownTo(stack, 0)
  {}

  lemma ReadOn(stack: seq<Frame>, level: nat)
    requires level < |stack|
    ensures Visible(stack, level) == stack[level].base + if level + 1 < |stack| && stack[level + 1].shown then Visible(stack, level + 1) else 0
    ensures Before(stack, level + 1) == Before(stack, level) + stack[level].base
  {}

  /** Every move of the core keeps or adds to what each reader will find. */
  lemma CoreGrows(c: Config, s: State, s': State, level: nat)
    requires s.main.Core? && Hushed(s) && CoreStep(c, s, s') && ShownTo(s.stack, level) && !(s'.stack != s.stack && level >= |s'.stack|)
    ensures Grown(s.stack, s'.stack, level)
  {
    var k := |s.stack| - 1;
    if s'.stack == s.stack { } else if k > 0 && s'.stack == Popped(s.stack) {
      VisiblePop(s.stack, k, level);
      BeforeSame(s.stack, s'.stack, level);
    } else {
      if i: nat, x: nat :| Works(s, i, x, s') { assert s'.stack[i].shown == s.stack[i].shown; }
      VisibleMore(s.stack, s'.stack, level);
      BeforeSame(s.stack, s'.stack, level);
    }
  }

  lemma OrderedCore(c: Config, s: State, s': State)
    requires Ordered(s) && Hushed(s) && s.main.Core? && CoreStep(c, s, s')
    ensures Ordered(s')
  {
    var k, r := |s.stack| - 1, s.reporter;
    CoreQuiet(c, s, s');
    CoreGrows(c, s, s', 0);
    if r.Reading? {
      if k > 0 && s'.stack == Popped(s.stack) && r.level == k {
        VisibleSplit(s.stack, k);
        PopKeepsAll(s.stack, k);
      } else { CoreGrows(c, s, s', r.level); }
    }
    CoreStacks(c, s, s');
    hide Visible, Before, CoreStep, Hushed;
  }

  lemma CoreStacks(c: Config, s: State, s': State)
    requires s.main.Core? && Hushed(s) && |s.stack| >= 1 && CoreStep(c, s, s')
    ensures |s'.stack| >= 1 && (s'.main.Stopping? ==> |s'.stack| == 1)
    ensures if |s'.stack| < |s.stack| then |s.stack| > 1 && s'.stack == Popped(s.stack) && s'.reporter == Leave(s.reporter, s.stack) else s'.reporter == s.reporter
  {}

  /** If the completing engine was in sight, all of its count stays in sight. */
  lemma PopKeepsAll(stack: seq<Frame>, k: nat)
    requires k > 0 && |stack| == k + 1 && ShownTo(stack, k)
    ensures Visible(Popped(stack), 0) == Before(stack, k) + stack[k].base
  {
    var more := Popped(stack);
    VisibleSplit(more, k - 1);
    SameBefore(stack, more, k - 1);
  }

  lemma {:induction false} SameBefore(stack: seq<Frame>, more: seq<Frame>, level: nat)
    requires level <= |stack| && level <= |more| && forall j :: 0 <= j < level ==> stack[j].base == more[j].base
    ensures Before(stack, level) == Before(more, level)
  {
    if level > 0 { SameBefore(stack, more, level - 1); }
  }

  lemma OrderedMain(c: Config, s: State, s': State)
    requires Ordered(s) && Numbered(s) && FirstIsZero(c, s) && Hushed(s) && MainStep(c, s, s')
    ensures Ordered(s')
  {
    hide CoreStep, Opens, Closes;
    if Opens(c, s, s') { OrderedOpens(c, s, s'); }
    else if Closes(c, s, s') { OrderedCloses(c, s, s'); }
    else { OrderedCore(c, s, s'); }
  }

  lemma OrderedOpens(c: Config, s: State, s': State)
    requires Ordered(s) && Numbered(s) && FirstIsZero(c, s) && Opens(c, s, s')
    ensures Ordered(s')
  {
    OpensEffect(c, s, s');
    hide Opens;
  }

  lemma OrderedCloses(c: Config, s: State, s': State)
    requires Ordered(s) && Numbered(s) && Closes(c, s, s')
    ensures Ordered(s')
  {
    ClosesEffect(c, s, s');
    hide Closes;
  }

  // ----- the results -------------------------------------------------------------------------------------

  ghost predicate Inv(c: Config, s: State) { Numbered(s) && Bracketed(c, s) && Ordered(s) && FirstIsZero(c, s) && Hushed(s) && Concluded(c, s) && ReportsOnly(c, s) }

  /** Before the core of the run nothing has been counted. */
  ghost predicate FirstIsZero(c: Config, s: State) {
    && (s.main.Begin? || s.main.Announced? ==> s.delivered == [] && |s.stack| == 1 && s.stack[0].base == 0)
    && (s.main.Begin? ==> s.stack[0].options == Options(c.reports, c.journals, false))
  }

  lemma {:induction false} RunInv(c: Config, tr: seq<State>, t: nat)
    requires Run(c, tr) && t < |tr|
    ensures Inv(c, tr[t])
  {
    if t > 0 {
      hide Numbered, Bracketed, Ordered, Hushed, FirstIsZero, Concluded, ReportsOnly, MainStep, ReporterStep, Init;
      RunInv(c, tr, t - 1);
      var s, s' := tr[t - 1], tr[t];
      assert Next(c, s, tr[t - 1 + 1]);
      NumberedStep(c, s, s');
      BracketedStep(c, s, s');
      StillZero(c, s, s');
      HushedStep(c, s, s');
      ConcludedStep(c, s, s');
      if MainStep(c, s, s') { OrderedMain(c, s, s'); } else { OrderedReporter(c, s, s'); }
    }
  }

  lemma StillZero(c: Config, s: State, s': State)
    requires FirstIsZero(c, s) && Numbered(s) && Hushed(s) && Next(c, s, s')
    ensures FirstIsZero(c, s')
  {
    if ReporterStep(c, s, s') { ReporterEffect(c, s, s'); }
    else if Opens(c, s, s') { ZeroOpens(c, s, s'); }
    else if Closes(c, s, s') { ClosesEffect(c, s, s'); }
    else { CoreQuiet(c, s, s'); }
    hide CoreStep, Opens, Closes, ReporterStep;
  }

  lemma ZeroOpens(c: Config, s: State, s': State)
    requires FirstIsZero(c, s) && Opens(c, s, s')
    ensures FirstIsZero(c, s')
  {}

  /** Delivered snapshots are numbered 1, 2, 3, ...; at most one is terminal, and it is last; and counts
      never decrease, nor ever exceed what has been counted. */
  lemma SnapshotsInOrder(c: Config, tr: seq<State>, t: nat, i: nat)
    requires Run(c, tr) && t < |tr| && i < |tr[t].delivered|
    ensures var d := tr[t].delivered;
      && d[i].sequence == i + 1
      && (d[i].terminal ==> i == |d| - 1 && (tr[t].main.Sealed? || tr[t].main.Ended?))
      && (i > 0 ==> d[i - 1].count <= d[i].count)
      && d[i].count <= Before(tr[t].stack, |tr[t].stack|)
  {
    RunInv(c, tr, t);
    VisibleWithin(tr[t].stack, 0);
    var d := tr[t].delivered;
    assert d[i].count <= d[|d| - 1].count;
  }

  /** The terminal snapshot reports everything that was counted. */
  ghost predicate TerminalIsFull(s: State) {
    s.delivered != [] && s.delivered[|s.delivered| - 1].terminal ==> |s.stack| == 1 && Last(s) == s.stack[0].base
  }

  lemma TerminalStep(c: Config, s: State, s': State)
    requires Numbered(s) && Ordered(s) && Hushed(s) && TerminalIsFull(s) && Next(c, s, s')
    ensures TerminalIsFull(s')
  {
    if ReporterStep(c, s, s') { ReporterEffect(c, s, s'); }
    else if Opens(c, s, s') { OpensEffect(c, s, s'); }
    else if Closes(c, s, s') { ClosesEffect(c, s, s'); }
    else { CoreQuiet(c, s, s'); }
    hide CoreStep, Opens, Closes, ReporterStep, Visible, Before, Hushed;
  }

  lemma {:induction false} TerminalReportsAll(c: Config, tr: seq<State>, t: nat)
    requires Run(c, tr) && t < |tr|
    ensures TerminalIsFull(tr[t])
  {
    if t > 0 {
      hide Init, Next, Bracketed, Numbered, Ordered, TerminalIsFull;
      TerminalReportsAll(c, tr, t - 1);
      RunInv(c, tr, t - 1);
      assert Next(c, tr[t - 1], tr[t - 1 + 1]);
      TerminalStep(c, tr[t - 1], tr[t]);
    }
  }

  /** How the journal of a run that has ended reads: run_started first, one terminal event last, only inner events between.
      A run that succeeds has run_completed, and nothing else has; a run that fails has run_failed, unless the journal
      refused that, or run_started itself, in which case nothing was published either. */
  lemma JournalBracketed(c: Config, tr: seq<State>, t: nat)
    requires Run(c, tr) && t < |tr| && c.journals && tr[t].main.Ended?
    ensures var j, failed := tr[t].journal, tr[t].main.failed;
      && (forall i :: 0 < i < |j| - 1 ==> j[i].Inner?)
      && (j == [] ==> tr[t].delivered == [])
      && (j != [] ==> j[0].RunStarted?)
      && (!failed <==> |j| > 1 && j[|j| - 1].RunCompleted?)
      && (failed && !tr[t].refused ==> |j| > 1 && j[|j| - 1].RunFailed?)
  {
    RunInv(c, tr, t);
  }

  // ----- getting to the end ------------------------------------------------------------------------------

  function MainRank(m: Main): nat {
    match m
    case Begin => 6
    case Announced => 5
    case Core => 4
    case Stopping(_) => 3
    case Closing(_) => 2
    case Sealed(_) => 1
    case Ended(_) => 0
  }

  function ReporterRank(s: State): nat {
    match s.reporter
    case Quit => 0
    case Idle => 1
    case Holding(_) => 2
    case Read(_) => 3
    case ReadingOld(_, _) => 4
    case Reading(_, level) => 5 + if level < |s.stack| then |s.stack| - level else 0
  }

  /** Nothing has gone wrong so far. */
  predicate Well(s: State) {
    !s.broken && !s.refused && (s.main.Stopping? || s.main.Closing? || s.main.Sealed? || s.main.Ended? ==> !s.main.failed)
  }

  lemma OneOn(c: Config, s: State) returns (s': State)
    requires Inv(c, s) && Well(s) && !s.main.Ended?
    ensures Next(c, s, s') && Well(s')
    ensures || MainRank(s'.main) < MainRank(s.main) || (s'.main == s.main && |s'.stack| < |s.stack|)
            || (s'.main == s.main && |s'.stack| == |s.stack| && ReporterRank(s') < ReporterRank(s))
  {
    match s.main {
      case Begin => s' := if Root(s.stack[0].options) then Note(c, Observed(s), RunStarted).(main := Announced) else s.(main := Announced);
      case Announced => s' := if c.reports then Publish(s, 0, false).(main := Core) else s.(main := Core);
      case Core =>
        if |s.stack| > 1 { s' := s.(stack := Popped(s.stack), reporter := Leave(s.reporter, s.stack)); }
        else { s' := s.(main := Stopping(false), broken := false); }
      case Stopping(_) => if s.reporter.Quit? { s' := s.(main := Closing(false)); } else { s' := ReporterOn(c, s); }
      case Closing(_) => s' := if c.reports then Publish(s, s.stack[0].base, true).(main := Sealed(false)) else s.(main := Sealed(false));
      case Sealed(_) => s' := Note(c, s, RunCompleted).(main := Ended(false));
    }
  }

  lemma ReporterOn(c: Config, s: State) returns (s': State)
    requires Ordered(s) && Well(s) && s.main.Stopping? && !s.reporter.Quit?
    ensures ReporterStep(c, s, s') && Well(s') && s'.main == s.main && s'.stack == s.stack && ReporterRank(s') < ReporterRank(s)
  {
    match s.reporter {
      case Idle => s' := s.(reporter := Quit);
      case Reading(acc, level) =>
        var sum := acc + s.stack[level].base;
        s' := s.(reporter := Read(sum));
      case ReadingOld(acc, left) => s' := s.(reporter := Read(acc + left));
      case Read(count) => s' := s.(sequence := s.sequence + 1, reporter := Holding(Snapshot(s.sequence + 1, count, false)));
      case Holding(x) => s' := s.(delivered := s.delivered + [x], reporter := Quit);
    }
  }

  /** From every reachable state in which nothing has gone wrong the run can end well: with its terminal snapshot delivered
      and run_completed last in its journal, if it has a reporter and a journal. */
  lemma {:induction false} SuccessReachable(c: Config, tr: seq<State>) returns (more: seq<State>)
    requires Run(c, tr) && Well(tr[|tr| - 1])
    ensures Run(c, more) && |more| >= |tr| && more[..|tr|] == tr && more[|more| - 1].main == Ended(false)
    ensures var last := more[|more| - 1];
      && (c.reports ==> last.delivered != [] && |last.stack| > 0 && last.delivered[|last.delivered| - 1] == Snapshot(|last.delivered|, last.stack[0].base, true))
      && (c.journals ==> |last.journal| >= 2 && last.journal[|last.journal| - 1].RunCompleted?)
    decreases MainRank(tr[|tr| - 1].main), |tr[|tr| - 1].stack|, ReporterRank(tr[|tr| - 1])
  {
    var s := tr[|tr| - 1];
    RunInv(c, tr, |tr| - 1);
    if s.main.Ended? {
      more := tr;
      Finale(c, tr);
    } else {
      var s' := OneOn(c, s);
      var longer := tr + [s'];
      assert Run(c, longer) by {
        forall t | 0 <= t < |longer| - 1 ensures Next(c, longer[t], longer[t + 1]) { if t < |tr| - 1 { assert Next(c, tr[t], tr[t + 1]); } }
      }
      more := SuccessReachable(c, longer);
      assert more[..|longer|][..|tr|] == tr;
    }
  }

  lemma Finale(c: Config, tr: seq<State>)
    requires Run(c, tr) && tr[|tr| - 1].main.Ended? && Well(tr[|tr| - 1])
    ensures var last := tr[|tr| - 1];
      && (c.reports ==> last.delivered != [] && |last.stack| > 0 && last.delivered[|last.delivered| - 1] == Snapshot(|last.delivered|, last.stack[0].base, true))
      && (c.journals ==> |last.journal| >= 2 && last.journal[|last.journal| - 1].RunCompleted?)
  {
    EndsAsItWent(c, tr, |tr| - 1);
    TerminalReportsAll(c, tr, |tr| - 1);
    RunInv(c, tr, |tr| - 1);
    if c.journals { JournalBracketed(c, tr, |tr| - 1); }
  }

  /** A run that has ended failed exactly if its core did, or something was refused; and if it publishes, its last
      snapshot is the terminal one, unless it was refused before its core began. */
  lemma EndsAsItWent(c: Config, tr: seq<State>, t: nat)
    requires Run(c, tr) && t < |tr| && tr[t].main.Ended?
    ensures tr[t].main.failed <==> tr[t].broken || tr[t].refused
    ensures var d := tr[t].delivered;
      if !c.reports then d == []
      else (d != [] && d[|d| - 1].terminal) || (tr[t].refused && !tr[t].broken && |d| <= 1)
  {
    RunInv(c, tr, t);
  }
}
