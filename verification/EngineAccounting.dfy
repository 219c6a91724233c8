/**
 Double-entry accounting for the engine.  Each meter has a shared side, read from budgets,
 counters and journal, and a weight per program counter; every move changes both by the same
 amount, so the shared side always equals the total weight of the workers.
 */
module EngineAccounting {
  import opened Common
  import opened Engine
  import opened EngineSafety
  import opened EngineTheorems

  datatype Meter =
    | Held(r: nat)    // units of resource r reserved but not yet spent on a started work call
    | InCall          // work calls in progress
    | Open            // admitted sequences and counted retries whose work call has not returned
    | HitOwed | QuarantineOwed | SkipOwed | RetryOwed   // counted, not yet journaled
    | MissOwed        // counted misses still unresolved or not yet journaled
    | DoneOwed        // the same for items of an uncached stage
    | Uncounted       // taken, not yet counted as a hit or a miss
    | Working         // admitted sequences that have not stored a value
    | Carried(fate: Fate)    // results of one kind counted but not emitted yet
    | Broken          // workers that failed

  /** The results that are counted on their own. */
  datatype Fate = Hits | Quarantines | Skips

  function CountOf(fate: Fate, n: Counts): nat {
    match fate
    case Hits => n.hits
    case Quarantines => n.quarantined
    case Skips => n.skipped
  }

  predicate Meets(fate: Fate, r: Result) {
    match fate
    case Hits => r.Fine? && r.state.Hit?
    case Quarantines => r.Quarantined?
    case Skips => r.Skipped?
  }

  function Is(b: bool): int { if b then 1 else 0 }

  function Weight(c: Config, m: Meter, p: Pc): int {
    match m
    case Held(r) => Is((p.Admitting? || p.Refunding?) && r < p.held)
    case InCall => Is(p.Doing?)
    case Open => Is(p.Doing? || p.Retrying? || p.Waiting? || ((p.Admitting? || p.Refunding?) && p.attempt > 1))
    case HitOwed => Is(p.HitFound? || (p.FollowEvent? && CopiedEvent(p.result).HitEvent?))
    case QuarantineOwed => Is((p.Flagging? || p.FollowEvent?) && p.result.Quarantined?)
    case SkipOwed => Is((p.Flagging? || p.FollowEvent?) && p.result.Skipped?)
    case RetryOwed => Is(p.Retrying?)
    case MissOwed => Is(Busy(p) || p.Saved? || (p.FollowEvent? && CopiedEvent(p.result).StoredEvent?))
    case DoneOwed => Is(Busy(p) || p.Saved?)
    case Uncounted => Is(p.Lookup? || p.Following? || p.Loading?)
    case Carried(fate) => Is(Carries(fate, p))
    case Broken => Is((p.Publishing? && p.outcome.Failed?) || p == Exited(false))
    case Working => Is(p.Doing? || p.Retrying? || p.Waiting? || p.Saving? || (p.Admitting? && p.attempt > 1))
  }

  /** The worker has a counted result of this kind in hand. */
  predicate Carries(fate: Fate, p: Pc) {
    || (p.HitFound? && fate.Hits?)
    || ((p.FollowEvent? || p.Flagging? || p.Emitting?) && Meets(fate, p.result))
    || (p.Publishing? && p.outcome.Resolved? && Meets(fate, p.outcome.result))
  }

  predicate Busy(p: Pc) { p.Admitting? || p.Refunding? || p.Doing? || p.Retrying? || p.Waiting? || p.Saving? }

  function Total(c: Config, m: Meter, pcs: seq<Pc>): int {
    if pcs == [] then 0 else Weight(c, m, pcs[0]) + Total(c, m, pcs[1..])
  }

  lemma {:induction false} TotalUpdate(c: Config, m: Meter, pcs: seq<Pc>, w: nat, p: Pc)
    requires w < |pcs|
    ensures Total(c, m, pcs[w := p]) == Total(c, m, pcs) - Weight(c, m, pcs[w]) + Weight(c, m, p)
  {
    if w == 0 { assert pcs[0 := p][1..] == pcs[1..]; }
    else {
      TotalUpdate(c, m, pcs[1..], w - 1, p);
      assert pcs[w := p][1..] == pcs[1..][w - 1 := p];
    }
  }

  lemma {:induction false} TotalZero(c: Config, m: Meter, pcs: seq<Pc>)
    requires forall w :: 0 <= w < |pcs| ==> Weight(c, m, pcs[w]) == 0
    ensures Total(c, m, pcs) == 0
  {
    if pcs != [] { TotalZero(c, m, pcs[1..]); }
  }

  /** Each worker weighs at most one. */
  lemma {:induction false} TotalBound(c: Config, m: Meter, pcs: seq<Pc>)
    ensures 0 <= Total(c, m, pcs) <= |pcs|
  {
    if pcs != [] { TotalBound(c, m, pcs[1..]); }
  }

  function Count(journal: seq<Event>, kind: EventType): nat {
    if journal == [] then 0
    else Count(journal[..|journal| - 1], kind) + if journal[|journal| - 1].kind == kind then 1 else 0
  }

  lemma CountNoted(g: Shared, e: Event, kind: EventType)
    ensures Count(Noted(g, e).journal, kind) == Count(g.journal, kind) + Is(e.kind == kind)
  {
    assert Noted(g, e).journal[..|g.journal|] == g.journal;
  }

  lemma CountNotedAll(g: Shared, e: Event)
    ensures forall kind :: Count(Noted(g, e).journal, kind) == Count(g.journal, kind) + Is(e.kind == kind)
  {
    forall kind { CountNoted(g, e, kind); }
  }

  /** The shared side of a meter. */
  function Side(m: Meter, g: Shared): int
    requires m.Held? ==> m.r < |g.spent| && m.r < |g.others|
  {
    var n, j := g.counts, g.journal;
    match m
    case Held(r) => g.spent[r] - g.others[r] - g.started
    case InCall => g.started - n.workCalls
    case Open => n.sequences + n.retries - n.workCalls - g.abandoned
    case HitOwed => n.hits - Count(j, HitEvent)
    case QuarantineOwed => n.quarantined - Count(j, QuarantinedEvent)
    case SkipOwed => n.skipped - Count(j, SkippedEvent)
    case RetryOwed => n.retries - Count(j, RetryEvent)
    case MissOwed => n.misses - n.quarantined - n.skipped - Count(j, StoredEvent)
    case DoneOwed => n.items - n.quarantined - n.skipped - Count(j, DoneEvent)
    case Uncounted => n.items - n.hits - n.misses
    case Working => n.sequences - n.stored
    case Carried(fate) => CountOf(fate, n) - Sum(Emitted(fate), g.items)
    case Broken => g.abandoned
  }

  /** The meters that balance: payments always, the others as long as no worker has failed. */
  predicate Metered(c: Config, m: Meter, g: Shared) {
    match m
    case Held(r) => r < c.R()
    case InCall => true
    case Open => true
    case MissOwed => c.cached && !g.errored
    case DoneOwed => !c.cached && !g.errored
    case Uncounted => c.cached && !g.errored
    case Broken => false
    case Carried(_) => false
    case Working => c.cached && !g.errored && g.counts.quarantined == 0 && g.counts.skipped == 0
    case _ => !g.errored
  }

  // ----- the posting table -----------------------------------------------------------------

  datatype EventOpt = NoEvent | Kind(kind: EventType)

  /** What one move posts to the books; `charge` goes to the resource `at`. */
  datatype Entry = Entry(items: int, hits: int, misses: int, stored: int, calls: int, sequences: int, retries: int,
                         quarantined: int, skipped: int, started: int, abandoned: int, charge: int, at: int, event: EventOpt)

  function Nil(): Entry { Entry(0, 0, 0, 0, 0, 0, 0, 0, 0, 0, 0, 0, 0, NoEvent) }

  function Post(c: Config, p: Pc, p': Pc): Entry {
    match p
    case Idle => Nil().(items := Is(p'.HasItem()))
    case Following(_) =>
      if !p'.FollowEvent? then Nil()
      else
        var hit := Is(CopiedEvent(p'.result).HitEvent?);
        Nil().(hits := hit, misses := 1 - hit, quarantined := Is(p'.result.Quarantined?), skipped := Is(p'.result.Skipped?))
    case FollowEvent(_, r) => if p'.Emitting? then Nil().(event := Kind(CopiedEvent(r))) else Nil()
    case Loading(_) => Nil().(hits := Is(p'.HitFound?), misses := Is(p'.Admitting?))
    case HitFound(_, _) => Journaled(p', HitEvent)
    case Admitting(_, a, h) =>
      if p'.Admitting? then Nil().(charge := 1, at := h)
      else Nil().(started := Is(p'.Doing?), sequences := Is(p'.Doing? && a == 1))
    case Refunding(_, a, h) =>
      if p'.Refunding? then Nil().(charge := -1, at := h - 1) else Nil().(abandoned := Is(a > 1))
    case Doing(_, _) =>
      Nil().(calls := 1, retries := Is(p'.Retrying?), quarantined := Is(p'.Flagging? && p'.result.Quarantined?),
             skipped := Is(p'.Flagging? && p'.result.Skipped?))
    case Retrying(_, _) => if p'.Waiting? then Nil().(event := Kind(RetryEvent)) else Nil().(abandoned := 1)
    case Waiting(_, _) => Nil().(abandoned := Is(!p'.Admitting?))
    case Saving(_, _) => Nil().(stored := Is(p'.Saved? && c.cached))
    case Saved(_, _) => Journaled(p', FreshEvent(c))
    case Flagging(_, r) => Journaled(p', FlagEvent(r))
    case _ => Nil()
  }

  function Journaled(p': Pc, kind: EventType): Entry {
    if p'.Publishing? && p'.outcome.Resolved? then Nil().(event := Kind(kind)) else Nil()
  }

  /** The program counters a move can reach. */
  predicate Edge(c: Config, p: Pc, p': Pc) {
    var failed := p'.Publishing? && p'.outcome.Failed?;
    match p
    case Idle => p' == Exited(true) || (if c.cached then p'.Lookup? else p'.Admitting? && p'.attempt == 1 && p'.held == 0)
    case Lookup(_) => p'.Following? || p'.Loading? || p' == Exited(false)
    case Following(_) => p'.FollowEvent? || p' == Exited(false)
    case FollowEvent(i, r) => p' == Emitting(i, Copy(i, r)) || p' == Exited(false)
    case Loading(_) => p'.HitFound? || (p'.Admitting? && p'.attempt == 1 && p'.held == 0) || failed
    case Admitting(i, a, h) =>
      if h < c.R() then p' == Admitting(i, a, h + 1) || p' == Refunding(i, a, h) else p' == Doing(i, a)
    case Refunding(i, a, h) => if h > 0 then p' == Refunding(i, a, h - 1) else failed
    case Doing(i, a) => p'.Saving? || p' == Retrying(i, a) || p'.Flagging? || failed
    case Retrying(i, a) => p' == Waiting(i, a) || failed
    case Waiting(i, a) => p' == Admitting(i, a + 1, 0) || failed
    case Saving(_, _) => p'.Saved? || failed
    case HitFound(i, v) => failed || p' == Publishing(i, Resolved(Fine(v, Hit)))
    case Saved(i, v) => failed || p' == Publishing(i, Resolved(Fine(v, FreshState(c))))
    case Flagging(i, r) => failed || p' == Publishing(i, Resolved(r))
    case Publishing(i, o) => if o.Resolved? then p' == Emitting(i, o.result) else p' == Exited(false)
    case Emitting(_, _) => p'.Idle? || p' == Exited(false)
    case Exited(_) => false
  }

  ghost predicate MoneyPosted(e: Entry, g: Shared, g': Shared) {
    var n, m := g.counts, g'.counts;
    && m.items == n.items + e.items && m.stored == n.stored + e.stored
    && m.workCalls == n.workCalls + e.calls && m.sequences == n.sequences + e.sequences && m.retries == n.retries + e.retries
    && g'.started == g.started + e.started && g'.abandoned == g.abandoned + e.abandoned
    && g'.others == g.others && |g'.spent| == |g.spent|
    && forall r :: 0 <= r < |g.spent| ==> g'.spent[r] == g.spent[r] + if r == e.at then e.charge else 0
  }

  ghost predicate CountsPosted(e: Entry, i: int, g: Shared, g': Shared) {
    var n, m := g.counts, g'.counts;
    && m.hits == n.hits + e.hits && m.misses == n.misses + e.misses
    && m.quarantined == n.quarantined + e.quarantined && m.skipped == n.skipped + e.skipped
    && (if e.event.NoEvent? then g'.journal == g.journal
        else i >= 0 && g'.journal == Noted(g, Event(i, e.event.kind)).journal)
  }

  predicate Faulty(p: Pc) { p.Refunding? || (p.Publishing? && p.outcome.Failed?) || p == Exited(false) }

  ghost predicate Posted(c: Config, p: Pc, g: Shared, p': Pc, g': Shared) {
    && Edge(c, p, p') && MoneyPosted(Post(c, p, p'), g, g')
    && (Faulty(p') ==> g'.errored) && (g'.errored ==> g.errored || Faulty(p'))
    && (!g'.errored ==> !g.errored && CountsPosted(Post(c, p, p'), Of(p), g, g'))
  }

  /** Journal writes post their event, or fail. */
  lemma JournalPost(e: Event, next: Result, i: nat, g: Shared, p': Pc, g': Shared)
    requires Journal(e, next, i, g, p', g') && |g.spent| == |g.others| && e.index == i
    ensures p'.Publishing? && p'.item == i && MoneyPosted(Nil(), g, g')
    ensures p'.outcome.Resolved? ==> p'.outcome.result == next
    ensures p'.outcome.Failed? ==> g'.errored
    ensures p'.outcome.Resolved? || p'.outcome.Failed?
    ensures p'.outcome.Resolved? ==> g'.errored == g.errored && CountsPosted(Nil().(event := Kind(e.kind)), i, g, g')
  {}

  lemma ArrivePosts(c: Config, w: nat, p: Pc, g: Shared, p': Pc, g': Shared)
    requires Sized(c, g) && (p.HasItem() ==> p.item < |g.items|) && Arrive(c, w, p, g, p', g') && !p.Following? && !p.FollowEvent?
    ensures Posted(c, p, g, p', g')
  {}

  lemma FollowPosts(c: Config, w: nat, p: Pc, g: Shared, p': Pc, g': Shared)
    requires Sized(c, g) && (p.HasItem() ==> p.item < |g.items|) && Arrive(c, w, p, g, p', g') && (p.Following? || p.FollowEvent?)
    ensures Posted(c, p, g, p', g')
  {
    hide Follow, FollowRecord, Posted;
    if p.Following? { FollowingPosts(c, p.item, g, p', g'); } else { RecordPosts(c, p.item, p.result, g, p', g'); }
  }

  lemma FollowingPosts(c: Config, i: nat, g: Shared, p': Pc, g': Shared)
    requires Sized(c, g) && i < |g.items| && Follow(c, i, g, p', g')
    ensures Posted(c, Following(i), g, p', g')
  {}

  lemma RecordPosts(c: Config, i: nat, r: Result, g: Shared, p': Pc, g': Shared)
    requires Sized(c, g) && i < |g.items| && FollowRecord(i, r, g, p', g')
    ensures Posted(c, FollowEvent(i, r), g, p', g')
  {}

  lemma LoadPosts(c: Config, p: Pc, g: Shared, p': Pc, g': Shared)
    requires Sized(c, g) && (p.HasItem() ==> p.item < |g.items|) && Pay(c, p, g, p', g') && (p.Loading? || p.HitFound?)
    ensures Posted(c, p, g, p', g')
  {
    if p.HitFound? { hide Journal; JournalPost(Event(p.item, HitEvent), Fine(p.value, Hit), p.item, g, p', g'); }
  }

  lemma AdmitPosts(c: Config, p: Pc, g: Shared, p': Pc, g': Shared)
    requires Sized(c, g) && (p.HasItem() ==> p.item < |g.items|) && Pay(c, p, g, p', g') && (p.Admitting? || p.Refunding?)
    ensures Posted(c, p, g, p', g')
  {}

  lemma DoPosts(c: Config, p: Pc, g: Shared, p': Pc, g': Shared)
    requires Sized(c, g) && (p.HasItem() ==> p.item < |g.items|) && Labour(c, p, g, p', g') && p.Doing?
    ensures Posted(c, p, g, p', g')
  {
    hide Do, Posted;
    DoesPost(c, p.item, p.attempt, g, p', g');
  }

  lemma DoesPost(c: Config, i: nat, a: nat, g: Shared, p': Pc, g': Shared)
    requires Sized(c, g) && i < |g.items| && Do(c, i, a, g, p', g')
    ensures Posted(c, Doing(i, a), g, p', g')
  {
    hide WorkFailed, Posted;
    var h := g.(counts := g.counts.(workCalls := g.counts.workCalls + 1));
    if cls :| WorkFailed(c, i, a, cls, Put(h, i, h.items[i].(failure := Some(Failure(cls, g.cancelled, a)))), p', g') {
      FailedPosts(c, i, a, cls, g, Put(h, i, h.items[i].(failure := Some(Failure(cls, g.cancelled, a)))), p', g');
    } else { ReturnPosts(c, i, a, g, h, p', g'); }
  }

  lemma ReturnPosts(c: Config, i: nat, a: nat, g: Shared, h: Shared, p': Pc, g': Shared)
    requires h == g.(counts := g.counts.(workCalls := g.counts.workCalls + 1)) && |g.spent| == |g.others| && i < |g.items|
    requires || (p' == Publishing(i, Failed) && g' == Err(h))
             || (p'.Saving? && p'.item == i && g' == Put(h, i, h.items[i].(made := Some(p'.value))))
    ensures Posted(c, Doing(i, a), g, p', g')
  {}

  lemma FailedPosts(c: Config, i: nat, a: nat, cls: Class, g: Shared, h: Shared, p': Pc, g': Shared)
    requires WorkFailed(c, i, a, cls, h, p', g') && h == g.(counts := g.counts.(workCalls := g.counts.workCalls + 1), items := h.items)
    requires |g.spent| == |g.others|
    ensures Posted(c, Doing(i, a), g, p', g')
  {}

  lemma RetryPosts(c: Config, p: Pc, g: Shared, p': Pc, g': Shared)
    requires Sized(c, g) && (p.HasItem() ==> p.item < |g.items|) && Labour(c, p, g, p', g') && (p.Retrying? || p.Waiting?)
    ensures Posted(c, p, g, p', g')
  {}

  lemma SavePosts(c: Config, p: Pc, g: Shared, p': Pc, g': Shared)
    requires Sized(c, g) && (p.HasItem() ==> p.item < |g.items|) && Finish(c, p, g, p', g') && (p.Saving? || p.Publishing?)
    ensures Posted(c, p, g, p', g')
  {}

  lemma JournalPosts(c: Config, p: Pc, g: Shared, p': Pc, g': Shared)
    requires Sized(c, g) && (p.HasItem() ==> p.item < |g.items|) && Finish(c, p, g, p', g') && (p.Saved? || p.Flagging?)
    ensures Posted(c, p, g, p', g')
  {
    if p.Saved? {
      hide Journal;
      JournalPost(Event(p.item, FreshEvent(c)), Fine(p.value, FreshState(c)), p.item, g, p', g');
    }
  }

  /** Every move posts exactly its entry. */
  lemma MovePosts(c: Config, w: nat, p: Pc, g: Shared, p': Pc, g': Shared)
    requires Sized(c, g) && Move(c, w, p, g, p', g') && !p.Exited?
    ensures Posted(c, p, g, p', g')
  {
    hide Posted;
    if Arrive(c, w, p, g, p', g') {
      if p.Following? || p.FollowEvent? { FollowPosts(c, w, p, g, p', g'); } else { ArrivePosts(c, w, p, g, p', g'); }
    } else if Pay(c, p, g, p', g') {
      if p.Loading? || p.HitFound? { LoadPosts(c, p, g, p', g'); } else { AdmitPosts(c, p, g, p', g'); }
    } else if Labour(c, p, g, p', g') {
      if p.Doing? { DoPosts(c, p, g, p', g'); } else { RetryPosts(c, p, g, p', g'); }
    } else {
      if p.Saving? || p.Publishing? { SavePosts(c, p, g, p', g'); } else { JournalPosts(c, p, g, p', g'); }
    }
  }

  // ----- the meters balance ------------------------------------------------------------------

  /** Payments balance in every run, the other meters while no worker has failed. */
  predicate Money(m: Meter) { m.Held? || m.InCall? || m.Open? }

  /** What the balance needs to know of the worker. */
  ghost predicate Sane(c: Config, p: Pc) {
    && (p.Admitting? || p.Refunding? ==> 1 <= p.attempt && p.held <= c.R())
    && (p.Doing? || p.Retrying? || p.Waiting? ==> 1 <= p.attempt)
    && (p.Lookup? || p.Following? || p.FollowEvent? || p.Loading? || p.HitFound? ==> c.cached)
    && (p.FollowEvent? && p.result.Fine? ==> !p.result.state.NoState?)
    && (p.Flagging? ==> !p.result.Fine?)
  }

  lemma MoneyBalances(c: Config, m: Meter, p: Pc, g: Shared, p': Pc, g': Shared)
    requires Sized(c, g) && Sized(c, g') && Sane(c, p) && Sane(c, p') && Posted(c, p, g, p', g')
    requires Money(m) && Metered(c, m, g')
    ensures Side(m, g') - Side(m, g) == Weight(c, m, p') - Weight(c, m, p)
  {}

  lemma EventsBalance(c: Config, m: Meter, p: Pc, g: Shared, p': Pc, g': Shared)
    requires Sized(c, g) && Sized(c, g') && Sane(c, p) && Sane(c, p') && Posted(c, p, g, p', g')
    requires (m.HitOwed? || m.QuarantineOwed? || m.SkipOwed? || m.RetryOwed?) && Metered(c, m, g')
    ensures Side(m, g') - Side(m, g) == Weight(c, m, p') - Weight(c, m, p)
  {
    hide Posted, Side, Weight, Sane;
    if m.HitOwed? || m.RetryOwed? { HitsBalance(c, m, p, g, p', g'); } else { FlagsBalance(c, m, p, g, p', g'); }
  }

  lemma HitsBalance(c: Config, m: Meter, p: Pc, g: Shared, p': Pc, g': Shared)
    requires Sized(c, g) && Sized(c, g') && Sane(c, p) && Sane(c, p') && Posted(c, p, g, p', g')
    requires (m.HitOwed? || m.RetryOwed?) && Metered(c, m, g')
    ensures Side(m, g') - Side(m, g) == Weight(c, m, p') - Weight(c, m, p)
  {
    hide Count;
    if Post(c, p, p').event.Kind? { CountNotedAll(g, Event(p.item, Post(c, p, p').event.kind)); }
  }

  lemma FlagsBalance(c: Config, m: Meter, p: Pc, g: Shared, p': Pc, g': Shared)
    requires Sized(c, g) && Sized(c, g') && Sane(c, p) && Sane(c, p') && Posted(c, p, g, p', g')
    requires (m.QuarantineOwed? || m.SkipOwed?) && Metered(c, m, g')
    ensures Side(m, g') - Side(m, g) == Weight(c, m, p') - Weight(c, m, p)
  {
    hide Count;
    if Post(c, p, p').event.Kind? { CountNotedAll(g, Event(p.item, Post(c, p, p').event.kind)); }
  }

  lemma MissesBalance(c: Config, m: Meter, p: Pc, g: Shared, p': Pc, g': Shared)
    requires Sized(c, g) && Sized(c, g') && Sane(c, p) && Sane(c, p') && Posted(c, p, g, p', g')
    requires (m.MissOwed? || m.DoneOwed?) && Metered(c, m, g')
    ensures Side(m, g') - Side(m, g) == Weight(c, m, p') - Weight(c, m, p)
  {
    hide Count;
    if Post(c, p, p').event.Kind? { CountNotedAll(g, Event(p.item, Post(c, p, p').event.kind)); }
  }

  lemma WorkBalances(c: Config, m: Meter, p: Pc, g: Shared, p': Pc, g': Shared)
    requires Sized(c, g) && Sized(c, g') && Sane(c, p) && Sane(c, p') && Posted(c, p, g, p', g')
    requires (m.Uncounted? || m.Working?) && Metered(c, m, g')
    ensures Side(m, g') - Side(m, g) == Weight(c, m, p') - Weight(c, m, p)
  {
    hide Count;
  }

  // ----- the books of a whole state --------------------------------------------------------------

  /** Sums over the items. */
  datatype Tally = WorkCalls | Taken | Emitted(fate: Fate)

  function Tick(t: Tally, it: Item): int {
    match t
    case WorkCalls => it.does
    case Taken => Is(!it.place.Todo?)
    case Emitted(fate) => Is(it.place.Out? && Meets(fate, it.place.result))
  }

  function Sum(t: Tally, items: seq<Item>): int {
    if items == [] then 0 else Tick(t, items[0]) + Sum(t, items[1..])
  }

  lemma {:induction false} SumUpdate(t: Tally, items: seq<Item>, i: nat, it: Item)
    requires i < |items|
    ensures Sum(t, items[i := it]) == Sum(t, items) - Tick(t, items[i]) + Tick(t, it)
  {
    if i == 0 { assert items[0 := it][1..] == items[1..]; }
    else {
      SumUpdate(t, items[1..], i - 1, it);
      assert items[i := it][1..] == items[1..][i - 1 := it];
    }
  }
}
