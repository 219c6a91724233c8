/**
 The per-item engine of one step: W workers share an in-flight table, a durable store,
 resource budgets, counters and an event journal.  Each worker is a program counter; each
 transition is one atomic action of the original (a mutex section, a store call, one budget
 reservation, one journal write).  What the environment decides (the value or error a work
 call returns, a store or journal failure, cancellation, other users of the same budgets)
 is left nondeterministic.
 */
module Engine {
  import opened Common

  type Key = string    // a key digest
  type Value = string  // an encoded result

  datatype Class = Transient | DataError | Fatal | Unknown
  datatype Mode = FailFast | Quarantine | Skip
  datatype CacheState = NoState | Hit | Stored

  /** What one item resolves to. */
  datatype Result =
    | Fine(value: Value, state: CacheState)
    | Quarantined(index: nat, cls: Class, attempts: nat)
    | Skipped

  datatype EventType = HitEvent | StoredEvent | DoneEvent | RetryEvent | QuarantinedEvent | SkippedEvent
  datatype Event = Event(index: nat, kind: EventType)

  /** One key's shared execution; `owner` and `leader` only name the worker and item that created it. */
  datatype Call = Call(owner: nat, leader: nat, outcome: CallOutcome)
  datatype CallOutcome = Running | Failed | Resolved(result: Result)

  datatype Counts = Counts(items: nat, hits: nat, misses: nat, stored: nat, workCalls: nat,
                           sequences: nat, retries: nat, quarantined: nat, skipped: nat)

  /** The fixed part of a stage: `keys[i]` is None when the key of item i cannot be built. */
  datatype Config = Config(workers: nat, cached: bool, keys: seq<KeyResult>, attempts: nat, mode: Mode,
                           limits: seq<nat>, store0: map<Key, Value>)
  {
    ghost predicate Valid() { workers >= 1 && attempts >= 1 }
    function N(): nat { |keys| }
    function R(): nat { |limits| }
    predicate HasKey(i: nat) { i < |keys| && keys[i].Built? }
    function KeyOf(i: nat): Key requires HasKey(i) { keys[i].key }
  }
  datatype KeyResult = Built(key: Key) | KeyError

  datatype Pc =
    | Idle
    | Lookup(item: nat)                         // counted, about to enter the in-flight section
    | Following(item: nat)                      // waiting for the leader's done channel
    | FollowEvent(item: nat, result: Result)    // counted the leader's outcome, about to journal its copy
    | Loading(item: nat)                        // leader, about to read the store
    | HitFound(item: nat, value: Value)         // leader, hit counted, about to journal it
    | Admitting(item: nat, attempt: nat, held: nat)  // `held` resources reserved so far
    | Refunding(item: nat, attempt: nat, held: nat)  // refused, rolling back in reverse
    | Doing(item: nat, attempt: nat)            // the work call is in progress
    | Retrying(item: nat, attempt: nat)         // retry counted, about to journal it
    | Waiting(item: nat, attempt: nat)          // backing off before the next attempt
    | Saving(item: nat, value: Value)           // work succeeded, about to commit it
    | Saved(item: nat, value: Value)            // committed, about to journal it
    | Flagging(item: nat, result: Result)       // failure resolved as data, about to journal it
    | Publishing(item: nat, outcome: CallOutcome)    // about to fill the call and close done
    | Emitting(item: nat, result: Result)       // about to send downstream
    | Exited(ok: bool)
  {
    predicate HasItem() { !Idle? && !Exited? }
    /** The worker is between creating its call and closing it. */
    predicate Leads() {
      Loading? || HitFound? || Admitting? || Refunding? || Doing? || Retrying? || Waiting? ||
      Saving? || Saved? || Flagging? || Publishing?
    }
  }

  datatype Place = Todo | With(worker: nat) | Out(result: Result) | Lost
  /** An error that a work call returned: its class, whether the context was done by then, and the attempt. */
  datatype Failure = Failure(cls: Class, done: bool, attempt: nat)

  /** Where an item is, and what has been done for it: its work calls, its loads, the value its work
      returned, and the last error that it returned. */
  datatype Item = Item(place: Place, does: nat, loads: nat, made: Option<Value>, failure: Option<Failure>)

  /** Everything the workers share.  `others` is what other users of the budgets hold; `errored`,
      `started` and `abandoned` are history: some worker failed, work calls started, retries
      counted whose work call never returned. */
  datatype Shared = Shared(
    items: seq<Item>, inflight: map<Key, Call>, store: map<Key, Value>,
    spent: seq<nat>, others: seq<nat>, counts: Counts, journal: seq<Event>, cancelled: bool,
    errored: bool, started: nat, abandoned: nat)

  datatype State = State(pcs: seq<Pc>, g: Shared)

  // ----- small updates ---------------------------------------------------------------------

  predicate At(g: Shared, i: nat, p: Place) { i < |g.items| && g.items[i].place == p }

  function Put(g: Shared, i: nat, it: Item): Shared
    requires i < |g.items|
  { g.(items := g.items[i := it]) }

  function Noted(g: Shared, e: Event): Shared { g.(journal := g.journal + [e]) }

  function Err(g: Shared): Shared { g.(errored := true) }

  function Abandon(g: Shared, counted: bool): Shared {
    g.(errored := true, abandoned := g.abandoned + if counted then 1 else 0)
  }

  /** The item is gone with its worker's error; the error group cancels everyone. */
  function Lose(g: Shared, i: nat): Shared
    requires i < |g.items|
  { Put(g, i, g.items[i].(place := Lost)).(errored := true, cancelled := true) }

  /** A copied outcome carries the follower's own index. */
  function Copy(i: nat, r: Result): Result {
    match r
    case Quarantined(_, cls, attempts) => Quarantined(i, cls, attempts)
    case _ => r
  }

  function CountCopied(n: Counts, r: Result): Counts {
    match r
    case Quarantined(_, _, _) => n.(misses := n.misses + 1, quarantined := n.quarantined + 1)
    case Skipped => n.(misses := n.misses + 1, skipped := n.skipped + 1)
    case Fine(_, Hit) => n.(hits := n.hits + 1)
    case Fine(_, _) => n.(misses := n.misses + 1)
  }

  function CopiedEvent(r: Result): EventType {
    match r
    case Quarantined(_, _, _) => QuarantinedEvent
    case Skipped => SkippedEvent
    case Fine(_, Hit) => HitEvent
    case Fine(_, _) => StoredEvent
  }

  function FlagEvent(r: Result): EventType { if r.Skipped? then SkippedEvent else QuarantinedEvent }
  function FreshState(c: Config): CacheState { if c.cached then Stored else NoState }
  function FreshEvent(c: Config): EventType { if c.cached then StoredEvent else DoneEvent }

  // ----- one action per program counter ------------------------------------------------------

  ghost predicate Take(c: Config, w: nat, g: Shared, p': Pc, g': Shared) {
    // an item arrives; cached items go to the in-flight section, others straight to work
    || (exists i: nat :: At(g, i, Todo) && Receive(c, w, i, g, p', g'))
    // the source is drained, or abandoned by its feeder after a cancellation
    || (((forall i: nat :: !At(g, i, Todo)) || g.cancelled) && p' == Exited(true) && g' == g)
  }

  ghost predicate Receive(c: Config, w: nat, i: nat, g: Shared, p': Pc, g': Shared)
    requires i < |g.items|
  {
    && p' == (if c.cached then Lookup(i) else Admitting(i, 1, 0))
    && g' == Put(g, i, g.items[i].(place := With(w))).(counts := g.counts.(items := g.counts.items + 1))
  }

  ghost predicate LookUp(c: Config, w: nat, i: nat, g: Shared, p': Pc, g': Shared)
    requires i < |g.items|
  {
    if !c.HasKey(i) then p' == Exited(false) && g' == Lose(g, i)
    else
      var k := c.KeyOf(i);
      if k in g.inflight then p' == Following(i) && g' == g
      else p' == Loading(i) && g' == g.(inflight := g.inflight[k := Call(w, i, Running)])
  }

  ghost predicate Follow(c: Config, i: nat, g: Shared, p': Pc, g': Shared)
    requires i < |g.items|
  {
    || (g.cancelled && p' == Exited(false) && g' == Lose(g, i))
    || (c.HasKey(i) && c.KeyOf(i) in g.inflight &&
        var o := g.inflight[c.KeyOf(i)].outcome;
        || (o.Failed? && p' == Exited(false) && g' == Lose(g, i))
        || (o.Resolved? && p' == FollowEvent(i, o.result) &&
            g' == g.(counts := CountCopied(g.counts, o.result))))
  }

  ghost predicate FollowRecord(i: nat, r: Result, g: Shared, p': Pc, g': Shared)
    requires i < |g.items|
  {
    var h := Noted(g, Event(i, CopiedEvent(r)));
    || (p' == Exited(false) && (g' == Lose(g, i) || g' == Lose(h, i)))  // journal failed, or result hook failed
    || (p' == Emitting(i, Copy(i, r)) && g' == h)
  }

  ghost predicate Load(c: Config, i: nat, g: Shared, p': Pc, g': Shared)
    requires i < |g.items|
  {
    c.HasKey(i) &&
    var k, n, it := c.KeyOf(i), g.counts, g.items[i].(loads := g.items[i].loads + 1);
    || (p' == Publishing(i, Failed) && g' == Put(g, i, it).(errored := true))   // load failed, or entry corrupt
    || (k in g.store && p' == HitFound(i, g.store[k]) &&
        g' == Put(g, i, it).(counts := n.(hits := n.hits + 1)))
    || (k !in g.store && p' == Admitting(i, 1, 0) &&
        g' == Put(g, i, it).(counts := n.(misses := n.misses + 1)))
  }

  /** Journal an event, then run the result hook; either may fail. */
  ghost predicate Journal(e: Event, next: Result, i: nat, g: Shared, p': Pc, g': Shared) {
    || (p' == Publishing(i, Failed) && (g' == Err(g) || g' == Err(Noted(g, e))))
    || (p' == Publishing(i, Resolved(next)) && g' == Noted(g, e))
  }

  /** A flagged item has no result hook. */
  ghost predicate FlagMove(i: nat, r: Result, g: Shared, p': Pc, g': Shared) {
    || (p' == Publishing(i, Failed) && g' == Err(g))
    || (p' == Publishing(i, Resolved(r)) && g' == Noted(g, Event(i, FlagEvent(r))))
  }

  ghost predicate Admit(c: Config, i: nat, a: nat, held: nat, g: Shared, p': Pc, g': Shared)
    requires i < |g.items|
  {
    if held < c.R() && held < |g.spent| then
      // one resource's limiter: it charges, or refuses because the budget is out, the
      // context is done, or a composed rate limiter failed
      || (g.spent[held] < c.limits[held] && p' == Admitting(i, a, held + 1)
          && g' == g.(spent := g.spent[held := g.spent[held] + 1]))
      || (p' == Refunding(i, a, held) && g' == Err(g))
    else
      // every resource is reserved: commit, and start the work call
      && p' == Doing(i, a)
      && g' == Put(g, i, g.items[i].(does := g.items[i].does + 1))
               .(counts := if a == 1 then g.counts.(sequences := g.counts.sequences + 1) else g.counts,
                 started := g.started + 1)
  }

  ghost predicate Refund(i: nat, a: nat, held: nat, g: Shared, p': Pc, g': Shared) {
    if held > 0 then
      && held <= |g.spent| && g.spent[held - 1] > 0
      && p' == Refunding(i, a, held - 1) && g' == Err(g).(spent := g.spent[held - 1 := g.spent[held - 1] - 1])
    else p' == Publishing(i, Failed) && g' == Abandon(g, a > 1)
  }

  ghost predicate Do(c: Config, i: nat, a: nat, g: Shared, p': Pc, g': Shared)
    requires i < |g.items|
  {
    var h := g.(counts := g.counts.(workCalls := g.counts.workCalls + 1));
    || (p' == Publishing(i, Failed) && g' == Err(h))                   // a meter failed
    || (p'.Saving? && p'.item == i && g' == Put(h, i, h.items[i].(made := Some(p'.value))))
    || (exists cls :: WorkFailed(c, i, a, cls, Put(h, i, h.items[i].(failure := Some(Failure(cls, g.cancelled, a)))), p', g'))
  }

  ghost predicate WorkFailed(c: Config, i: nat, a: nat, cls: Class, h: Shared, p': Pc, g': Shared) {
    var n := h.counts;
    if h.cancelled || cls == Unknown then p' == Publishing(i, Failed) && g' == Err(h)
    else if cls == Transient && a < c.attempts then
      p' == Retrying(i, a) && g' == h.(counts := n.(retries := n.retries + 1))
    else if cls == Fatal || c.mode == FailFast then p' == Publishing(i, Failed) && g' == Err(h)
    else if c.mode == Skip then p' == Flagging(i, Skipped) && g' == h.(counts := n.(skipped := n.skipped + 1))
    else p' == Flagging(i, Quarantined(i, cls, a)) && g' == h.(counts := n.(quarantined := n.quarantined + 1))
  }

  ghost predicate Retry(i: nat, a: nat, g: Shared, p': Pc, g': Shared) {
    || (p' == Publishing(i, Failed) && g' == Abandon(g, true))
    || (p' == Waiting(i, a) && g' == Noted(g, Event(i, RetryEvent)))
  }

  ghost predicate Wait(i: nat, a: nat, g: Shared, p': Pc, g': Shared) {
    || (g.cancelled && p' == Publishing(i, Failed) && g' == Abandon(g, true))
    || (p' == Admitting(i, a + 1, 0) && g' == g)
  }

  ghost predicate Save(c: Config, i: nat, v: Value, g: Shared, p': Pc, g': Shared) {
    if !c.cached then p' == Saved(i, v) && g' == g
    else
      c.HasKey(i) &&
      var put := g.(store := g.store[c.KeyOf(i) := v]);
      || (p' == Publishing(i, Failed) && (g' == Err(g) || g' == Err(put)))  // a failing store may have published
      || (p' == Saved(i, v) && g' == put.(counts := g.counts.(stored := g.counts.stored + 1)))
  }

  /** The leader fills its call and closes it; then it emits, or leaves with its error. */
  ghost predicate Publish(c: Config, i: nat, o: CallOutcome, g: Shared, p': Pc, g': Shared)
    requires i < |g.items|
  {
    && (c.cached ==> c.HasKey(i) && c.KeyOf(i) in g.inflight)
    && var h := if c.cached then
                  g.(inflight := g.inflight[c.KeyOf(i) := g.inflight[c.KeyOf(i)].(outcome := o)])
                else g;
       if o.Resolved? then p' == Emitting(i, o.result) && g' == h else p' == Exited(false) && g' == Lose(h, i)
  }

  ghost predicate Emit(i: nat, r: Result, g: Shared, p': Pc, g': Shared)
    requires i < |g.items|
  {
    || (g.cancelled && p' == Exited(false) && g' == Lose(g, i))
    || (p' == Idle && g' == Put(g, i, g.items[i].(place := Out(r))))
  }

  /** Taking an item, joining or opening its call, and handing the result on. */
  ghost predicate Arrive(c: Config, w: nat, p: Pc, g: Shared, p': Pc, g': Shared)
    requires p.HasItem() ==> p.item < |g.items|
  {
    match p
    case Idle => Take(c, w, g, p', g')
    case Lookup(i) => LookUp(c, w, i, g, p', g')
    case Following(i) => Follow(c, i, g, p', g')
    case FollowEvent(i, r) => FollowRecord(i, r, g, p', g')
    case Emitting(i, r) => Emit(i, r, g, p', g')
    case _ => false
  }

  /** The leader reads the store, and pays for admission. */
  ghost predicate Pay(c: Config, p: Pc, g: Shared, p': Pc, g': Shared)
    requires p.HasItem() ==> p.item < |g.items|
  {
    match p
    case Loading(i) => Load(c, i, g, p', g')
    case HitFound(i, v) => Journal(Event(i, HitEvent), Fine(v, Hit), i, g, p', g')
    case Admitting(i, a, held) => Admit(c, i, a, held, g, p', g')
    case Refunding(i, a, held) => Refund(i, a, held, g, p', g')
    case _ => false
  }

  /** The work call and its retries. */
  ghost predicate Labour(c: Config, p: Pc, g: Shared, p': Pc, g': Shared)
    requires p.HasItem() ==> p.item < |g.items|
  {
    match p
    case Doing(i, a) => Do(c, i, a, g, p', g')
    case Retrying(i, a) => Retry(i, a, g, p', g')
    case Waiting(i, a) => Wait(i, a, g, p', g')
    case _ => false
  }

  /** Committing and publishing the outcome. */
  ghost predicate Finish(c: Config, p: Pc, g: Shared, p': Pc, g': Shared)
    requires p.HasItem() ==> p.item < |g.items|
  {
    match p
    case Saving(i, v) => Save(c, i, v, g, p', g')
    case Saved(i, v) => Journal(Event(i, FreshEvent(c)), Fine(v, FreshState(c)), i, g, p', g')
    case Flagging(i, r) => FlagMove(i, r, g, p', g')
    case Publishing(i, o) => Publish(c, i, o, g, p', g')
    case _ => false
  }

  /** Worker w at p, with shared state g, moves to p' and g'. */
  ghost predicate Move(c: Config, w: nat, p: Pc, g: Shared, p': Pc, g': Shared) {
    && (p.HasItem() ==> p.item < |g.items|)
    && (|| Arrive(c, w, p, g, p', g') || Pay(c, p, g, p', g')
        || Labour(c, p, g, p', g') || Finish(c, p, g, p', g'))
  }

  // ----- runs -------------------------------------------------------------------------------

  ghost predicate Init(c: Config, s: State) {
    && c.Valid()
    && s.pcs == seq(c.workers, _ => Idle)
    && |s.g.others| == c.R()
    && (forall r :: 0 <= r < c.R() ==> s.g.others[r] <= c.limits[r])
    && s.g == Shared(seq(c.N(), _ => Item(Todo, 0, 0, None, None)), map[], c.store0, s.g.others, s.g.others,
                     Counts(0, 0, 0, 0, 0, 0, 0, 0, 0), [], false, false, 0, 0)
  }

  ghost predicate WorkerStep(c: Config, w: nat, s: State, s': State) {
    && w < |s.pcs|
    && |s'.pcs| == |s.pcs|
    && s'.pcs == s.pcs[w := s'.pcs[w]]
    && Move(c, w, s.pcs[w], s.g, s'.pcs[w], s'.g)
  }

  /** Cancellation from outside, or another user of the same budgets charging or refunding. */
  ghost predicate EnvStep(c: Config, s: State, s': State) {
    && s'.pcs == s.pcs
    && (|| s'.g == s.g.(cancelled := true)
        || exists r: nat, x: nat :: Trade(c, r, x, s.g, s'.g))
  }

  ghost predicate Trade(c: Config, r: nat, x: nat, g: Shared, g': Shared) {
    && r < c.R() && r < |g.spent| && r < |g.others|
    && g.spent[r] - g.others[r] + x <= c.limits[r] && g.others[r] <= g.spent[r]
    && g' == g.(spent := g.spent[r := g.spent[r] - g.others[r] + x], others := g.others[r := x])
  }

  ghost predicate Next(c: Config, s: State, s': State) {
    EnvStep(c, s, s') || exists w :: WorkerStep(c, w, s, s')
  }

  /** A finite run: every prefix of every execution, under every schedule. */
  ghost predicate Run(c: Config, tr: seq<State>) {
    && |tr| > 0 && Init(c, tr[0])
    && forall t :: 0 <= t < |tr| - 1 ==> Next(c, tr[t], tr[t + 1])
  }

  ghost predicate Drained(s: State) {
    forall w :: 0 <= w < |s.pcs| ==> s.pcs[w].Exited?
  }

  /** Every worker returned nil and nobody cancelled: the stage ended without an error. */
  ghost predicate Succeeded(s: State) {
    && !s.g.cancelled
    && forall w :: 0 <= w < |s.pcs| ==> s.pcs[w] == Exited(true)
  }
}
