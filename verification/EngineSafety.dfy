/**
 Safety of every run of the engine: one leader per key, one load and a bounded number of work
 calls per key, and every item resolved to its leader's outcome.

 The proof is by rely and guarantee: `Cell` is what a worker knows, `Guarantee` what one worker's
 move may do to the shared state, and `CellStable` shows that no guarantee breaks another's cell.
 */
module EngineSafety {
  import opened Common
  import opened Engine

  predicate Has(m: map<Key, Value>, k: Key, v: Value) { k in m && m[k] == v }

  predicate Made(g: Shared, i: nat, v: Value) { i < |g.items| && g.items[i].made == Some(v) }

  predicate LedBy(c: Config, g: Shared, i: nat) {
    c.HasKey(i) && c.KeyOf(i) in g.inflight && g.inflight[c.KeyOf(i)].leader == i
  }

  predicate KeyIn(c: Config, i: nat, m: map<Key, Value>) { c.HasKey(i) && c.KeyOf(i) in m }

  /** What a published result must be for the item that led it. */
  ghost predicate Truth(c: Config, g: Shared, i: nat, r: Result) {
    match r
    case Fine(v, Hit) => c.cached && c.HasKey(i) && Has(c.store0, c.KeyOf(i), v) && Has(g.store, c.KeyOf(i), v)
    case Fine(v, Stored) => c.cached && c.HasKey(i) && !KeyIn(c, i, c.store0) && Has(g.store, c.KeyOf(i), v) && Made(g, i, v)
    case Fine(v, NoState) => !c.cached && Made(g, i, v)
    case Quarantined(index, _, _) => index == i
    case Skipped => true
  }

  /** What an emitted result must be: the truth itself, or a copy of its leader's. */
  ghost predicate Settled(c: Config, g: Shared, i: nat, r: Result) {
    if c.cached then
      && c.HasKey(i) && c.KeyOf(i) in g.inflight
      && var o := g.inflight[c.KeyOf(i)].outcome; o.Resolved? && r == Copy(i, o.result)
    else Truth(c, g, i, r)
  }

  ghost predicate Sized(c: Config, g: Shared) {
    |g.spent| == |g.others| == c.R() && |g.items| == c.N()
  }

  /** Worker w holds its item alone; a leader's call is its own and still open. */
  ghost predicate Holding(c: Config, g: Shared, w: nat, p: Pc) {
    p.HasItem() ==>
      var i := p.item;
      && At(g, i, With(w))
      && (c.cached && !p.Lookup? ==> c.HasKey(i))
      && (c.cached && p.Leads() ==> c.KeyOf(i) in g.inflight && g.inflight[c.KeyOf(i)] == Call(w, i, Running))
      && (p.Following? || p.FollowEvent? ==> c.cached && c.KeyOf(i) in g.inflight)
      && (p.Lookup? || p.Following? || p.FollowEvent? ==> Untouched(c, g, i))
      && (p.Lookup? || p.Loading? || p.HitFound? ==> c.cached)
  }

  predicate Untouched(c: Config, g: Shared, i: nat) {
    i < |g.items| && !LedBy(c, g, i) && g.items[i].does == g.items[i].loads == 0 && g.items[i].made.None? && g.items[i].failure.None?
  }

  /** No value exists for the item yet, and its key is not in the store. */
  ghost predicate Unmade(c: Config, g: Shared, i: nat) { i < |g.items| && g.items[i].made.None? && Fresh(c, g, i) }
  ghost predicate Fresh(c: Config, g: Shared, i: nat) { c.cached ==> !KeyIn(c, i, g.store) }

  ghost predicate Knows(c: Config, g: Shared, p: Pc)
    requires p.HasItem() ==> p.item < |g.items|
  {
    match p
    case FollowEvent(i, r) => c.HasKey(i) && c.KeyOf(i) in g.inflight && g.inflight[c.KeyOf(i)].outcome == Resolved(r)
    case Loading(i) => c.HasKey(i) && g.items[i].does == 0 && g.items[i].loads == 0 && g.items[i].made.None? && AsBefore(c, g, c.KeyOf(i))
    case HitFound(i, v) => c.cached && g.items[i].does == 0 && Truth(c, g, i, Fine(v, Hit))
    case Admitting(i, a, h) => 1 <= a <= c.attempts && h <= c.R() && g.items[i].does == a - 1 && Unmade(c, g, i)
    case Refunding(i, a, h) => 1 <= a <= c.attempts && h <= c.R() && g.items[i].does == a - 1
    case Doing(i, a) => 1 <= a <= c.attempts && g.items[i].does == a && Unmade(c, g, i)
    case Retrying(i, a) => 1 <= a < c.attempts && g.items[i].does == a && Unmade(c, g, i)
    case Waiting(i, a) => 1 <= a < c.attempts && g.items[i].does == a && Unmade(c, g, i)
    case Saving(i, v) => Fresh(c, g, i) && Made(g, i, v)
    case Saved(i, v) => Truth(c, g, i, Fine(v, FreshState(c)))
    case Flagging(i, r) => !r.Fine? && Truth(c, g, i, r)
    case Publishing(i, o) => !o.Running? && (o.Resolved? ==> Truth(c, g, i, o.result))
    case Emitting(i, r) => Settled(c, g, i, r)
    case _ => true
  }

  /** What the store holds under k it held before the run. */
  predicate AsBefore(c: Config, g: Shared, k: Key) { k in g.store ==> Has(c.store0, k, g.store[k]) }

  /** The store only gains entries under keys that were led. */
  ghost predicate StoreGrown(c: Config, g: Shared) {
    && (forall k :: k in c.store0 ==> Has(g.store, k, c.store0[k]))
    && (forall k :: k in g.store && k !in g.inflight ==> AsBefore(c, g, k))
  }

  ghost predicate Cell(c: Config, g: Shared, w: nat, p: Pc) {
    Holding(c, g, w, p) && Knows(c, g, p)
  }

  /** What one move of worker v may do to the state it shares with the others. */
  ghost predicate Guarantee(v: nat, g: Shared, g': Shared) {
    && |g'.items| == |g.items|
    && (forall i: nat :: i < |g.items| ==> OwnItem(v, g.items[i], g'.items[i]))
    && (forall k :: k in g.inflight ==> k in g'.inflight && OwnCall(v, g.inflight[k], g'.inflight[k]))
    && (forall k :: k in g'.inflight && k !in g.inflight ==> NewCall(v, g, g'.inflight[k]))
    && (forall k :: k in g.store ==> Has(g'.store, k, g.store[k]))
    && (forall k :: k in g'.store && k !in g.store ==>
          k in g.inflight && g.inflight[k].owner == v && g.inflight[k].outcome.Running?)
  }

  predicate OwnItem(v: nat, a: Item, b: Item) {
    || a == b
    || (a.place == With(v) && !b.place.Todo? && (a.made.Some? ==> b.made == a.made))
    || (a.place == Todo && b.place == With(v) && b.does == a.does && b.loads == a.loads && b.made == a.made && b.failure == a.failure)
  }
  predicate OwnCall(v: nat, a: Call, b: Call) {
    b == a || (a.owner == v && a.outcome.Running? && b == a.(outcome := b.outcome))
  }
  predicate NewCall(v: nat, g: Shared, b: Call) {
    b.owner == v && b.outcome.Running? && At(g, b.leader, With(v))
  }

  /** No other worker's move changes what w knows. */
  lemma CellStable(c: Config, g: Shared, g': Shared, v: nat, w: nat, p: Pc)
    requires v != w && Guarantee(v, g, g') && Cell(c, g, w, p)
    ensures Cell(c, g', w, p)
  {
    if p.HasItem() {
      assert OwnItem(v, g.items[p.item], g'.items[p.item]);
    }
  }

  /** Bounds on the history of each item; only a key's leader ever loads or works. */
  ghost predicate History(c: Config, g: Shared) {
    && (forall i: nat :: At(g, i, Todo) ==> Untouched(c, g, i))
    && (forall i: nat :: i < |g.items| ==> Bounded(c, g, i))
  }

  predicate Bounded(c: Config, g: Shared, i: nat)
    requires i < |g.items|
  {
    && g.items[i].does <= c.attempts && g.items[i].loads <= 1
    && (c.cached && (g.items[i].does > 0 || g.items[i].loads > 0) ==> LedBy(c, g, i))
  }

  /** Cells, calls and places do not see budgets, counters, journal or flags. */
  ghost predicate SameView(g: Shared, g': Shared) {
    g'.items == g.items && g'.inflight == g.inflight && g'.store == g.store
  }

  ghost predicate Calm(g: Shared, g': Shared) {
    g'.cancelled == g.cancelled && g'.spent == g.spent && g'.others == g.others
  }

  /** A move that only touches the worker's own item. */
  lemma ItemGuarantee(w: nat, i: nat, g: Shared, g': Shared)
    requires At(g, i, With(w)) && |g'.items| == |g.items| && g'.items == g.items[i := g'.items[i]]
    requires g'.inflight == g.inflight && g'.store == g.store
    requires !g'.items[i].place.Todo? && (g.items[i].made.Some? ==> g'.items[i].made == g.items[i].made)
    ensures Guarantee(w, g, g')
  {}

  function Of(p: Pc): int { if p.HasItem() then p.item else -1 }

  /** How the call table and the worker's item follow its program counter. */
  ghost predicate Track(c: Config, w: nat, p: Pc, g: Shared, p': Pc, g': Shared) {
    && (p.HasItem() && p'.HasItem() ==> p'.item == p.item)
    && (g.cancelled || p' == Exited(false) ==> g'.cancelled)
    && (p.Leads() && !p.Publishing? ==> p'.Leads())
    && (if p.Lookup? && p'.Loading? then Opens(c, w, p.item, g, g')
        else if p.Publishing? && c.cached then Closes(c, w, p.item, p.outcome, g, g')
        else g'.inflight == g.inflight)
    && (g'.store == g.store || Puts(c, p, g, g'))
    && |g'.items| == |g.items| && |g'.spent| == |g.spent| && |g'.others| == |g.others|
    && (forall i: nat :: i < |g.items| && i != Of(p) && i != Of(p') ==> g'.items[i] == g.items[i])
    && (forall i: nat :: i < |g.items| && i != Of(p) ==> g'.items[i].does == g.items[i].does && g'.items[i].loads == g.items[i].loads && g'.items[i].failure == g.items[i].failure)
    && (p.HasItem() && p.item < |g.items| ==>
          var a, b := g.items[p.item], g'.items[p.item];
          && b.loads == a.loads + (if p.Loading? then 1 else 0)
          && b.does == a.does + (if p.Admitting? && p'.Doing? then 1 else 0)
          && (p.Doing? || b.failure == a.failure)
          && (!p'.HasItem() ==> if p'.Idle? then p.Emitting? && b.place == Out(p.result) else b.place.Lost? && g'.cancelled))
  }

  predicate Puts(c: Config, p: Pc, g: Shared, g': Shared) {
    p.Saving? && c.cached && c.HasKey(p.item) && c.KeyOf(p.item) !in g.store && g'.store == g.store[c.KeyOf(p.item) := p.value]
  }
  predicate Opens(c: Config, w: nat, i: nat, g: Shared, g': Shared) {
    c.HasKey(i) && c.KeyOf(i) !in g.inflight && g'.inflight == g.inflight[c.KeyOf(i) := Call(w, i, Running)]
  }
  predicate Closes(c: Config, w: nat, i: nat, o: CallOutcome, g: Shared, g': Shared) {
    c.HasKey(i) && g'.inflight == g.inflight[c.KeyOf(i) := Call(w, i, o)]
  }

  lemma ArrivalGuarantee(w: nat, i: nat, g: Shared, g': Shared)
    requires At(g, i, Todo) && At(g', i, With(w)) && |g'.items| == |g.items| && g'.items == g.items[i := g'.items[i]]
    requires g'.inflight == g.inflight && g'.store == g.store && g'.items[i] == g.items[i].(place := With(w))
    ensures Guarantee(w, g, g')
  {}

  lemma OpenGuarantee(c: Config, w: nat, i: nat, g: Shared, g': Shared)
    requires At(g, i, With(w)) && Opens(c, w, i, g, g') && g'.items == g.items && g'.store == g.store
    ensures Guarantee(w, g, g')
  {}

  lemma CloseGuarantee(c: Config, w: nat, i: nat, o: CallOutcome, g: Shared, g': Shared)
    requires At(g, i, With(w)) && |g'.items| == |g.items| && g'.items == g.items[i := g'.items[i]]
    requires !g'.items[i].place.Todo? && g'.items[i].made == g.items[i].made
    requires c.HasKey(i) && c.KeyOf(i) in g.inflight && g.inflight[c.KeyOf(i)] == Call(w, i, Running)
    requires Closes(c, w, i, o, g, g') && g'.store == g.store
    ensures Guarantee(w, g, g')
  {}

  lemma SaveGuarantee(w: nat, k: Key, v: Value, g: Shared, g': Shared)
    requires k in g.inflight && g.inflight[k].owner == w && g.inflight[k].outcome.Running? && k !in g.store
    requires g'.items == g.items && g'.inflight == g.inflight && g'.store == g.store[k := v]
    ensures Guarantee(w, g, g')
  {}

  // one lemma per program counter: what the move may do, and what the worker knows after it

  lemma LoseLocal(c: Config, w: nat, p: Pc, i: nat, g: Shared, g': Shared)
    requires Cell(c, g, w, p) && p.HasItem() && p.item == i && !p.Leads()
    requires g' == Lose(g, i).(journal := g'.journal)
    ensures Guarantee(w, g, g') && Cell(c, g', w, Exited(false)) && Track(c, w, p, g, Exited(false), g')
  { ItemGuarantee(w, i, g, g'); }

  lemma FailLocal(c: Config, w: nat, p: Pc, i: nat, g: Shared, g': Shared)
    requires Cell(c, g, w, p) && p.HasItem() && p.item == i && p.Leads() && !p.Publishing? && !p.Loading?
    requires SameView(g, g') && Calm(g, g')
    ensures Guarantee(w, g, g') && Cell(c, g', w, Publishing(i, Failed)) && Track(c, w, p, g, Publishing(i, Failed), g')
  { ItemGuarantee(w, i, g, g'); }

  lemma ResolveLocal(c: Config, w: nat, p: Pc, i: nat, r: Result, g: Shared, g': Shared)
    requires Cell(c, g, w, p) && p.HasItem() && p.item == i && p.Leads() && !p.Publishing? && !p.Loading?
    requires Truth(c, g, i, r)
    requires SameView(g, g') && Calm(g, g')
    ensures Guarantee(w, g, g') && Cell(c, g', w, Publishing(i, Resolved(r))) && Track(c, w, p, g, Publishing(i, Resolved(r)), g')
  { ItemGuarantee(w, i, g, g'); }

  /** A call that returned no value changes nothing but the record of its error. */
  ghost predicate NoValue(i: nat, g: Shared, g': Shared)
    requires i < |g.items|
  {
    && |g'.items| == |g.items| && g'.items == g.items[i := g.items[i].(failure := g'.items[i].failure)]
    && g'.inflight == g.inflight && g'.store == g.store
  }

  lemma NoValueLocal(c: Config, w: nat, p: Pc, p': Pc, g: Shared, g': Shared)
    requires Cell(c, g, w, p) && p.Doing? && p.item < |g.items| && (p'.Retrying? || p'.Flagging? || p' == Publishing(p.item, Failed)) && p'.item == p.item
    requires p'.Retrying? ==> p'.attempt == p.attempt < c.attempts
    requires p'.Flagging? ==> p'.result.Skipped? || (p'.result.Quarantined? && p'.result.index == p.item)
    requires NoValue(p.item, g, g') && Calm(g, g')
    ensures Guarantee(w, g, g') && Cell(c, g', w, p') && Track(c, w, p, g, p', g')
  { ItemGuarantee(w, p.item, g, g'); }

  lemma TakeLocal(c: Config, w: nat, g: Shared, p': Pc, g': Shared)
    requires Take(c, w, g, p', g') && History(c, g) && c.attempts >= 1
    ensures Guarantee(w, g, g') && Cell(c, g', w, p') && Track(c, w, Idle, g, p', g')
  {
    if p' == Exited(true) && g' == g {
    } else {
      ArrivalGuarantee(w, p'.item, g, g');
    }
  }

  lemma LookUpLocal(c: Config, w: nat, i: nat, g: Shared, p': Pc, g': Shared)
    requires Cell(c, g, w, Lookup(i)) && LookUp(c, w, i, g, p', g') && StoreGrown(c, g)
    ensures Guarantee(w, g, g') && Cell(c, g', w, p') && Track(c, w, Lookup(i), g, p', g')
  {
    if !c.HasKey(i) || c.KeyOf(i) in g.inflight { ItemGuarantee(w, i, g, g'); } else { OpenGuarantee(c, w, i, g, g'); }
  }

  lemma LoadLocal(c: Config, w: nat, i: nat, g: Shared, p': Pc, g': Shared)
    requires Cell(c, g, w, Loading(i)) && Load(c, i, g, p', g') && c.attempts >= 1
    ensures Guarantee(w, g, g') && Cell(c, g', w, p') && Track(c, w, Loading(i), g, p', g')
  { ItemGuarantee(w, i, g, g'); }

  lemma FollowLocal(c: Config, w: nat, i: nat, g: Shared, p': Pc, g': Shared)
    requires Cell(c, g, w, Following(i)) && Follow(c, i, g, p', g')
    ensures Guarantee(w, g, g') && Cell(c, g', w, p') && Track(c, w, Following(i), g, p', g')
  {
    if p'.Exited? { LoseLocal(c, w, Following(i), i, g, g'); } else { ItemGuarantee(w, i, g, g'); }
  }

  lemma FollowRecordLocal(c: Config, w: nat, i: nat, r: Result, g: Shared, p': Pc, g': Shared)
    requires Cell(c, g, w, FollowEvent(i, r)) && FollowRecord(i, r, g, p', g')
    ensures Guarantee(w, g, g') && Cell(c, g', w, p') && Track(c, w, FollowEvent(i, r), g, p', g')
  {
    if p'.Exited? { LoseLocal(c, w, FollowEvent(i, r), i, g, g'); } else { ItemGuarantee(w, i, g, g'); }
  }

  lemma HitLocal(c: Config, w: nat, i: nat, v: Value, g: Shared, p': Pc, g': Shared)
    requires Cell(c, g, w, HitFound(i, v)) && Journal(Event(i, HitEvent), Fine(v, Hit), i, g, p', g')
    ensures Guarantee(w, g, g') && Cell(c, g', w, p') && Track(c, w, HitFound(i, v), g, p', g')
  {
    hide Guarantee, Truth, Track;
    if p'.outcome.Failed? { FailLocal(c, w, HitFound(i, v), i, g, g'); } else { ResolveLocal(c, w, HitFound(i, v), i, Fine(v, Hit), g, g'); }
  }

  lemma SavedTruth(c: Config, w: nat, i: nat, v: Value, g: Shared)
    requires Cell(c, g, w, Saved(i, v))
    ensures Truth(c, g, i, Fine(v, FreshState(c)))
  {}

  lemma SavedLocal(c: Config, w: nat, i: nat, v: Value, g: Shared, p': Pc, g': Shared)
    requires Cell(c, g, w, Saved(i, v)) && Journal(Event(i, FreshEvent(c)), Fine(v, FreshState(c)), i, g, p', g')
    ensures Guarantee(w, g, g') && Cell(c, g', w, p') && Track(c, w, Saved(i, v), g, p', g')
  {
    SavedTruth(c, w, i, v, g);
    hide Guarantee, Truth, Track, Cell;
    if p'.outcome.Failed? { FailLocal(c, w, Saved(i, v), i, g, g'); } else { ResolveLocal(c, w, Saved(i, v), i, Fine(v, FreshState(c)), g, g'); }
  }

  lemma FlagLocal(c: Config, w: nat, i: nat, r: Result, g: Shared, p': Pc, g': Shared)
    requires Cell(c, g, w, Flagging(i, r)) && FlagMove(i, r, g, p', g')
    ensures Guarantee(w, g, g') && Cell(c, g', w, p') && Track(c, w, Flagging(i, r), g, p', g')
  {
    hide Guarantee, Truth, Track;
    if p'.outcome.Failed? { FailLocal(c, w, Flagging(i, r), i, g, g'); } else { ResolveLocal(c, w, Flagging(i, r), i, r, g, g'); }
  }

  lemma AdmitLocal(c: Config, w: nat, i: nat, a: nat, h: nat, g: Shared, p': Pc, g': Shared)
    requires Cell(c, g, w, Admitting(i, a, h)) && Admit(c, i, a, h, g, p', g')
    ensures Guarantee(w, g, g') && Cell(c, g', w, p') && Track(c, w, Admitting(i, a, h), g, p', g')
  { ItemGuarantee(w, i, g, g'); }

  lemma RefundLocal(c: Config, w: nat, i: nat, a: nat, h: nat, g: Shared, p': Pc, g': Shared)
    requires Cell(c, g, w, Refunding(i, a, h)) && Refund(i, a, h, g, p', g')
    ensures Guarantee(w, g, g') && Cell(c, g', w, p') && Track(c, w, Refunding(i, a, h), g, p', g')
  { ItemGuarantee(w, i, g, g'); }

  /** The three ways out of a work call. */
  lemma DoCases(c: Config, i: nat, a: nat, g: Shared, p': Pc, g': Shared)
    requires i < |g.items| && Do(c, i, a, g, p', g')
    ensures Calm(g, g')
    ensures
      || (p' == Publishing(i, Failed) && NoValue(i, g, g'))
      || (p'.Saving? && p'.item == i && g'.items == g.items[i := g.items[i].(made := Some(p'.value))]
          && g'.inflight == g.inflight && g'.store == g.store)
      || (p' == Retrying(i, a) && a < c.attempts && NoValue(i, g, g'))
      || (p'.Flagging? && p'.item == i && NoValue(i, g, g') && (p'.result.Skipped? || (p'.result.Quarantined? && p'.result.index == i)))
  {}

  lemma DoLocal(c: Config, w: nat, i: nat, a: nat, g: Shared, p': Pc, g': Shared)
    requires Cell(c, g, w, Doing(i, a)) && Do(c, i, a, g, p', g')
    ensures Guarantee(w, g, g') && Cell(c, g', w, p') && Track(c, w, Doing(i, a), g, p', g')
  {
    hide Do, Guarantee, Track;
    DoCases(c, i, a, g, p', g');
    if p'.Saving? { SavingLocal(c, w, i, a, p'.value, g, g'); }
    else { NoValueLocal(c, w, Doing(i, a), p', g, g'); }
  }

  lemma SavingLocal(c: Config, w: nat, i: nat, a: nat, v: Value, g: Shared, g': Shared)
    requires Cell(c, g, w, Doing(i, a)) && Calm(g, g')
    requires g'.items == g.items[i := g.items[i].(made := Some(v))] && g'.inflight == g.inflight && g'.store == g.store
    ensures Guarantee(w, g, g') && Cell(c, g', w, Saving(i, v)) && Track(c, w, Doing(i, a), g, Saving(i, v), g')
  { ItemGuarantee(w, i, g, g'); }

  lemma RetryLocal(c: Config, w: nat, i: nat, a: nat, g: Shared, p': Pc, g': Shared)
    requires Cell(c, g, w, Retrying(i, a)) && Retry(i, a, g, p', g')
    ensures Guarantee(w, g, g') && Cell(c, g', w, p') && Track(c, w, Retrying(i, a), g, p', g')
  {
    if p'.Publishing? && p'.outcome.Failed? { FailLocal(c, w, Retrying(i, a), i, g, g'); } else { ItemGuarantee(w, i, g, g'); }
  }

  lemma WaitLocal(c: Config, w: nat, i: nat, a: nat, g: Shared, p': Pc, g': Shared)
    requires Cell(c, g, w, Waiting(i, a)) && Wait(i, a, g, p', g')
    ensures Guarantee(w, g, g') && Cell(c, g', w, p') && Track(c, w, Waiting(i, a), g, p', g')
  {
    if p'.Publishing? && p'.outcome.Failed? { FailLocal(c, w, Waiting(i, a), i, g, g'); } else { ItemGuarantee(w, i, g, g'); }
  }

  lemma SaveLocal(c: Config, w: nat, i: nat, v: Value, g: Shared, p': Pc, g': Shared)
    requires Cell(c, g, w, Saving(i, v)) && Save(c, i, v, g, p', g') && StoreGrown(c, g)
    ensures Guarantee(w, g, g') && Cell(c, g', w, p') && Track(c, w, Saving(i, v), g, p', g')
  {
    if g'.store == g.store { ItemGuarantee(w, i, g, g'); } else { SaveGuarantee(w, c.KeyOf(i), v, g, g'); }
  }

  lemma PublishLocal(c: Config, w: nat, i: nat, o: CallOutcome, g: Shared, p': Pc, g': Shared)
    requires Cell(c, g, w, Publishing(i, o)) && Publish(c, i, o, g, p', g')
    ensures Guarantee(w, g, g') && Cell(c, g', w, p') && Track(c, w, Publishing(i, o), g, p', g')
  {
    if c.cached { CloseGuarantee(c, w, i, o, g, g'); } else { ItemGuarantee(w, i, g, g'); }
  }

  lemma EmitLocal(c: Config, w: nat, i: nat, r: Result, g: Shared, p': Pc, g': Shared)
    requires Cell(c, g, w, Emitting(i, r)) && Emit(i, r, g, p', g')
    ensures Guarantee(w, g, g') && Cell(c, g', w, p') && Track(c, w, Emitting(i, r), g, p', g')
  {
    if p'.Exited? { LoseLocal(c, w, Emitting(i, r), i, g, g'); } else { ItemGuarantee(w, i, g, g'); }
  }

  ghost predicate Ready(c: Config, w: nat, p: Pc, g: Shared) {
    && Cell(c, g, w, p) && History(c, g) && StoreGrown(c, g) && c.attempts >= 1
    && (p.HasItem() ==> p.item < |g.items|)
  }

  lemma ArriveLocal(c: Config, w: nat, p: Pc, g: Shared, p': Pc, g': Shared)
    requires Ready(c, w, p, g) && Arrive(c, w, p, g, p', g')
    ensures Guarantee(w, g, g') && Cell(c, g', w, p') && Track(c, w, p, g, p', g')
  {
    hide Guarantee, Track, History, StoreGrown;
    match p
    case Idle => TakeLocal(c, w, g, p', g');
    case Lookup(i) => LookUpLocal(c, w, i, g, p', g');
    case Following(i) => FollowLocal(c, w, i, g, p', g');
    case FollowEvent(i, r) => FollowRecordLocal(c, w, i, r, g, p', g');
    case Emitting(i, r) => EmitLocal(c, w, i, r, g, p', g');
  }

  lemma PayLocal(c: Config, w: nat, p: Pc, g: Shared, p': Pc, g': Shared)
    requires Ready(c, w, p, g) && Pay(c, p, g, p', g')
    ensures Guarantee(w, g, g') && Cell(c, g', w, p') && Track(c, w, p, g, p', g')
  {
    hide Guarantee, Track, History, StoreGrown;
    match p
    case Loading(i) => LoadLocal(c, w, i, g, p', g');
    case HitFound(i, v) => HitLocal(c, w, i, v, g, p', g');
    case Admitting(i, a, h) => AdmitLocal(c, w, i, a, h, g, p', g');
    case Refunding(i, a, h) => RefundLocal(c, w, i, a, h, g, p', g');
  }

  lemma LabourLocal(c: Config, w: nat, p: Pc, g: Shared, p': Pc, g': Shared)
    requires Ready(c, w, p, g) && Labour(c, p, g, p', g')
    ensures Guarantee(w, g, g') && Cell(c, g', w, p') && Track(c, w, p, g, p', g')
  {
    hide Guarantee, Track, History, StoreGrown;
    match p
    case Doing(i, a) => DoLocal(c, w, i, a, g, p', g');
    case Retrying(i, a) => RetryLocal(c, w, i, a, g, p', g');
    case Waiting(i, a) => WaitLocal(c, w, i, a, g, p', g');
  }

  lemma FinishLocal(c: Config, w: nat, p: Pc, g: Shared, p': Pc, g': Shared)
    requires Ready(c, w, p, g) && Finish(c, p, g, p', g')
    ensures Guarantee(w, g, g') && Cell(c, g', w, p') && Track(c, w, p, g, p', g')
  {
    hide Guarantee, Track, History, StoreGrown;
    match p
    case Saving(i, v) => SaveLocal(c, w, i, v, g, p', g');
    case Saved(i, v) => SavedLocal(c, w, i, v, g, p', g');
    case Flagging(i, r) => FlagLocal(c, w, i, r, g, p', g');
    case Publishing(i, o) => PublishLocal(c, w, i, o, g, p', g');
  }

  /** Every move keeps the worker's own cell and stays within its guarantee. */
  lemma MoveLocal(c: Config, w: nat, p: Pc, g: Shared, p': Pc, g': Shared)
    requires Ready(c, w, p, g) && Move(c, w, p, g, p', g')
    ensures Guarantee(w, g, g') && Cell(c, g', w, p') && Track(c, w, p, g, p', g')
  {
    hide Arrive, Pay, Labour, Finish, Guarantee, Cell, Track, History, StoreGrown;
    if Arrive(c, w, p, g, p', g') { ArriveLocal(c, w, p, g, p', g'); }
    else if Pay(c, p, g, p', g') { PayLocal(c, w, p, g, p', g'); }
    else if Labour(c, p, g, p', g') { LabourLocal(c, w, p, g, p', g'); }
    else { FinishLocal(c, w, p, g, p', g'); }
  }

  // ----- the whole state -----------------------------------------------------------------------

  /** A running call has a live leader; a resolved one tells the truth about its leader's item. */
  ghost predicate CallOk(c: Config, pcs: seq<Pc>, g: Shared, k: Key)
    requires k in g.inflight
  {
    var call := g.inflight[k];
    && c.cached && c.HasKey(call.leader) && c.KeyOf(call.leader) == k && call.leader < |g.items|
    && (call.outcome.Running? ==>
          call.owner < |pcs| && pcs[call.owner].Leads() && pcs[call.owner].item == call.leader)
    && (call.outcome.Resolved? ==> Truth(c, g, call.leader, call.outcome.result))
  }

  ghost predicate PlaceOk(c: Config, pcs: seq<Pc>, g: Shared, i: nat)
    requires i < |g.items|
  {
    match g.items[i].place
    case With(w) => w < |pcs| && pcs[w].HasItem() && pcs[w].item == i
    case Out(r) => Settled(c, g, i, r)
    case Lost => g.cancelled
    case Todo => true
  }

  ghost predicate Inv(c: Config, s: State) {
    && c.Valid() && |s.pcs| == c.workers && Sized(c, s.g)
    && (forall w: nat :: w < |s.pcs| ==> Cell(c, s.g, w, s.pcs[w]))
    && History(c, s.g) && StoreGrown(c, s.g)
    && (forall k :: k in s.g.inflight ==> CallOk(c, s.pcs, s.g, k))
    && (forall i: nat :: i < |s.g.items| ==> PlaceOk(c, s.pcs, s.g, i))
    && (forall w: nat :: w < |s.pcs| && s.pcs[w] == Exited(false) ==> s.g.cancelled)
  }

  lemma InitInv(c: Config, s: State)
    requires Init(c, s)
    ensures Inv(c, s)
  {}

  lemma CellView(c: Config, g: Shared, g': Shared, w: nat, p: Pc)
    requires SameView(g, g') && Cell(c, g, w, p)
    ensures Cell(c, g', w, p)
  {}

  lemma HistoryView(c: Config, g: Shared, g': Shared)
    requires SameView(g, g') && History(c, g)
    ensures History(c, g')
  {
    forall i: nat | i < |g'.items| ensures Bounded(c, g', i) { assert Bounded(c, g, i); }
    forall i: nat | At(g', i, Todo) ensures Untouched(c, g', i) { assert At(g, i, Todo); }
  }

  lemma EnvInv(c: Config, s: State, s': State)
    requires Inv(c, s) && EnvStep(c, s, s')
    ensures Inv(c, s')
  {
    hide Cell, History, Settled, Truth;
    var g, g' := s.g, s'.g;
    HistoryView(c, g, g');
    forall w: nat | w < |s.pcs| ensures Cell(c, g', w, s.pcs[w]) { CellView(c, g, g', w, s.pcs[w]); }
    forall i: nat | i < |g'.items| ensures PlaceOk(c, s.pcs, g', i) {
      assert PlaceOk(c, s.pcs, g, i);
      if g.items[i].place.Out? { SettledView(c, g, g', i, g.items[i].place.result); }
    }
    forall k | k in g'.inflight ensures CallOk(c, s.pcs, g', k) {
      assert CallOk(c, s.pcs, g, k);
      var call := g.inflight[k];
      if call.outcome.Resolved? { TruthView(c, g, g', call.leader, call.outcome.result); }
    }
  }

  lemma TruthView(c: Config, g: Shared, g': Shared, i: nat, r: Result)
    requires SameView(g, g') && Truth(c, g, i, r)
    ensures Truth(c, g', i, r)
  {}

  lemma SettledView(c: Config, g: Shared, g': Shared, i: nat, r: Result)
    requires SameView(g, g') && Settled(c, g, i, r)
    ensures Settled(c, g', i, r)
  {}

  lemma TruthStable(c: Config, v: nat, g: Shared, g': Shared, i: nat, r: Result)
    requires Guarantee(v, g, g') && Truth(c, g, i, r)
    ensures Truth(c, g', i, r)
  {}

  lemma SettledStable(c: Config, v: nat, g: Shared, g': Shared, i: nat, r: Result)
    requires Guarantee(v, g, g') && Settled(c, g, i, r)
    ensures Settled(c, g', i, r)
  {
    if !c.cached { TruthStable(c, v, g, g', i, r); }
  }

  lemma HistoryStep(c: Config, w: nat, p: Pc, g: Shared, p': Pc, g': Shared)
    requires History(c, g) && Cell(c, g, w, p) && c.attempts >= 1
    requires Guarantee(w, g, g') && Track(c, w, p, g, p', g')
    ensures History(c, g')
  {
    forall i: nat | i < |g'.items| ensures Bounded(c, g', i) {
      assert Bounded(c, g, i);
      assert OwnItem(w, g.items[i], g'.items[i]);
    }
    forall i: nat | At(g', i, Todo) ensures Untouched(c, g', i) {
      assert OwnItem(w, g.items[i], g'.items[i]);
      assert At(g, i, Todo);
    }
  }

  lemma StoreStep(c: Config, w: nat, g: Shared, g': Shared)
    requires StoreGrown(c, g) && Guarantee(w, g, g')
    ensures StoreGrown(c, g')
  {}

  lemma CallsStep(c: Config, w: nat, s: State, s': State)
    requires Inv(c, s) && WorkerStep(c, w, s, s')
    requires Guarantee(w, s.g, s'.g) && Cell(c, s'.g, w, s'.pcs[w]) && Track(c, w, s.pcs[w], s.g, s'.pcs[w], s'.g)
    ensures forall k :: k in s'.g.inflight ==> CallOk(c, s'.pcs, s'.g, k)
  {
    hide Move;
    var p, p' := s.pcs[w], s'.pcs[w];
    assert Cell(c, s.g, w, p);
    forall k | k in s'.g.inflight ensures CallOk(c, s'.pcs, s'.g, k) {
      if k in s.g.inflight {
        assert CallOk(c, s.pcs, s.g, k);
        var call := s.g.inflight[k];
        if call.outcome.Resolved? { TruthStable(c, w, s.g, s'.g, call.leader, call.outcome.result); }
        if p.Publishing? && c.cached && k == c.KeyOf(p.item) && p.outcome.Resolved? {
          TruthStable(c, w, s.g, s'.g, p.item, p.outcome.result);
        }
      }
    }
  }

  lemma PlacesStep(c: Config, w: nat, s: State, s': State)
    requires Inv(c, s) && WorkerStep(c, w, s, s')
    requires Guarantee(w, s.g, s'.g) && Cell(c, s'.g, w, s'.pcs[w]) && Track(c, w, s.pcs[w], s.g, s'.pcs[w], s'.g)
    ensures forall i: nat :: i < |s'.g.items| ==> PlaceOk(c, s'.pcs, s'.g, i)
  {
    forall i: nat | i < |s'.g.items| ensures PlaceOk(c, s'.pcs, s'.g, i) {
      assert PlaceOk(c, s.pcs, s.g, i);
      match s.g.items[i].place
      case Out(r) => SettledStable(c, w, s.g, s'.g, i, r);
      case _ =>
    }
  }

  /** Every move preserves the invariant. */
  lemma StepInv(c: Config, w: nat, s: State, s': State)
    requires Inv(c, s) && WorkerStep(c, w, s, s')
    ensures Inv(c, s')
  {
    hide Cell, History, StoreGrown, Guarantee, Move, CallOk, PlaceOk;
    var p, p' := s.pcs[w], s'.pcs[w];
    assert Cell(c, s.g, w, p);
    MoveCell(c, w, s, s');
    HistoryStep(c, w, p, s.g, p', s'.g);
    StoreStep(c, w, s.g, s'.g);
    CallsStep(c, w, s, s');
    PlacesStep(c, w, s, s');
    forall u: nat | u < |s'.pcs| ensures Cell(c, s'.g, u, s'.pcs[u]) {
      if u != w { CellStable(c, s.g, s'.g, w, u, s.pcs[u]); }
    }
  }

  lemma MoveCell(c: Config, w: nat, s: State, s': State)
    requires Inv(c, s) && WorkerStep(c, w, s, s')
    ensures Guarantee(w, s.g, s'.g) && Cell(c, s'.g, w, s'.pcs[w]) && Track(c, w, s.pcs[w], s.g, s'.pcs[w], s'.g)
    ensures Sized(c, s'.g)
  {
    hide Cell, History, StoreGrown, Guarantee, CallOk, PlaceOk;
    assert Cell(c, s.g, w, s.pcs[w]);
    MoveLocal(c, w, s.pcs[w], s.g, s'.pcs[w], s'.g);
  }
}
