/** The journal item by item: while nothing has failed, it shows for every item what has become of it, once. */
module EngineJournal {
  import opened Common
  import opened Engine
  import opened EngineSafety
  import opened EngineTheorems
  import opened EngineAccounting
  import opened EngineBooks
  import EngineResults

  function EventsFor(journal: seq<Event>, e: Event): nat {
    if journal == [] then 0 else EventsFor(journal[..|journal| - 1], e) + if journal[|journal| - 1] == e then 1 else 0
  }

  /** The event that a result is journaled as. */
  function EventOf(r: Result): EventType {
    match r
    case Fine(_, Hit) => HitEvent
    case Fine(_, Stored) => StoredEvent
    case Fine(_, NoState) => DoneEvent
    case Quarantined(_, _, _) => QuarantinedEvent
    case Skipped => SkippedEvent
  }

  /** The item's result is known and journaled. */
  predicate ShownBy(p: Pc, kind: EventType) {
    || (p.Emitting? && kind == EventOf(p.result))
    || (p.Publishing? && p.outcome.Resolved? && kind == EventOf(p.outcome.result))
  }

  predicate Shown(pcs: seq<Pc>, it: Item, kind: EventType) {
    match it.place
    case Out(r) => kind == EventOf(r)
    case With(w) => w < |pcs| && ShownBy(pcs[w], kind)
    case _ => false
  }

  /** How often the item has been journaled as about to be called again: once for every call but the first, the one that the
      worker waits for included. */
  function Again(pcs: seq<Pc>, it: Item): int {
    if it.place.With? && it.place.worker < |pcs| && (pcs[it.place.worker].Waiting? || pcs[it.place.worker].Admitting?) then it.does
    else if it.does > 0 then it.does - 1 else 0
  }

  function Due(pcs: seq<Pc>, it: Item, kind: EventType): int {
    if kind.RetryEvent? then Again(pcs, it) else Is(Shown(pcs, it, kind))
  }

  ghost predicate Told(s: State) {
    !s.g.errored ==> forall i: nat, kind :: i < |s.g.items| ==> EventsFor(s.g.journal, Event(i, kind)) == Due(s.pcs, s.g.items[i], kind)
  }

  lemma EventsNoted(g: Shared, x: Event, e: Event)
    ensures EventsFor(Noted(g, x).journal, e) == EventsFor(g.journal, e) + Is(x == e)
  {
    assert Noted(g, x).journal[..|g.journal|] == g.journal;
  }

  /** What is due for an item in the hands of a worker at p. */
  function DueAt(p: Pc, does: nat, kind: EventType): int {
    if kind.RetryEvent? then (if p.Waiting? || p.Admitting? then does else if does > 0 then does - 1 else 0)
    else Is(ShownBy(p, kind))
  }

  /** One move of the item's own worker adds to what is due exactly the event that it journals. */
  lemma MoveDue(c: Config, p: Pc, does: nat, p': Pc, does': nat, kind: EventType)
    requires Edge(c, p, p') && Sane(c, p) && Sane(c, p') && !Faulty(p) && !Faulty(p') && p.HasItem() && p'.HasItem()
    requires does' == does + Is(p.Admitting? && p'.Doing?)
    requires (p.Doing? || p.Retrying? || p.Waiting? ==> does >= 1) && (p.Loading? || p.HitFound? ==> does == 0)
    ensures DueAt(p', does', kind) == DueAt(p, does, kind) + Is(Post(c, p, p').event == Kind(kind))
  {}

  lemma OwnDue(c: Config, w: nat, p: Pc, pcs: seq<Pc>, g: Shared, p': Pc, pcs': seq<Pc>, g': Shared, kind: EventType)
    requires Facts(c, w, p, g, p', g') && !Faulty(p) && !g'.errored && !Faulty(p') && p.HasItem()
    requires w < |pcs| == |pcs'| && pcs[w] == p && pcs'[w] == p'
    ensures p.item < |g.items| && p.item < |g'.items|
    ensures Due(pcs', g'.items[p.item], kind) == Due(pcs, g.items[p.item], kind) + Is(Post(c, p, p').event == Kind(kind))
  {
    hide MoneyPosted, CountsPosted;
    var a, b := g.items[p.item], g'.items[p.item];
    if p'.HasItem() {
      MoveDue(c, p, a.does, p', b.does, kind) by { hide Post, Edge, Sane, ShownBy; }
      hide Post, Edge, Sane, ShownBy, Knows;
    } else {
      hide Knows, Sane;
      assert p.Emitting? && b.place == Out(p.result);
    }
  }

  lemma TakenDue(c: Config, w: nat, p: Pc, pcs: seq<Pc>, g: Shared, p': Pc, pcs': seq<Pc>, g': Shared, kind: EventType)
    requires Facts(c, w, p, g, p', g') && History(c, g) && !p.HasItem() && p'.HasItem()
    requires w < |pcs| == |pcs'| && pcs[w] == p && pcs'[w] == p'
    ensures p'.item < |g.items| && p'.item < |g'.items| && Due(pcs', g'.items[p'.item], kind) == Due(pcs, g.items[p'.item], kind) == 0
    ensures Post(c, p, p').event.NoEvent?
  {
    hide MoneyPosted, CountsPosted;
    assert Untouched(c, g, p'.item);
  }

  lemma OtherDue(c: Config, w: nat, s: State, s': State, i: nat, kind: EventType)
    requires Inv(c, s) && WorkerStep(c, w, s, s') && Track(c, w, s.pcs[w], s.g, s'.pcs[w], s'.g)
    requires i < |s.g.items| && i != Of(s.pcs[w]) && i != Of(s'.pcs[w])
    ensures i < |s'.g.items| && Due(s'.pcs, s'.g.items[i], kind) == Due(s.pcs, s.g.items[i], kind)
  {
    assert PlaceOk(c, s.pcs, s.g, i);
    hide Move, Knows, History, StoreGrown, CallOk;
  }

  lemma ToldStep(c: Config, w: nat, s: State, s': State)
    requires Inv(c, s) && Ledgered(s) && Told(s) && WorkerStep(c, w, s, s')
    ensures Told(s')
  {
    StepFacts(c, w, s, s');
    var p, p', g, g' := s.pcs[w], s'.pcs[w], s.g, s'.g;
    if !g'.errored {
      assert !g.errored && !Faulty(p) && !Faulty(p');
      hide Move, Cell, Track, Edge, Sane, MoneyPosted, Post, Due, EventsFor, History;
      forall i: nat, kind | i < |g'.items| ensures EventsFor(g'.journal, Event(i, kind)) == Due(s'.pcs, g'.items[i], kind) {
        OneTold(c, w, s, s', i, kind);
      }
    }
  }

  lemma OneTold(c: Config, w: nat, s: State, s': State, i: nat, kind: EventType)
    requires Inv(c, s) && Told(s) && WorkerStep(c, w, s, s') && Facts(c, w, s.pcs[w], s.g, s'.pcs[w], s'.g)
    requires !s.g.errored && !s'.g.errored && !Faulty(s.pcs[w]) && !Faulty(s'.pcs[w]) && i < |s'.g.items|
    ensures EventsFor(s'.g.journal, Event(i, kind)) == Due(s'.pcs, s'.g.items[i], kind)
  {
    hide Move, Cell, Edge, Sane, MoneyPosted, Post, Due, EventsFor, History, StoreGrown, CallOk, PlaceOk;
    var p, p', g, g' := s.pcs[w], s'.pcs[w], s.g, s'.g;
    var e := Post(c, p, p').event;
    if e.Kind? { EventsNoted(g, Event(Of(p), e.kind), Event(i, kind)); }
    if i == Of(p) { OwnDue(c, w, p, s.pcs, g, p', s'.pcs, g', kind); }
    else if i == Of(p') { TakenDue(c, w, p, s.pcs, g, p', s'.pcs, g', kind); }
    else { OtherDue(c, w, s, s', i, kind); }
  }

  lemma {:induction false} RunTold(c: Config, tr: seq<State>, t: nat)
    requires Run(c, tr) && t < |tr|
    ensures Told(tr[t])
  {
    hide Inv, Init, EnvStep, WorkerStep, Ledgered, Books, Told;
    if t == 0 { InitTold(c, tr[0]); } else {
      RunTold(c, tr, t - 1);
      RunBooks(c, tr, t - 1);
      assert Next(c, tr[t - 1], tr[t - 1 + 1]);
      if EnvStep(c, tr[t - 1], tr[t]) { EnvTold(c, tr[t - 1], tr[t]); }
      else {
        var w :| WorkerStep(c, w, tr[t - 1], tr[t]);
        ToldStep(c, w, tr[t - 1], tr[t]);
      }
    }
  }

  lemma InitTold(c: Config, s: State)
    requires Init(c, s)
    ensures Told(s)
  {}

  lemma EnvTold(c: Config, s: State, s': State)
    requires Told(s) && EnvStep(c, s, s')
    ensures Told(s')
  {}

  /** After success the journal tells of every item, under its own index, exactly its own result, once; and one retry for
      every further call that was made for it. */
  lemma OneEventEach(c: Config, tr: seq<State>, t: nat, i: nat, kind: EventType)
    requires Run(c, tr) && t < |tr| && Succeeded(tr[t]) && i < c.N()
    ensures i < |tr[t].g.items| && tr[t].g.items[i].place.Out?
    ensures var it, n := tr[t].g.items[i], EventsFor(tr[t].g.journal, Event(i, kind));
      if kind.RetryEvent? then n == (if it.does > 0 then it.does - 1 else 0)
      else n == if kind == EventOf(it.place.result) then 1 else 0
  {
    RunTold(c, tr, t);
    EngineResults.SuccessDelivers(c, tr, t);
  }
}
