/**
 Streaming pipelines: a feeder, one runner per stage joined by bounded channels, and a collector
 that puts every result back at its input position.  What a stage does to one item is an
 arbitrary function of the stage, the index and the value, so any nondeterminism of a run is
 covered by some `work`.
 */
module Pipeline {
  import opened Common

  type Value = string

  datatype Kind = Stream | Barrier | Override
  datatype Stage = Stage(kind: Kind, workers: nat)

  datatype Body = Clean(value: Value) | Quarantined(index: nat, reason: string) | Skipped
  datatype Item = Item(index: nat, body: Body) {
    predicate Flagged() { !body.Clean? }
  }

  /** What processing one clean item gives; Broke is an error that fails the run. */
  datatype Effect = Good(value: Value) | Bad(reason: string) | Drop | Broke

  datatype Config = Config(stages: seq<Stage>, inputs: seq<Value>, work: (nat, nat, Value) -> Effect)
  {
    ghost predicate Valid() { |stages| >= 1 && forall t :: t in stages ==> t.workers >= 1 }
    function N(): nat { |inputs| }
    function K(): nat { |stages| }
  }

  const CAPACITY: nat := 16

  datatype Hand = Ready | Holding(item: Item) | Sending(item: Item) | Gone(ok: bool)
  datatype Phase = Starting | Filling | Flowing | Emitting | Closed

  /** A stage runner: its buffer (barriers), and its workers' hands. */
  datatype Node = Node(phase: Phase, buf: seq<Item>, hands: seq<Hand>)

  /** `chans[j]` feeds stage j and `chans[|stages|]` the collector; channel 0 is what the feeder still
      holds.  `hits` are the collected items in order; `lost` the items dropped on the way; `stopped` is a
      done context, `errored` a goroutine's error, `outside` a cancellation by the caller. */
  datatype State = State(chans: seq<seq<Item>>, nodes: seq<Node>, results: map<nat, Item>,
                         hits: seq<Item>, lost: seq<Item>, stopped: bool, errored: bool, outside: bool)

  // ----- what the pipeline should compute ---------------------------------------------------------

  /** One stage on one item: flagged items pass unchanged; a new flag carries the item's own index. */
  function Pass(c: Config, j: nat, it: Item): Option<Item> {
    if it.Flagged() then Some(it)
    else
      match c.work(j, it.index, it.body.value)
      case Good(v) => Some(Item(it.index, Clean(v)))
      case Bad(reason) => Some(Item(it.index, Quarantined(it.index, reason)))
      case Drop => Some(Item(it.index, Skipped))
      case Broke => None
  }

  /** Input i after the first j stages, composed left to right. */
  function Level(c: Config, i: nat, j: nat): Option<Item>
    requires i < c.N()
  {
    if j == 0 then Some(Item(i, Clean(c.inputs[i])))
    else
      match Level(c, i, j - 1)
      case None => None
      case Some(it) => Pass(c, j - 1, it)
  }

  // ----- steps --------------------------------------------------------------------------------------

  predicate AllGone(hands: seq<Hand>) { forall h :: h in hands ==> h.Gone? }

  predicate Broken(hands: seq<Hand>) { Gone(false) in hands }

  /** What one stage runner sees and changes: its input channel, itself, its output channel, the
      items it drops, and whether it returns an error. */
  datatype View = View(up: seq<Item>, node: Node, down: seq<Item>)
  datatype Loss = Loss(items: seq<Item>, err: bool)

  const NO_LOSS := Loss([], false)

  /** Begin (or fail to journal that the stage began), fill a barrier's buffer, or end. */
  ghost predicate Manage(c: Config, j: nat, upClosed: bool, stopped: bool, v: View, v': View, x: Loss)
    requires j < c.K()
  {
    var t, p := c.stages[j], v.node;
    match p.phase
    case Starting =>
      && v' == v.(node := v'.node)
      && ((x == NO_LOSS && v'.node == p.(phase := if t.kind.Stream? then Flowing else Filling))
          || (x == Loss([], true) && v'.node == p.(phase := Closed)))
    case Filling =>
      if v.up != [] then
        x == NO_LOSS && v' == View(v.up[1..], p.(buf := p.buf + [v.up[0]]), v.down)
      else
        && upClosed
        && ((x == Loss(p.buf, true) && v' == v.(node := p.(phase := Closed, buf := [])))  // done context, or a failed engine run
            || (!stopped && x == NO_LOSS && t.kind.Barrier? && v' == v.(node := p.(phase := Flowing)))
            || (!stopped && x == NO_LOSS && t.kind.Override? && v'.node.phase.Emitting?
                && EngineRan(c, j, p.buf, v'.node.buf) && v' == v.(node := p.(phase := Emitting, buf := v'.node.buf))))
    case Emitting =>
      if p.buf == [] then
        v' == v.(node := p.(phase := Closed)) && x == Loss([], x.err)
      else
        || (|v.down| < CAPACITY && x == NO_LOSS && v' == View(v.up, p.(buf := p.buf[1..]), v.down + [p.buf[0]]))
        || (stopped && x == Loss(p.buf, true) && v' == v.(node := p.(phase := Closed, buf := [])))
    case Flowing =>
      || (AllGone(p.hands) && x == Loss(p.buf, x.err) && (Broken(p.hands) ==> x.err)
          && v' == v.(node := p.(phase := Closed, buf := [])))
      // a barrier's replay goroutine returns without an error when the context is done
      || (t.kind.Barrier? && stopped && p.buf != [] && x == Loss(p.buf, false) && v' == v.(node := p.(buf := [])))
    case Closed => false
  }

  /** The flagged, or the clean, items of a buffer, in order. */
  function Picked(s: seq<Item>, flagged: bool): seq<Item> {
    if s == [] then [] else (if s[0].Flagged() == flagged then [s[0]] else []) + Picked(s[1..], flagged)
  }

  /** What the nested run of an override stage answers for the item at position p of its compact list.
      That run knows positions only, so a flag of its own carries p. */
  function Answer(c: Config, j: nat, it: Item, p: nat): Option<Body> {
    if it.Flagged() then None
    else
      match c.work(j, it.index, it.body.value)
      case Good(v) => Some(Clean(v))
      case Bad(reason) => Some(Quarantined(p, reason))
      case Drop => Some(Skipped)
      case Broke => None
  }

  /** The stage emits an answer under the original index of its item, and puts that index into its flag. */
  function Reissued(it: Item, b: Body): Item {
    Item(it.index, match b case Quarantined(_, reason) => Quarantined(it.index, reason) case _ => b)
  }

  ghost predicate Answered(c: Config, j: nat, it: Item, p: nat, made: Item) {
    Answer(c, j, it, p).Some? && made == Reissued(it, Answer(c, j, it, p).value)
  }

  /** An override stage runs its engine over the clean items sorted by index; result p belongs to
      the item at position p. */
  ghost predicate Engine(c: Config, j: nat, clean: seq<Item>, made: seq<Item>) {
    && |made| == |clean|
    && forall p :: 0 <= p < |clean| ==> Answered(c, j, clean[p], p, made[p])
  }

  ghost predicate EngineRan(c: Config, j: nat, buf: seq<Item>, buf': seq<Item>) {
    exists made :: Engine(c, j, Sorted(Picked(buf, false)), made) && buf' == made + Picked(buf, true)
  }

  function Insert(it: Item, s: seq<Item>): seq<Item> {
    if s == [] || it.index <= s[0].index then [it] + s else [s[0]] + Insert(it, s[1..])
  }

  function Sorted(s: seq<Item>): seq<Item> {
    if s == [] then [] else Insert(s[0], Sorted(s[1..]))
  }

  /** A worker takes an item from the channel, or from the barrier's buffer. */
  ghost predicate Take(c: Config, j: nat, upClosed: bool, v: View, v': View, h': Hand)
    requires j < c.K()
  {
    if c.stages[j].kind.Barrier? then
      if v.node.buf == [] then h' == Gone(true) && v' == v
      else h' == Grasp(v.node.buf[0]) && v' == v.(node := v.node.(buf := v.node.buf[1..]))
    else
      if v.up == [] then upClosed && h' == Gone(true) && v' == v
      else h' == Grasp(v.up[0]) && v' == v.(up := v.up[1..])
  }

  function Grasp(it: Item): Hand { if it.Flagged() then Sending(it) else Holding(it) }

  /** Worker h of a flowing stage makes one move; v' describes everything but its own hand. */
  ghost predicate Handle(c: Config, j: nat, upClosed: bool, stopped: bool, h: Hand, v: View, v': View, h': Hand, x: Loss)
    requires j < c.K()
  {
    match h
    case Ready => Take(c, j, upClosed, v, v', h') && x == NO_LOSS
    case Holding(it) =>
      && v' == v
      && (|| (h' == Gone(false) && x == Loss([it], false))
          || (x == NO_LOSS && h'.Sending? && Pass(c, j, it) == Some(h'.item)))
    case Sending(it) =>
      || (|v.down| < CAPACITY && x == NO_LOSS && h' == Ready && v' == v.(down := v.down + [it]))
      || ((stopped || Broken(v.node.hands)) && x == Loss([it], false) && h' == Gone(false) && v' == v)
    case Gone(_) => false
  }

  ghost predicate WorkerMove(c: Config, j: nat, w: nat, upClosed: bool, stopped: bool, v: View, v': View, x: Loss)
    requires j < c.K()
  {
    && v.node.phase.Flowing? && w < |v.node.hands| == |v'.node.hands|
    && Handle(c, j, upClosed, stopped, v.node.hands[w], v, v'.(node := v'.node.(hands := v.node.hands)), v'.node.hands[w], x)
    && v'.node.hands == v.node.hands[w := v'.node.hands[w]]
  }

  ghost predicate NodeMove(c: Config, j: nat, upClosed: bool, stopped: bool, v: View, v': View, x: Loss)
    requires j < c.K()
  {
    Manage(c, j, upClosed, stopped, v, v', x) || exists w :: WorkerMove(c, j, w, upClosed, stopped, v, v', x)
  }

  ghost predicate Shaped(c: Config, s: State) {
    |s.chans| == c.K() + 1 && |s.nodes| == c.K()
  }

  predicate UpClosed(s: State, j: nat)
    requires j <= |s.nodes|
  { j == 0 || s.nodes[j - 1].phase.Closed? }

  function ViewOf(s: State, j: nat): View
    requires j < |s.nodes| && j + 1 < |s.chans|
  { View(s.chans[j], s.nodes[j], s.chans[j + 1]) }

  ghost predicate StageStep(c: Config, j: nat, v': View, x: Loss, s: State, s': State) {
    && Shaped(c, s) && j < c.K()
    && NodeMove(c, j, UpClosed(s, j), s.stopped, ViewOf(s, j), v', x)
    && s' == s.(chans := s.chans[j := v'.up][j + 1 := v'.down], nodes := s.nodes[j := v'.node],
                lost := s.lost + x.items, errored := s.errored || x.err, stopped := s.stopped || x.err)
  }

  /** The collector, the feeder giving up on a done context, or a cancellation from outside. */
  ghost predicate EdgeStep(c: Config, s: State, s': State) {
    && Shaped(c, s)
    && (|| Collect(c, s, s')
        || (s.stopped && s.chans[0] != [] && s' == s.(chans := s.chans[0 := []], lost := s.lost + s.chans[0], errored := true))
        || s' == s.(stopped := true, outside := true))
  }

  ghost predicate Collect(c: Config, s: State, s': State)
    requires Shaped(c, s)
  {
    var last := s.chans[c.K()];
    last != [] && s' == s.(chans := s.chans[c.K() := last[1..]], results := s.results[last[0].index := last[0]],
                           hits := s.hits + [last[0]])
  }

  ghost predicate Next(c: Config, s: State, s': State) {
    EdgeStep(c, s, s') || exists j, v', x :: StageStep(c, j, v', x, s, s')
  }

  ghost function Start(c: Config): State {
    State([seq(c.N(), i requires 0 <= i < c.N() => Item(i, Clean(c.inputs[i])))] + seq(c.K(), _ => []),
          seq(c.K(), j requires 0 <= j < c.K() =>
            Node(Starting, [], if c.stages[j].kind.Override? then [] else seq(c.stages[j].workers, _ => Ready))),
          map[], [], [], false, false, false)
  }

  ghost predicate Init(c: Config, s: State) { c.Valid() && s == Start(c) }

  ghost predicate Run(c: Config, tr: seq<State>) {
    |tr| > 0 && Init(c, tr[0]) && forall t :: 0 <= t < |tr| - 1 ==> Next(c, tr[t], tr[t + 1])
  }

  /** Every goroutine of the run has returned. */
  ghost predicate Finished(c: Config, s: State) {
    Shaped(c, s) && s.chans[0] == [] && s.chans[c.K()] == [] && forall j :: 0 <= j < c.K() ==> s.nodes[j].phase.Closed?
  }
}
