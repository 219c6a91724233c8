/** What a pipeline run delivers, that it never deadlocks, and that it ends. */
module PipelineResults {
  import opened Common
  import opened Pipeline
  import opened PipelineSafety

  /** In every reachable state, failed and cancelled runs included, an index is in exactly one place:
      a channel, a buffer, a worker's hands, the collected results or the losses. */
  lemma OnePlaceEach(c: Config, tr: seq<State>, t: nat, i: nat)
    requires Run(c, tr) && t < |tr|
    ensures Copies(tr[t], i) == if i < c.N() then 1 else 0
    ensures i in tr[t].results ==> i < c.N() && Level(c, i, c.K()) == Some(tr[t].results[i])
    ensures forall j :: 0 < j <= c.K() ==> Shaped(c, tr[t]) && |tr[t].chans[j]| <= CAPACITY
  {
    RunInv(c, tr, t);
    var s := tr[t];
    assert Collected(c, s, i);
    forall j | 0 < j <= c.K() ensures |s.chans[j]| <= CAPACITY { assert NodeOk(c, s, j - 1); }
  }

  lemma {:induction false} AllDry(c: Config, s: State, j: nat)
    requires Inv(c, s) && Finished(c, s) && !s.errored && j < |s.chans|
    ensures s.chans[j] == []
  {
    if j < c.K() { assert NodeOk(c, s, j); }
  }

  /** Stage b is a barrier, and only streams come after it. */
  ghost predicate LastBarrier(c: Config, b: nat) {
    b < c.K() && c.stages[b].kind.Barrier? && forall k: nat :: b < k < c.K() ==> c.stages[k].kind.Stream?
  }

  /** The last stage that is not a stream is a barrier, and no work fails on the way to it. */
  ghost predicate Hides(c: Config) {
    c.N() > 0 && exists b: nat :: LastBarrier(c, b) && forall i: nat :: i < c.N() ==> Level(c, i, b).Some?
  }

  lemma LossShows(c: Config, s: State)
    requires Inv(c, s) && Finished(c, s) && !s.errored && s.lost != [] && c.N() > 0
    ensures s.outside && Hides(c)
  {
    forall j: nat | j < |s.nodes| ensures !Broken(s.nodes[j].hands) { assert NodeOk(c, s, j); }
    assert !SomeBroken(s);
    var b: nat :| HidesAt(c, s, b);
    forall k: nat | b < k < c.K() ensures c.stages[k].kind.Stream? { assert s.nodes[k].phase.Closed?; }
    assert LastBarrier(c, b);
  }

  /** A run that ended without an error, and was not cancelled from outside or does not hide that,
      collected every index exactly once; result i is the left-to-right composition of the stages on
      input i, flagged items passing the later stages unchanged. */
  lemma CompleteWithoutError(c: Config, tr: seq<State>, t: nat, i: nat)
    requires Run(c, tr) && t < |tr| && Finished(c, tr[t]) && !tr[t].errored
    requires !tr[t].outside || !Hides(c)
    requires i < c.N()
    ensures Occ(tr[t].hits, i) == 1 && i in tr[t].results && Level(c, i, c.K()) == Some(tr[t].results[i])
  {
    RunInv(c, tr, t);
    var s := tr[t];
    forall j: nat | j < |s.nodes| ensures !Broken(s.nodes[j].hands) { assert NodeOk(c, s, j); }
    if s.lost != [] { LossShows(c, s); }
    forall j | 0 <= j < |s.chans| ensures s.chans[j] == [] { AllDry(c, s, j); }
    EmptyChans(s.chans, i);
    forall j | 0 <= j < |s.nodes| ensures s.nodes[j].buf == [] && forall h :: h in s.nodes[j].hands ==> h.Gone? {
      assert NodeOk(c, s, j);
    }
    EmptyNodes(s.nodes, i);
    assert Copies(s, i) == 1 && Collected(c, s, i);
  }

  /** The schedule does not matter: two such runs of one pipeline have the same results. */
  lemma ScheduleIndependent(c: Config, tr: seq<State>, t: nat, ur: seq<State>, u: nat)
    requires Run(c, tr) && t < |tr| && Finished(c, tr[t]) && !tr[t].errored && (!tr[t].outside || !Hides(c))
    requires Run(c, ur) && u < |ur| && Finished(c, ur[u]) && !ur[u].errored && (!ur[u].outside || !Hides(c))
    ensures tr[t].results == ur[u].results
  {
    forall i: nat ensures i in tr[t].results <==> i < c.N() {
      OnePlaceEach(c, tr, t, i);
      if i < c.N() { CompleteWithoutError(c, tr, t, i); }
    }
    forall i: nat ensures i in ur[u].results <==> i < c.N() {
      OnePlaceEach(c, ur, u, i);
      if i < c.N() { CompleteWithoutError(c, ur, u, i); }
    }
    forall i: nat | i < c.N() ensures tr[t].results[i] == ur[u].results[i] {
      CompleteWithoutError(c, tr, t, i);
      CompleteWithoutError(c, ur, u, i);
    }
  }

  /** A flag set by stage j is what the collector gets, with the item's own index. */
  lemma {:induction false} FlagsBypass(c: Config, i: nat, j: nat, k: nat)
    requires i < c.N() && j <= k && Level(c, i, j).Some? && Level(c, i, j).value.Flagged()
    ensures Level(c, i, k) == Level(c, i, j)
    decreases k - j
  {
    if j < k { FlagsBypass(c, i, j, k - 1); }
  }

  /** The values that item i takes on through the first stages, each of which gave one. */
  ghost predicate Values(c: Config, i: nat, vs: seq<Value>) {
    && i < c.N() && 1 <= |vs| <= c.K() + 1 && vs[0] == c.inputs[i]
    && forall j :: 0 <= j < |vs| - 1 ==> c.work(j, i, vs[j]) == Good(vs[j + 1])
  }

  /** An item after j stages: the last value, if all of them gave one, or what the first stage that did not made of it. */
  ghost predicate Composed(c: Config, i: nat, j: nat, vs: seq<Value>, body: Body) {
    && Values(c, i, vs) && |vs| - 1 <= j
    && match body
       case Clean(v) => |vs| - 1 == j && v == vs[j]
       case Quarantined(index, reason) => |vs| - 1 < j && index == i && c.work(|vs| - 1, i, vs[|vs| - 1]) == Bad(reason)
       case Skipped => |vs| - 1 < j && c.work(|vs| - 1, i, vs[|vs| - 1]) == Drop
  }

  lemma {:induction false} LevelIs(c: Config, i: nat, j: nat) returns (vs: seq<Value>)
    requires i < c.N() && j <= c.K() && Level(c, i, j).Some?
    ensures Composed(c, i, j, vs, Level(c, i, j).value.body)
  {
    if j == 0 { vs := [c.inputs[i]]; } else {
      vs := LevelIs(c, i, j - 1);
      LevelOwnIndex(c, i, j - 1);
      var before, now := Level(c, i, j - 1).value, Level(c, i, j).value;
      if before.body.Clean? && now.body.Clean? { vs := vs + [now.body.value]; }
    }
  }

  /** What is collected under index i is the composition of the stages' work on input i, left to right: the last stage's
      value, or the flag that the first stage without a value gave the item. */
  lemma ResultsAreComposed(c: Config, tr: seq<State>, t: nat, i: nat) returns (vs: seq<Value>)
    requires Run(c, tr) && t < |tr| && i in tr[t].results
    ensures tr[t].results[i].index == i && Composed(c, i, c.K(), vs, tr[t].results[i].body)
  {
    FlagsCarryOwnIndex(c, tr, t, i);
    OnePlaceEach(c, tr, t, i);
    vs := LevelIs(c, i, c.K());
  }

  lemma {:induction false} LevelOwnIndex(c: Config, i: nat, j: nat)
    requires i < c.N() && Level(c, i, j).Some?
    ensures var it := Level(c, i, j).value; it.index == i && (it.body.Quarantined? ==> it.body.index == i)
  {
    if j > 0 { LevelOwnIndex(c, i, j - 1); }
  }

  /** Whatever is collected under index i, through override stages too, is item i, and its flag says so. */
  lemma FlagsCarryOwnIndex(c: Config, tr: seq<State>, t: nat, i: nat)
    requires Run(c, tr) && t < |tr| && i in tr[t].results
    ensures tr[t].results[i].index == i && (tr[t].results[i].body.Quarantined? ==> tr[t].results[i].body.index == i)
  {
    OnePlaceEach(c, tr, t, i);
    LevelOwnIndex(c, i, c.K());
  }

  // ----- no deadlock ---------------------------------------------------------------------------------

  /** Stage j is about to work on an item that fails there. */
  ghost predicate Breaks(c: Config, j: nat, p: Node) {
    || (!p.phase.Emitting? && exists it :: it in p.buf && Pass(c, j, it) == None)
    || (exists h :: h in p.hands && h.Holding? && Pass(c, j, h.item) == None)
  }

  /** A move that drops items or fails only where the context is done or the work itself fails. */
  ghost predicate Sound(c: Config, s: State, j: nat, x: Loss)
    requires j < |s.nodes|
  {
    x.err || x.items != [] ==> s.stopped || Broken(s.nodes[j].hands) || Breaks(c, j, s.nodes[j])
  }

  /** Something other than a cancellation or a spurious failure can happen. */
  ghost predicate CanMove(c: Config, s: State) {
    exists s' :: Moves(c, s, s')
  }

  ghost predicate Moves(c: Config, s: State, s': State) {
    || (exists j, v', x :: StageStep(c, j, v', x, s, s') && Sound(c, s, j, x))
    || (Shaped(c, s) && (Collect(c, s, s') || GiveUp(c, s, s')))
  }

  /** The feeder returns a done context's error. */
  ghost predicate GiveUp(c: Config, s: State, s': State)
    requires Shaped(c, s)
  {
    s.stopped && s.chans[0] != [] && s' == s.(chans := s.chans[0 := []], lost := s.lost + s.chans[0], errored := true)
  }

  /** Stage j can make the move to v', for a cause if it drops or fails. */
  ghost predicate StageCan(c: Config, s: State, j: nat, v': View, x: Loss) {
    Shaped(c, s) && j < c.K() && NodeMove(c, j, UpClosed(s, j), s.stopped, ViewOf(s, j), v', x) && Sound(c, s, j, x)
  }

  /** The state after such a move. */
  ghost function Moved(c: Config, s: State, j: nat, v': View, x: Loss): State
    requires Shaped(c, s) && j < c.K()
  {
    s.(chans := s.chans[j := v'.up][j + 1 := v'.down], nodes := s.nodes[j := v'.node],
       lost := s.lost + x.items, errored := s.errored || x.err, stopped := s.stopped || x.err)
  }

  lemma StageMoves(c: Config, s: State, j: nat, v': View, x: Loss)
    requires StageCan(c, s, j, v', x)
    ensures StageStep(c, j, v', x, s, Moved(c, s, j, v', x)) && Next(c, s, Moved(c, s, j, v', x)) && CanMove(c, s)
  {
    var s' := Moved(c, s, j, v', x);
    assert StageStep(c, j, v', x, s, s');
    assert Moves(c, s, s');
  }

  /** A worker can move unless it waits for an open, empty source. */
  lemma HandMoves(c: Config, s: State, j: nat, w: nat) returns (v'': View, x: Loss)
    requires Shaped(c, s) && j < c.K() && s.nodes[j].phase.Flowing? && w < |s.nodes[j].hands| && !s.nodes[j].hands[w].Gone?
    requires |s.chans[j + 1]| < CAPACITY || s.stopped
    requires s.nodes[j].hands[w].Ready? ==> c.stages[j].kind.Barrier? || s.chans[j] != [] || UpClosed(s, j)
    ensures StageCan(c, s, j, v'', x)
  {
    var v, uc := ViewOf(s, j), UpClosed(s, j);
    var h := v.node.hands[w];
    var v', h' := v, h;
    x := NO_LOSS;
    match h {
      case Ready =>
        if c.stages[j].kind.Barrier? {
          if v.node.buf == [] { h' := Gone(true); } else { h', v' := Grasp(v.node.buf[0]), v.(node := v.node.(buf := v.node.buf[1..])); }
        } else if v.up == [] { h' := Gone(true); }
        else { h', v' := Grasp(v.up[0]), v.(up := v.up[1..]); }
      case Holding(it) =>
        if Pass(c, j, it).Some? { h' := Sending(Pass(c, j, it).value); } else { h', x := Gone(false), Loss([it], false); }
      case Sending(it) =>
        if |v.down| < CAPACITY { h', v' := Ready, v.(down := v.down + [it]); } else { h', x := Gone(false), Loss([it], false); }
    }
    assert h in v.node.hands;
    assert Handle(c, j, uc, s.stopped, h, v, v', h', x);
    v'' := v'.(node := v'.node.(hands := v.node.hands[w := h']));
    assert v''.(node := v''.node.(hands := v.node.hands)) == v';
    assert WorkerMove(c, j, w, uc, s.stopped, v, v'', x);
  }

  /** A runner that has not closed, and can send or need not, can move, or else it waits for its
      predecessor, which has not closed and has an empty channel ahead of it. */
  lemma {:induction false} RunnerMoves(c: Config, s: State, j: nat) returns (l: nat, v': View, x: Loss)
    requires Inv(c, s) && j < c.K() && !s.nodes[j].phase.Closed?
    requires |s.chans[j + 1]| < CAPACITY || s.stopped
    ensures l <= j && StageCan(c, s, l, v', x)
    decreases j
  {
    var v, uc := ViewOf(s, j), UpClosed(s, j);
    var p := v.node;
    assert NodeOk(c, s, j);
    l := j;
    if v.up == [] && !uc { l, v', x := RunnerMoves(c, s, j - 1); }
    else if p.phase.Flowing? {
      if AllGone(p.hands) {
        ClosingLosesNothing(c, s, j);
        v', x := v.(node := p.(phase := Closed, buf := [])), Loss(p.buf, Broken(p.hands));
        assert Manage(c, j, uc, s.stopped, v, v', x);
      } else {
        var h :| h in p.hands && !h.Gone?;
        var w :| 0 <= w < |p.hands| && p.hands[w] == h;
        v', x := HandMoves(c, s, j, w);
      }
    } else { v', x := ManagerMoves(c, s, j); }
  }

  /** A runner whose workers all ended well has nothing left in its buffer. */
  lemma ClosingLosesNothing(c: Config, s: State, j: nat)
    requires Inv(c, s) && j < c.K() && s.nodes[j].phase.Flowing? && AllGone(s.nodes[j].hands)
    ensures Broken(s.nodes[j].hands) || s.nodes[j].buf == []
  {
    assert NodeOk(c, s, j) && c.stages[j] in c.stages;
    var h := s.nodes[j].hands[0];
    assert h in s.nodes[j].hands && h.Gone?;
  }

  lemma ManagerMoves(c: Config, s: State, j: nat) returns (v': View, x: Loss)
    requires Inv(c, s) && j < c.K() && !s.nodes[j].phase.Closed? && !s.nodes[j].phase.Flowing?
    requires |s.chans[j + 1]| < CAPACITY || s.stopped
    requires s.chans[j] != [] || UpClosed(s, j)
    ensures StageCan(c, s, j, v', x)
  {
    assert NodeOk(c, s, j);
    hide Inv, ViewAt;
    var v := ViewOf(s, j);
    var p := v.node;
    if p.phase.Starting? {
      v', x := v.(node := p.(phase := if c.stages[j].kind.Stream? then Flowing else Filling)), NO_LOSS;
    } else if p.phase.Filling? {
      if v.up != [] { v', x := View(v.up[1..], p.(buf := p.buf + [v.up[0]]), v.down), NO_LOSS; }
      else if s.stopped || Breaks(c, j, p) {
        v', x := v.(node := p.(phase := Closed, buf := [])), Loss(p.buf, true);
      } else if c.stages[j].kind.Barrier? { v', x := v.(node := p.(phase := Flowing)), NO_LOSS; }
      else {
        var buf' := EngineCanRun(c, j, p);
        v', x := v.(node := p.(phase := Emitting, buf := buf')), NO_LOSS;
      }
    } else if p.buf == [] { v', x := v.(node := p.(phase := Closed)), NO_LOSS; }
    else if |v.down| < CAPACITY { v', x := View(v.up, p.(buf := p.buf[1..]), v.down + [p.buf[0]]), NO_LOSS; }
    else { v', x := v.(node := p.(phase := Closed, buf := [])), Loss(p.buf, true); }
    assert Manage(c, j, UpClosed(s, j), s.stopped, v, v', x);
  }

  lemma EngineCanRun(c: Config, j: nat, p: Node) returns (buf': seq<Item>)
    requires p.phase.Filling? && !Breaks(c, j, p)
    ensures EngineRan(c, j, p.buf, buf')
  {
    var clean := Sorted(Picked(p.buf, false));
    PickedIn(p.buf, false);
    SortedKeeps(Picked(p.buf, false), 0);
    forall k | 0 <= k < |clean| ensures Answer(c, j, clean[k], k).Some? {
      assert clean[k] in clean;
      ReissuedIsPass(c, j, clean[k], k);
    }
    var made := seq(|clean|, k requires 0 <= k < |clean| => Reissued(clean[k], Answer(c, j, clean[k], k).value));
    assert Engine(c, j, clean, made);
    buf' := made + Picked(p.buf, true);
  }

  /** No reachable state is a deadlock: until every goroutine has returned, one of them can move. */
  lemma NeverStuck(c: Config, tr: seq<State>, t: nat)
    requires Run(c, tr) && t < |tr|
    ensures Finished(c, tr[t]) || CanMove(c, tr[t])
  {
    RunInv(c, tr, t);
    var s, k := tr[t], c.K();
    if s.chans[k] != [] {
      var last := s.chans[k];
      assert Moves(c, s, s.(chans := s.chans[k := last[1..]], results := s.results[last[0].index := last[0]], hits := s.hits + [last[0]]));
    } else if j: nat :| j < k && !s.nodes[j].phase.Closed? {
      if s.nodes[k - 1].phase.Closed? {
        if !s.errored { ClosedBehind(c, s, j, k - 1); }
        var l, v', x := RunnerMoves(c, s, j);
        StageMoves(c, s, l, v', x);
      } else {
        var l, v', x := RunnerMoves(c, s, k - 1);
        StageMoves(c, s, l, v', x);
      }
    } else if s.chans[0] != [] {
      assert NodeOk(c, s, 0) && s.nodes[0].phase.Closed?;
      assert Moves(c, s, s.(chans := s.chans[0 := []], lost := s.lost + s.chans[0], errored := true));
    }
  }

  // ----- every run ends ------------------------------------------------------------------------------

  /** n items of weight w. */
  ghost function Load(n: nat, w: nat): nat { if n == 0 then 0 else Load(n - 1, w) + w }

  lemma {:induction false} LoadGrows(n: nat, w: nat, w': nat)
    requires w <= w'
    ensures Load(n, w) <= Load(n, w')
  {
    if n > 0 { LoadGrows(n - 1, w, w'); }
  }

  /** An item is lighter the further it has come: r is what a stage and its successors still weigh. */
  ghost function HandWeight(h: Hand, r: nat): nat {
    match h
    case Ready => 1
    case Holding(_) => r
    case Sending(_) => if r == 0 then 0 else r - 1
    case Gone(_) => 0
  }

  ghost function HandsWeight(hands: seq<Hand>, r: nat): nat {
    if hands == [] then 0 else HandWeight(hands[0], r) + HandsWeight(hands[1..], r)
  }

  ghost function Rank(p: Phase): nat {
    match p
    case Starting => 3
    case Filling => 2
    case Flowing => 1
    case Emitting => 1
    case Closed => 0
  }

  ghost function NodeWeight(p: Node, r: nat): nat {
    Rank(p.phase) + HandsWeight(p.hands, r) + Load(|p.buf|, if p.phase.Emitting? && r >= 2 then r - 2 else r)
  }

  ghost function NodesWeight(nodes: seq<Node>): nat {
    if nodes == [] then 0 else NodeWeight(nodes[0], 5 * |nodes|) + NodesWeight(nodes[1..])
  }

  ghost function ChansWeight(chans: seq<seq<Item>>): nat {
    if chans == [] then 0 else Load(|chans[0]|, 5 * (|chans| - 1) + 1) + ChansWeight(chans[1..])
  }

  ghost function Measure(s: State): nat { ChansWeight(s.chans) + NodesWeight(s.nodes) }

  lemma {:induction false} HandsWeightUpdate(hands: seq<Hand>, w: nat, h: Hand, r: nat)
    requires w < |hands|
    ensures HandsWeight(hands[w := h], r) + HandWeight(hands[w], r) == HandsWeight(hands, r) + HandWeight(h, r)
  {
    if w == 0 { assert hands[w := h][1..] == hands[1..]; } else {
      HandsWeightUpdate(hands[1..], w - 1, h, r);
      assert hands[w := h][1..] == hands[1..][w - 1 := h];
    }
  }

  lemma {:induction false} NodesWeightUpdate(nodes: seq<Node>, j: nat, p: Node)
    requires j < |nodes|
    ensures NodesWeight(nodes[j := p]) + NodeWeight(nodes[j], 5 * (|nodes| - j)) == NodesWeight(nodes) + NodeWeight(p, 5 * (|nodes| - j))
  {
    if j == 0 { assert nodes[j := p][1..] == nodes[1..]; } else {
      NodesWeightUpdate(nodes[1..], j - 1, p);
      assert nodes[j := p][1..] == nodes[1..][j - 1 := p];
    }
  }

  lemma {:induction false} ChansWeightUpdate(chans: seq<seq<Item>>, j: nat, ch: seq<Item>)
    requires j < |chans|
    ensures ChansWeight(chans[j := ch]) + Load(|chans[j]|, 5 * (|chans| - 1 - j) + 1)
         == ChansWeight(chans) + Load(|ch|, 5 * (|chans| - 1 - j) + 1)
  {
    if j == 0 { assert chans[j := ch][1..] == chans[1..]; } else {
      ChansWeightUpdate(chans[1..], j - 1, ch);
      assert chans[j := ch][1..] == chans[1..][j - 1 := ch];
    }
  }

  ghost function ViewWeight(v: View, r: nat): nat
    requires r >= 5
  { Load(|v.up|, r + 1) + NodeWeight(v.node, r) + Load(|v.down|, r - 4) }

  lemma EngineLength(c: Config, j: nat, buf: seq<Item>, buf': seq<Item>)
    requires EngineRan(c, j, buf, buf')
    ensures |buf'| == |buf|
  {
    SortedLength(Picked(buf, false));
    PickedLength(buf);
  }

  lemma {:induction false} InsertLength(it: Item, s: seq<Item>)
    ensures |Insert(it, s)| == 1 + |s|
  {
    if s != [] && it.index > s[0].index { InsertLength(it, s[1..]); }
  }

  lemma {:induction false} SortedLength(s: seq<Item>)
    ensures |Sorted(s)| == |s|
  {
    if s != [] { SortedLength(s[1..]); InsertLength(s[0], Sorted(s[1..])); }
  }

  lemma {:induction false} PickedLength(s: seq<Item>)
    ensures |Picked(s, false)| + |Picked(s, true)| == |s|
  {
    if s != [] { PickedLength(s[1..]); }
  }

  lemma ManageLightens(c: Config, j: nat, upClosed: bool, stopped: bool, v: View, v': View, x: Loss, r: nat)
    requires j < c.K() && Manage(c, j, upClosed, stopped, v, v', x) && r >= 5
    requires c.stages[j].kind.Stream? ==> !v.node.phase.Filling?
    ensures ViewWeight(v', r) < ViewWeight(v, r)
  {
    var p := v.node;
    if p.phase.Filling? && v.up == [] && v'.node.phase.Emitting? {
      EngineLength(c, j, p.buf, v'.node.buf);
      LoadGrows(|p.buf|, r - 2, r);
    }
  }

  lemma HandleLightens(c: Config, j: nat, w: nat, upClosed: bool, stopped: bool, v: View, v': View, x: Loss, r: nat)
    requires j < c.K() && WorkerMove(c, j, w, upClosed, stopped, v, v', x) && r >= 5
    ensures ViewWeight(v', r) < ViewWeight(v, r)
  {
    HandsWeightUpdate(v.node.hands, w, v'.node.hands[w], r);
    hide HandsWeight;
  }

  /** Every move but a cancellation from outside brings the run closer to its end. */
  lemma MoveLightens(c: Config, s: State, s': State)
    requires Inv(c, s) && Next(c, s, s')
    ensures Measure(s') < Measure(s) || s' == s.(stopped := true, outside := true)
  {
    if EdgeStep(c, s, s') {
      hide Inv;
      if Collect(c, s, s') { ChansWeightUpdate(s.chans, c.K(), s.chans[c.K()][1..]); }
      else if s.chans[0] != [] { ChansWeightUpdate(s.chans, 0, []); }
    } else {
      var j, v', x :| StageStep(c, j, v', x, s, s');
      assert NodeOk(c, s, j);
      StageLightens(c, j, v', x, s, s');
    }
  }

  lemma NodeMoveLightens(c: Config, j: nat, upClosed: bool, stopped: bool, v: View, v': View, x: Loss, r: nat)
    requires j < c.K() && NodeMove(c, j, upClosed, stopped, v, v', x) && r >= 5
    requires c.stages[j].kind.Stream? ==> !v.node.phase.Filling?
    ensures ViewWeight(v', r) < ViewWeight(v, r)
  {
    hide Manage, WorkerMove, ViewWeight;
    if w :| WorkerMove(c, j, w, upClosed, stopped, v, v', x) {
      HandleLightens(c, j, w, upClosed, stopped, v, v', x, r);
    } else {
      ManageLightens(c, j, upClosed, stopped, v, v', x, r);
    }
  }

  lemma StageLightens(c: Config, j: nat, v': View, x: Loss, s: State, s': State)
    requires StageStep(c, j, v', x, s, s') && (c.stages[j].kind.Stream? ==> !s.nodes[j].phase.Filling?)
    ensures Measure(s') < Measure(s)
  {
    hide NodeMove, Load, NodeWeight, NodesWeight, ChansWeight;
    NodeMoveLightens(c, j, UpClosed(s, j), s.stopped, ViewOf(s, j), v', x, 5 * (c.K() - j));
    ChansWeightUpdate(s.chans, j, v'.up);
    ChansWeightUpdate(s.chans[j := v'.up], j + 1, v'.down);
    NodesWeightUpdate(s.nodes, j, v'.node);
  }

  /** How many of the first t steps were moves of the run itself. */
  ghost function MovesIn(tr: seq<State>, t: nat): nat
    requires t < |tr|
  {
    if t == 0 then 0
    else MovesIn(tr, t - 1) + if tr[t] == tr[t - 1].(stopped := true, outside := true) then 0 else 1
  }

  /** Every run ends: the moves so far and the weight still to go never exceed the initial weight. */
  lemma {:induction false} RunsAreFinite(c: Config, tr: seq<State>, t: nat)
    requires Run(c, tr) && t < |tr|
    ensures MovesIn(tr, t) + Measure(tr[t]) <= Measure(tr[0])
  {
    hide Next, Init, Measure;
    if t > 0 {
      RunsAreFinite(c, tr, t - 1);
      RunInv(c, tr, t - 1);
      assert Next(c, tr[t - 1], tr[t - 1 + 1]);
      MoveLightens(c, tr[t - 1], tr[t]);
      if tr[t] == tr[t - 1].(stopped := true, outside := true) { SameMeasure(tr[t - 1], tr[t]); }
    }
  }

  lemma SameMeasure(s: State, s': State)
    requires s' == s.(stopped := true, outside := true)
    ensures Measure(s') == Measure(s)
  {}
}
