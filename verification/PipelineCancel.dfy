/**
 Exactly when an errorless run can be incomplete: the replay of a barrier returns without an error when
 the context is done, and if only streams come after the barrier nobody notices.
 */
module PipelineCancel {
  import opened Common
  import opened Pipeline
  import opened PipelineSafety
  import opened PipelineResults

  /** A barrier that every item reaches, with nothing but streams after it. */
  ghost predicate Hider(c: Config, b: nat) {
    c.Valid() && LastBarrier(c, b) && forall i: nat :: i < c.N() ==> Level(c, i, b).Some?
  }

  // ----- up to the barrier --------------------------------------------------------------------------

  /** Nothing has gone wrong, and nothing has come past the barrier. */
  ghost predicate Quiet(c: Config, b: nat, s: State) {
    && Inv(c, s) && b < c.K() && !s.stopped && !SomeBroken(s) && s.results == map[]
    && Waits(s.nodes[b])
    && (forall l: nat :: b < l <= c.K() ==> s.chans[l] == [])
    && (forall k: nat :: b < k < c.K() ==> s.nodes[k].phase.Starting?)
  }

  /** The barrier has taken in everything that will come. */
  ghost predicate Arrived(s: State, b: nat)
    requires b < |s.nodes| && b < |s.chans|
  { s.nodes[b].phase.Filling? && s.chans[b] == [] && UpClosed(s, b) }

  /** Before the barrier no item fails, so neither does a stage. */
  lemma NothingBreaks(c: Config, b: nat, s: State, j: nat)
    requires Hider(c, b) && Quiet(c, b, s) && j < b
    ensures !Breaks(c, j, s.nodes[j]) && !Broken(s.nodes[j].hands)
  {
    var p := s.nodes[j];
    assert NodeOk(c, s, j);
    forall it | it in p.buf && !p.phase.Emitting? ensures Pass(c, j, it).Some? {
      var q :| 0 <= q < |p.buf| && p.buf[q] == it;
      assert AtLevel(c, p.buf[q], j);
      Passes(c, b, j, it);
    }
    forall h | h in p.hands && h.Holding? ensures Pass(c, j, h.item).Some? {
      var w :| 0 <= w < |p.hands| && p.hands[w] == h;
      assert HandAt(c, p.hands[w], j);
      Passes(c, b, j, h.item);
    }
  }

  lemma Passes(c: Config, b: nat, j: nat, it: Item)
    requires Hider(c, b) && j < b && AtLevel(c, it, j)
    ensures Pass(c, j, it).Some?
  {
    if Level(c, it.index, j + 1) == None { LevelStaysNone(c, it.index, j + 1, b); }
  }

  /** Some stage up to the barrier can move on, without a loss and without an error. */
  lemma QuietMove(c: Config, b: nat, s: State) returns (l: nat, v': View)
    requires Hider(c, b) && Quiet(c, b, s) && !Arrived(s, b)
    ensures l <= b && StageCan(c, s, l, v', NO_LOSS)
    ensures l == b ==> v'.node.phase.Filling? && v'.down == s.chans[b + 1]
  {
    var x;
    assert NodeOk(c, s, b);
    l, v', x := RunnerMoves(c, s, b);
    if l < b { NothingBreaks(c, b, s, l); } else { BarrierFills(c, b, s, v', x); }
  }

  /** A barrier that still waits does not send, and fails only if it cannot journal that it begins. */
  lemma BarrierFills(c: Config, b: nat, s: State, v': View, x: Loss)
    requires Hider(c, b) && Quiet(c, b, s) && !Arrived(s, b) && StageCan(c, s, b, v', x)
    ensures v'.node.phase.Filling? && v'.down == s.chans[b + 1] && x == NO_LOSS
  {
    assert NodeOk(c, s, b) && !Broken(s.nodes[b].hands);
    if s.nodes[b].phase.Starting? { assert !Breaks(c, b, s.nodes[b]); }
  }

  lemma StillQuiet(c: Config, b: nat, s: State, l: nat, v': View)
    requires Hider(c, b) && Quiet(c, b, s) && !Arrived(s, b) && l <= b && StageCan(c, s, l, v', NO_LOSS)
    requires l == b ==> v'.node.phase.Filling? && v'.down == s.chans[b + 1]
    ensures Quiet(c, b, Moved(c, s, l, v', NO_LOSS)) && Measure(Moved(c, s, l, v', NO_LOSS)) < Measure(s)
  {
    var s' := Moved(c, s, l, v', NO_LOSS);
    StageMoves(c, s, l, v', NO_LOSS);
    assert NodeOk(c, s, l);
    StageInv(c, l, v', NO_LOSS, s, s');
    StageLightens(c, l, v', NO_LOSS, s, s');
    StaysWhole(c, s, l, v');
    forall k: nat | k < |s'.nodes| ensures !Broken(s'.nodes[k].hands) { if k != l { assert s'.nodes[k] == s.nodes[k]; } }
    hide Inv, StageStep, NodeMove;
  }

  /** A move that loses nothing breaks no worker. */
  lemma StaysWhole(c: Config, s: State, l: nat, v': View)
    requires StageCan(c, s, l, v', NO_LOSS) && !Broken(s.nodes[l].hands)
    ensures !Broken(v'.node.hands)
  {}

  ghost function Last(tr: seq<State>): State
    requires tr != []
  { tr[|tr| - 1] }

  lemma Extended(c: Config, tr: seq<State>, s: State)
    requires Run(c, tr) && Next(c, Last(tr), s)
    ensures Run(c, tr + [s]) && Last(tr + [s]) == s
  {
    var ur := tr + [s];
    hide Next, Init;
    forall t | 0 <= t < |ur| - 1 ensures Next(c, ur[t], ur[t + 1]) {
      if t < |tr| - 1 { assert ur[t] == tr[t] && ur[t + 1] == tr[t + 1]; }
    }
  }

  /** Every item gets to the barrier, and the stages before it close. */
  lemma {:induction false} Gather(c: Config, b: nat, tr: seq<State>) returns (ur: seq<State>)
    requires Hider(c, b) && Run(c, tr) && Quiet(c, b, Last(tr))
    ensures Run(c, ur) && Quiet(c, b, Last(ur)) && Arrived(Last(ur), b)
    decreases Measure(Last(tr))
  {
    var s := Last(tr);
    if Arrived(s, b) { ur := tr; } else {
      var l, v' := QuietMove(c, b, s);
      StageMoves(c, s, l, v', NO_LOSS);
      StillQuiet(c, b, s, l, v');
      Extended(c, tr, Moved(c, s, l, v', NO_LOSS));
      ur := Gather(c, b, tr + [Moved(c, s, l, v', NO_LOSS)]);
    }
  }

  // ----- after the cancellation ---------------------------------------------------------------------

  /** The barrier has let go of its items, and only has to end, like the streams after it. */
  ghost predicate Draining(c: Config, b: nat, s: State) {
    && Inv(c, s) && b < c.K() && s.outside && !s.errored && s.results == map[]
    && (forall l: nat :: l <= c.K() ==> s.chans[l] == [])
    && (forall k: nat :: k < b ==> s.nodes[k].phase.Closed?)
    && (s.nodes[b].phase.Flowing? || s.nodes[b].phase.Closed?)
    && (forall k: nat :: b <= k < c.K() ==> Unspoilt(s.nodes[k].hands))
  }

  /** No worker has been handed anything. */
  ghost predicate Unspoilt(hands: seq<Hand>) { forall w :: 0 <= w < |hands| ==> hands[w].Ready? || hands[w] == Gone(true) }

  /** The first stage that has not closed can drop what it buffered, begin, send a worker home, or close. */
  lemma DrainMove(c: Config, b: nat, s: State, j: nat) returns (v': View, x: Loss)
    requires Hider(c, b) && Draining(c, b, s) && b <= j < c.K() && UpClosed(s, j) && !s.nodes[j].phase.Closed?
    ensures NodeMove(c, j, UpClosed(s, j), s.stopped, ViewOf(s, j), v', x)
    ensures !x.err && v'.up == [] && v'.down == [] && Unspoilt(v'.node.hands) && (j == b ==> v'.node.phase.Flowing? || v'.node.phase.Closed?)
  {
    var v := ViewOf(s, j);
    var p := v.node;
    assert NodeOk(c, s, j) && s.stopped && v.up == [] && v.down == [] && Unspoilt(p.hands);
    hide Inv, ViewAt;
    x := NO_LOSS;
    if p.phase.Starting? { v' := v.(node := p.(phase := Flowing)); }
    else if p.buf != [] { v', x := v.(node := p.(buf := [])), Loss(p.buf, false); }
    else if AllGone(p.hands) { v' := v.(node := p.(phase := Closed, buf := [])); }
    else {
      var h :| h in p.hands && !h.Gone?;
      var w: nat :| w < |p.hands| && p.hands[w] == h;
      v' := v.(node := p.(hands := p.hands[w := Gone(true)]));
      assert Handle(c, j, true, s.stopped, h, v, v'.(node := v'.node.(hands := p.hands)), v'.node.hands[w], x);
      assert WorkerMove(c, j, w, true, s.stopped, v, v', x);
      return;
    }
    assert Manage(c, j, true, s.stopped, v, v', x);
  }

  lemma StillDraining(c: Config, b: nat, s: State, j: nat, v': View, x: Loss)
    requires Hider(c, b) && Draining(c, b, s) && b <= j < c.K()
    requires NodeMove(c, j, UpClosed(s, j), s.stopped, ViewOf(s, j), v', x)
    requires !x.err && v'.up == [] && v'.down == [] && Unspoilt(v'.node.hands) && (j == b ==> v'.node.phase.Flowing? || v'.node.phase.Closed?)
    ensures var s' := Moved(c, s, j, v', x); Next(c, s, s') && Draining(c, b, s') && Measure(s') < Measure(s)
  {
    var s' := Moved(c, s, j, v', x);
    assert StageStep(c, j, v', x, s, s');
    assert NodeOk(c, s, j);
    StageInv(c, j, v', x, s, s');
    StageLightens(c, j, v', x, s, s');
    hide Inv, StageStep, NodeMove, Unspoilt;
  }

  lemma {:induction false} Drain(c: Config, b: nat, tr: seq<State>) returns (ur: seq<State>)
    requires Hider(c, b) && Run(c, tr) && Draining(c, b, Last(tr))
    ensures Run(c, ur) && Draining(c, b, Last(ur)) && Finished(c, Last(ur))
    decreases Measure(Last(tr))
  {
    var s := Last(tr);
    if forall k: nat :: k < c.K() ==> s.nodes[k].phase.Closed? { ur := tr; } else {
      var j := FirstOpen(c, s, b);
      var v', x := DrainMove(c, b, s, j);
      StillDraining(c, b, s, j, v', x);
      Extended(c, tr, Moved(c, s, j, v', x));
      ur := Drain(c, b, tr + [Moved(c, s, j, v', x)]);
    }
  }

  lemma {:induction false} FirstOpen(c: Config, s: State, lo: nat) returns (j: nat)
    requires Shaped(c, s) && lo <= c.K() && (forall k: nat :: k < lo ==> s.nodes[k].phase.Closed?)
    requires exists k: nat :: k < c.K() && !s.nodes[k].phase.Closed?
    ensures lo <= j < c.K() && UpClosed(s, j) && !s.nodes[j].phase.Closed?
    decreases c.K() - lo
  {
    if s.nodes[lo].phase.Closed? { j := FirstOpen(c, s, lo + 1); } else { j := lo; }
  }

  // ----- the exact condition ------------------------------------------------------------------------

  /** A run that ended without an error, but is missing the result of input i. */
  ghost predicate Incomplete(c: Config, tr: seq<State>, i: nat) {
    Run(c, tr) && Finished(c, Last(tr)) && !Last(tr).errored && i < c.N() && i !in Last(tr).results
  }

  /** Whatever the stages before and after it: if the last stage that is not a stream is a barrier, and no
      work fails on the way to it, then some run that is cancelled from outside ends without an error and
      without any result at all. */
  lemma BarrierHidesCancellation(c: Config) returns (tr: seq<State>)
    requires c.Valid() && Hides(c)
    ensures Run(c, tr) && Finished(c, Last(tr)) && !Last(tr).errored && Last(tr).outside && Last(tr).results == map[]
  {
    var b: nat :| LastBarrier(c, b) && forall i: nat :: i < c.N() ==> Level(c, i, b).Some?;
    StartsQuiet(c, b);
    tr := Gather(c, b, [Start(c)]);
    var s := Last(tr);
    var flowing := s.(nodes := s.nodes[b := s.nodes[b].(phase := Flowing)]);
    var cancelled := flowing.(stopped := true, outside := true);
    Cancelled(c, b, s);
    Extended(c, tr, flowing);
    Extended(c, tr + [flowing], cancelled);
    tr := Drain(c, b, tr + [flowing] + [cancelled]);
  }

  lemma StartsQuiet(c: Config, b: nat)
    requires Hider(c, b)
    ensures Run(c, [Start(c)]) && Quiet(c, b, Start(c))
  {
    InitInv(c, Start(c));
  }

  /** The barrier begins to replay, and then the caller cancels. */
  lemma Cancelled(c: Config, b: nat, s: State)
    requires Hider(c, b) && Quiet(c, b, s) && Arrived(s, b)
    ensures var flowing := s.(nodes := s.nodes[b := s.nodes[b].(phase := Flowing)]);
      var cancelled := flowing.(stopped := true, outside := true);
      Next(c, s, flowing) && Next(c, flowing, cancelled) && Draining(c, b, cancelled)
  {
    var p := s.nodes[b].(phase := Flowing);
    var flowing := s.(nodes := s.nodes[b := p]);
    var cancelled := flowing.(stopped := true, outside := true);
    var v, v' := ViewOf(s, b), ViewOf(flowing, b);
    assert Manage(c, b, true, false, v, v', NO_LOSS);
    assert s.chans[b := v'.up][b + 1 := v'.down] == s.chans && s.lost + [] == s.lost;
    assert StageStep(c, b, v', NO_LOSS, s, flowing);
    assert EdgeStep(c, flowing, cancelled);
    StageInv(c, b, v', NO_LOSS, s, flowing);
    EdgeInv(c, flowing, cancelled);
    AllBefore(c, b, s);
    hide Inv;
  }

  lemma AllBefore(c: Config, b: nat, s: State)
    requires Hider(c, b) && Quiet(c, b, s) && Arrived(s, b)
    ensures forall l: nat :: l <= c.K() ==> s.chans[l] == []
    ensures forall k: nat :: k < b ==> s.nodes[k].phase.Closed?
    ensures forall k: nat :: b <= k < c.K() ==> Unspoilt(s.nodes[k].hands)
  {
    forall k: nat | k < b ensures s.nodes[k].phase.Closed? && s.chans[k] == [] {
      ClosedBehind(c, s, k, b - 1);
      assert NodeOk(c, s, k);
    }
    forall k: nat | b <= k < c.K() ensures Unspoilt(s.nodes[k].hands) {
      assert NodeOk(c, s, k);
      forall w | 0 <= w < |s.nodes[k].hands| ensures s.nodes[k].hands[w].Ready? { assert s.nodes[k].hands[w] in s.nodes[k].hands; }
    }
  }

  /** An errorless run of a pipeline can be incomplete exactly when the last of its stages that is not a
      stream is a barrier, and no work fails on the way to that stage. */
  lemma IncompleteExactlyWhen(c: Config)
    requires c.Valid()
    ensures (exists tr, i: nat :: Incomplete(c, tr, i)) <==> Hides(c)
  {
    if tr, i: nat :| Incomplete(c, tr, i) {
      if !Hides(c) { CompleteWithoutError(c, tr, |tr| - 1, i); }
    }
    if Hides(c) {
      var tr := BarrierHidesCancellation(c);
      assert Incomplete(c, tr, 0);
    }
  }
}
