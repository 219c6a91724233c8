/** What every state of every pipeline run keeps: items are conserved and each is at its level. */
module PipelineSafety {
  import opened Common
  import opened Pipeline

  // ----- counting ------------------------------------------------------------------------------------

  /** Copies of index i in a sequence, in the workers' hands, in the channels, in the runners. */
  function Occ(s: seq<Item>, i: nat): nat {
    if s == [] then 0 else (if s[0].index == i then 1 else 0) + Occ(s[1..], i)
  }

  function InHand(h: Hand, i: nat): nat {
    if (h.Holding? || h.Sending?) && h.item.index == i then 1 else 0
  }

  function InHands(hands: seq<Hand>, i: nat): nat {
    if hands == [] then 0 else InHand(hands[0], i) + InHands(hands[1..], i)
  }

  function InChans(chans: seq<seq<Item>>, i: nat): nat {
    if chans == [] then 0 else Occ(chans[0], i) + InChans(chans[1..], i)
  }

  function InNode(p: Node, i: nat): nat { Occ(p.buf, i) + InHands(p.hands, i) }

  function InNodes(nodes: seq<Node>, i: nat): nat {
    if nodes == [] then 0 else InNode(nodes[0], i) + InNodes(nodes[1..], i)
  }

  /** Every copy of index i, wherever it is or went. */
  function Copies(s: State, i: nat): nat {
    InChans(s.chans, i) + InNodes(s.nodes, i) + Occ(s.hits, i) + Occ(s.lost, i)
  }

  function InView(v: View, i: nat): nat { Occ(v.up, i) + InNode(v.node, i) + Occ(v.down, i) }

  lemma {:induction false} OccConcat(a: seq<Item>, b: seq<Item>, i: nat)
    ensures Occ(a + b, i) == Occ(a, i) + Occ(b, i)
  {
    if a == [] { assert a + b == b; } else {
      OccConcat(a[1..], b, i);
      assert (a + b)[1..] == a[1..] + b;
    }
  }

  lemma {:induction false} HandUpdate(hands: seq<Hand>, w: nat, h: Hand, i: nat)
    requires w < |hands|
    ensures InHands(hands[w := h], i) + InHand(hands[w], i) == InHands(hands, i) + InHand(h, i)
  {
    if w == 0 { assert hands[w := h][1..] == hands[1..]; } else {
      HandUpdate(hands[1..], w - 1, h, i);
      assert hands[w := h][1..] == hands[1..][w - 1 := h];
    }
  }

  lemma {:induction false} ChanUpdate(chans: seq<seq<Item>>, j: nat, ch: seq<Item>, i: nat)
    requires j < |chans|
    ensures InChans(chans[j := ch], i) + Occ(chans[j], i) == InChans(chans, i) + Occ(ch, i)
  {
    if j == 0 { assert chans[j := ch][1..] == chans[1..]; } else {
      ChanUpdate(chans[1..], j - 1, ch, i);
      assert chans[j := ch][1..] == chans[1..][j - 1 := ch];
    }
  }

  lemma {:induction false} NodeUpdate(nodes: seq<Node>, j: nat, p: Node, i: nat)
    requires j < |nodes|
    ensures InNodes(nodes[j := p], i) + InNode(nodes[j], i) == InNodes(nodes, i) + InNode(p, i)
  {
    if j == 0 { assert nodes[j := p][1..] == nodes[1..]; } else {
      NodeUpdate(nodes[1..], j - 1, p, i);
      assert nodes[j := p][1..] == nodes[1..][j - 1 := p];
    }
  }

  lemma {:induction false} PickedOcc(s: seq<Item>, i: nat)
    ensures Occ(Picked(s, false), i) + Occ(Picked(s, true), i) == Occ(s, i)
  {
    if s != [] {
      PickedOcc(s[1..], i);
      OccConcat([s[0]], Picked(s[1..], s[0].Flagged()), i);
      assert Picked(s, !s[0].Flagged()) == Picked(s[1..], !s[0].Flagged());
    }
  }

  lemma {:induction false} PickedIn(s: seq<Item>, flagged: bool)
    ensures forall it :: it in Picked(s, flagged) ==> it in s && it.Flagged() == flagged
  {
    if s != [] { PickedIn(s[1..], flagged); }
  }

  lemma {:induction false} InsertKeeps(it: Item, s: seq<Item>, i: nat)
    ensures Occ(Insert(it, s), i) == Occ([it], i) + Occ(s, i)
    ensures forall x :: x in Insert(it, s) <==> x == it || x in s
  {
    if s == [] || it.index <= s[0].index { OccConcat([it], s, i); } else {
      InsertKeeps(it, s[1..], i);
      OccConcat([s[0]], Insert(it, s[1..]), i);
    }
  }

  /** Sorting by index loses and invents nothing. */
  lemma {:induction false} SortedKeeps(s: seq<Item>, i: nat)
    ensures Occ(Sorted(s), i) == Occ(s, i)
    ensures forall x :: x in Sorted(s) <==> x in s
  {
    if s != [] {
      SortedKeeps(s[1..], i);
      InsertKeeps(s[0], Sorted(s[1..]), i);
      assert forall x :: x in s <==> x == s[0] || x in s[1..];
    }
  }

  predicate Ascending(s: seq<Item>) { forall p, q :: 0 <= p < q < |s| ==> s[p].index <= s[q].index }

  lemma {:induction false} InsertAscends(it: Item, s: seq<Item>)
    requires Ascending(s)
    ensures Ascending(Insert(it, s))
  {
    if s != [] && it.index > s[0].index {
      InsertAscends(it, s[1..]);
      InsertKeeps(it, s[1..], 0);
      forall p | 0 <= p < |Insert(it, s[1..])| ensures s[0].index <= Insert(it, s[1..])[p].index {
        assert Insert(it, s[1..])[p] in Insert(it, s[1..]);
      }
    }
  }

  /** An override stage hands its engine the clean items in input order. */
  lemma {:induction false} SortedAscends(s: seq<Item>)
    ensures Ascending(Sorted(s))
  {
    if s != [] {
      SortedAscends(s[1..]);
      InsertAscends(s[0], Sorted(s[1..]));
    }
  }

  lemma {:induction false} SameOcc(a: seq<Item>, b: seq<Item>, i: nat)
    requires |a| == |b| && forall p :: 0 <= p < |a| ==> a[p].index == b[p].index
    ensures Occ(a, i) == Occ(b, i)
  {
    if a != [] { SameOcc(a[1..], b[1..], i); }
  }

  /** An engine run gives back exactly the indices it was given. */
  lemma EngineKeeps(c: Config, j: nat, buf: seq<Item>, buf': seq<Item>, i: nat)
    requires EngineRan(c, j, buf, buf')
    ensures Occ(buf', i) == Occ(buf, i)
  {
    var clean := Sorted(Picked(buf, false));
    var made :| Engine(c, j, clean, made) && buf' == made + Picked(buf, true);
    forall p | 0 <= p < |made| ensures made[p].index == clean[p].index { assert Answered(c, j, clean[p], p, made[p]); }
    SameOcc(made, clean, i);
    SortedKeeps(Picked(buf, false), i);
    OccConcat(made, Picked(buf, true), i);
    PickedOcc(buf, i);
  }

  lemma ManageKeeps(c: Config, j: nat, upClosed: bool, stopped: bool, v: View, v': View, x: Loss, i: nat)
    requires j < c.K() && Manage(c, j, upClosed, stopped, v, v', x)
    ensures InView(v, i) == InView(v', i) + Occ(x.items, i)
  {
    var p := v.node;
    if p.phase.Filling? {
      if v.up != [] { OccConcat(p.buf, [v.up[0]], i); }
      else if v'.node.phase.Emitting? { EngineKeeps(c, j, p.buf, v'.node.buf, i); }
    } else if p.phase.Emitting? && p.buf != [] { OccConcat(v.down, [p.buf[0]], i); }
  }

  lemma HandleKeeps(c: Config, j: nat, w: nat, upClosed: bool, stopped: bool, v: View, v': View, x: Loss, i: nat)
    requires j < c.K() && WorkerMove(c, j, w, upClosed, stopped, v, v', x)
    ensures InView(v, i) == InView(v', i) + Occ(x.items, i)
  {
    var h, h' := v.node.hands[w], v'.node.hands[w];
    HandUpdate(v.node.hands, w, h', i);
    hide InHands;
    if h.Sending? { OccConcat(v.down, [h.item], i); }
  }

  lemma StageKeeps(c: Config, j: nat, v': View, x: Loss, s: State, s': State, i: nat)
    requires StageStep(c, j, v', x, s, s')
    ensures Copies(s', i) == Copies(s, i)
  {
    hide Manage, WorkerMove;
    var v := ViewOf(s, j);
    if w :| WorkerMove(c, j, w, UpClosed(s, j), s.stopped, v, v', x) {
      HandleKeeps(c, j, w, UpClosed(s, j), s.stopped, v, v', x, i);
    } else {
      ManageKeeps(c, j, UpClosed(s, j), s.stopped, v, v', x, i);
    }
    hide Occ, InChans, InNodes, InNode;
    assert InNode(v.node, i) == InNode(s.nodes[j], i);
    ChanUpdate(s.chans, j, v'.up, i);
    ChanUpdate(s.chans[j := v'.up], j + 1, v'.down, i);
    NodeUpdate(s.nodes, j, v'.node, i);
    OccConcat(s.lost, x.items, i);
  }

  lemma EdgeKeeps(c: Config, s: State, s': State, i: nat)
    requires EdgeStep(c, s, s')
    ensures Copies(s', i) == Copies(s, i)
  {
    if Collect(c, s, s') {
      var last := s.chans[c.K()];
      ChanUpdate(s.chans, c.K(), last[1..], i);
      OccConcat(s.hits, [last[0]], i);
      assert Occ([last[0]], i) + Occ(last[1..], i) == Occ(last, i);
    } else if s.chans[0] != [] {
      ChanUpdate(s.chans, 0, [], i);
      OccConcat(s.lost, s.chans[0], i);
    }
  }

  // ----- levels ------------------------------------------------------------------------------------

  ghost predicate AtLevel(c: Config, it: Item, j: nat) {
    it.index < c.N() && Level(c, it.index, j) == Some(it)
  }

  ghost predicate AllAt(c: Config, s: seq<Item>, j: nat) { forall p :: 0 <= p < |s| ==> AtLevel(c, s[p], j) }

  ghost predicate HandAt(c: Config, h: Hand, j: nat) {
    && (h.Holding? ==> !h.item.Flagged() && AtLevel(c, h.item, j))
    && (h.Sending? ==> AtLevel(c, h.item, j + 1))
  }

  ghost predicate ViewAt(c: Config, j: nat, v: View) {
    && AllAt(c, v.up, j)
    && AllAt(c, v.node.buf, if v.node.phase.Emitting? then j + 1 else j)
    && (forall w :: 0 <= w < |v.node.hands| ==> HandAt(c, v.node.hands[w], j))
    && AllAt(c, v.down, j + 1)
  }

  lemma PassAt(c: Config, j: nat, it: Item, it': Item)
    requires AtLevel(c, it, j) && Pass(c, j, it) == Some(it')
    ensures AtLevel(c, it', j + 1)
  {}

  /** Whatever position an item had in the nested run, the stage does to it what `Pass` says: the flag it
      comes back with is its own. */
  lemma ReissuedIsPass(c: Config, j: nat, it: Item, p: nat)
    requires !it.Flagged()
    ensures Pass(c, j, it) == if Answer(c, j, it, p).Some? then Some(Reissued(it, Answer(c, j, it, p).value)) else None
  {}

  lemma EngineAt(c: Config, j: nat, buf: seq<Item>, buf': seq<Item>)
    requires AllAt(c, buf, j) && EngineRan(c, j, buf, buf')
    ensures AllAt(c, buf', j + 1)
  {
    var clean := Sorted(Picked(buf, false));
    var made :| Engine(c, j, clean, made) && buf' == made + Picked(buf, true);
    PickedIn(buf, false);
    PickedIn(buf, true);
    SortedKeeps(Picked(buf, false), 0);
    forall p | 0 <= p < |buf'| ensures AtLevel(c, buf'[p], j + 1) {
      if p < |made| {
        assert clean[p] in clean && Answered(c, j, clean[p], p, made[p]);
        ReissuedIsPass(c, j, clean[p], p);
        PassAt(c, j, clean[p], made[p]);
      } else {
        assert buf'[p] in Picked(buf, true);
        PassAt(c, j, buf'[p], buf'[p]);
      }
    }
  }

  lemma NodeMoveAt(c: Config, j: nat, upClosed: bool, stopped: bool, v: View, v': View, x: Loss)
    requires j < c.K() && NodeMove(c, j, upClosed, stopped, v, v', x) && ViewAt(c, j, v)
    ensures ViewAt(c, j, v')
  {
    if w :| WorkerMove(c, j, w, upClosed, stopped, v, v', x) {
      HandMoveAt(c, j, w, upClosed, stopped, v, v', x);
    } else if v.node.phase.Filling? && v'.node.phase.Emitting? {
      EngineAt(c, j, v.node.buf, v'.node.buf);
    }
  }

  lemma HandMoveAt(c: Config, j: nat, w: nat, upClosed: bool, stopped: bool, v: View, v': View, x: Loss)
    requires j < c.K() && WorkerMove(c, j, w, upClosed, stopped, v, v', x) && ViewAt(c, j, v)
    ensures ViewAt(c, j, v')
  {
    var h, h' := v.node.hands[w], v'.node.hands[w];
    assert HandAt(c, h, j);
    assert HandAt(c, h', j) by {
      if h.Holding? && h'.Sending? { PassAt(c, j, h.item, h'.item); }
      if h.Ready? && h'.Sending? { PassAt(c, j, h'.item, h'.item); }
    }
  }

  // ----- protocol ----------------------------------------------------------------------------------

  /** Nothing will come any more. */
  predicate Dry(upClosed: bool, up: seq<Item>) { upClosed && up == [] }

  predicate AllReady(hands: seq<Hand>) { forall h :: h in hands ==> h.Ready? }

  /** What a runner in each phase looks like; a runner that closed without an error has seen the end
      of its input and its workers have all finished. */
  ghost predicate Orderly(c: Config, j: nat, errored: bool, upClosed: bool, up: seq<Item>, p: Node)
    requires j < c.K()
  {
    var kind := c.stages[j].kind;
    && |p.hands| == (if kind.Override? then 0 else c.stages[j].workers)
    && (p.phase.Starting? || p.phase.Filling? ==> AllReady(p.hands))
    && (kind.Stream? || p.phase.Starting? || p.phase.Closed? ==> p.buf == [])
    && (p.phase.Filling? ==> !kind.Stream?) && (p.phase.Emitting? ==> kind.Override?) && (p.phase.Flowing? ==> !kind.Override?)
    && ((p.phase.Flowing? && kind.Barrier?) || p.phase.Emitting? ==> Dry(upClosed, up))
    && (Gone(true) in p.hands ==> if kind.Barrier? then p.buf == [] else Dry(upClosed, up))
    && (p.phase.Closed? && !errored ==> Dry(upClosed, up) && forall h :: h in p.hands ==> h == Gone(true))
  }

  lemma ManageOrderly(c: Config, j: nat, errored: bool, upClosed: bool, stopped: bool, v: View, v': View, x: Loss)
    requires c.Valid() && j < c.K() && Manage(c, j, upClosed, stopped, v, v', x) && Orderly(c, j, errored, upClosed, v.up, v.node)
    ensures Orderly(c, j, errored || x.err, upClosed, v'.up, v'.node)
    ensures x.items != [] ==> x.err || (c.stages[j].kind.Barrier? && stopped && v.node.phase.Flowing?)
    ensures v'.node.hands == v.node.hands
    ensures stopped && !c.stages[j].kind.Stream? && Waits(v.node) ==> x.err || Waits(v'.node)
  {
    var p := v.node;
    if p.phase.Flowing? && AllGone(p.hands) && !Broken(p.hands) {
      assert c.stages[j] in c.stages;
      forall h | h in p.hands ensures h == Gone(true) { assert h != Gone(false); }
      assert p.hands[0] in p.hands;
    }
  }

  lemma HandleOrderly(c: Config, j: nat, w: nat, errored: bool, upClosed: bool, stopped: bool, v: View, v': View, x: Loss)
    requires j < c.K() && WorkerMove(c, j, w, upClosed, stopped, v, v', x) && Orderly(c, j, errored, upClosed, v.up, v.node)
    ensures Orderly(c, j, errored || x.err, upClosed, v'.up, v'.node)
    ensures x.items != [] ==> Broken(v'.node.hands)
    ensures Broken(v.node.hands) ==> Broken(v'.node.hands)
  {
    var hs, hs' := v.node.hands, v'.node.hands;
    assert hs'[w] in hs';
    if Broken(hs) {
      var u :| 0 <= u < |hs| && hs[u] == Gone(false);
      assert hs'[u] == hs[u];
    }
    if Gone(true) in hs' {
      var u :| 0 <= u < |hs'| && hs'[u] == Gone(true);
      if u != w { assert hs[u] in hs; }
    }
  }

  lemma OrderlyStable(c: Config, j: nat, e: bool, e': bool, uc: bool, uc': bool, up: seq<Item>, up': seq<Item>, p: Node)
    requires j < c.K() && Orderly(c, j, e, uc, up, p) && (e ==> e') && (Dry(uc, up) ==> Dry(uc', up'))
    ensures Orderly(c, j, e', uc', up', p)
  {}

  ghost predicate NodeOk(c: Config, s: State, j: nat)
    requires Shaped(c, s) && j < c.K()
  {
    && ViewAt(c, j, ViewOf(s, j))
    && Orderly(c, j, s.errored, UpClosed(s, j), s.chans[j], s.nodes[j])
    && |s.chans[j + 1]| <= CAPACITY
  }

  /** The runner has not yet seen the end of its input, after which it checks its context. */
  predicate Waits(p: Node) { p.phase.Starting? || p.phase.Filling? }

  /** Stage j is a barrier that every item can reach, and every later stage that is not a stream still has
      to check its context: should one of them do so after a cancellation, it fails. */
  ghost predicate HidesAt(c: Config, s: State, j: nat)
    requires Shaped(c, s)
  {
    && j < c.K() && c.stages[j].kind.Barrier?
    && (forall i: nat :: i < c.N() ==> Level(c, i, j).Some?)
    && (forall k: nat :: j < k < c.K() && !c.stages[k].kind.Stream? ==> Waits(s.nodes[k]))
  }

  ghost predicate Hidden(c: Config, s: State)
    requires Shaped(c, s)
  { exists j: nat :: HidesAt(c, s, j) }

  ghost predicate SomeBroken(s: State) { exists j :: 0 <= j < |s.nodes| && Broken(s.nodes[j].hands) }

  ghost predicate Collected(c: Config, s: State, i: nat) {
    && (i in s.results <==> Occ(s.hits, i) > 0)
    && (i in s.results ==> i < c.N() && Level(c, i, c.K()) == Some(s.results[i]))
  }

  ghost predicate Inv(c: Config, s: State) {
    && c.Valid() && Shaped(c, s)
    && (forall i: nat :: Copies(s, i) == if i < c.N() then 1 else 0)
    && (forall j: nat :: j < c.K() ==> NodeOk(c, s, j))
    && (forall i: nat :: Collected(c, s, i))
    && (s.errored ==> s.stopped) && (s.stopped ==> s.errored || s.outside) && (s.outside ==> s.stopped)
    && (s.lost != [] ==> s.errored || SomeBroken(s) || (s.outside && Hidden(c, s)))
  }

  lemma StageInv(c: Config, j: nat, v': View, x: Loss, s: State, s': State)
    requires Inv(c, s) && StageStep(c, j, v', x, s, s')
    ensures Inv(c, s')
  {
    var v, uc := ViewOf(s, j), UpClosed(s, j);
    assert NodeOk(c, s, j);
    assert Orderly(c, j, s'.errored, uc, v'.up, v'.node) && ViewAt(c, j, v') && |v'.down| <= CAPACITY && |v'.up| <= |v.up|
      && (Broken(v.node.hands) ==> Broken(v'.node.hands))
      && Explained(c, j, x, v', s) && !v.node.phase.Closed? by { LocalInv(c, j, v', x, s, s'); }
    hide Orderly, ViewAt, NodeMove, Level, Copies;
    forall i: nat ensures Copies(s', i) == if i < c.N() then 1 else 0 { StageKeeps(c, j, v', x, s, s', i); }
    forall l: nat | l < c.K() ensures NodeOk(c, s', l) { StageNodeOk(c, j, v', x, s, s', l); }
    forall i: nat ensures Collected(c, s', i) { assert Collected(c, s, i); }
    if s'.lost != [] { StageReason(c, j, v', x, s, s'); }
  }

  /** Why stage j dropped something, and what it does not do after a cancellation. */
  ghost predicate Explained(c: Config, j: nat, x: Loss, v': View, s: State)
    requires Shaped(c, s) && j < c.K()
  {
    && (x.items != [] ==> x.err || Broken(v'.node.hands) || (c.stages[j].kind.Barrier? && s.stopped && s.nodes[j].phase.Flowing?))
    && (s.stopped && !c.stages[j].kind.Stream? && Waits(s.nodes[j]) ==> x.err || Waits(v'.node))
  }

  lemma LocalInv(c: Config, j: nat, v': View, x: Loss, s: State, s': State)
    requires StageStep(c, j, v', x, s, s') && c.Valid() && NodeOk(c, s, j)
    ensures Orderly(c, j, s'.errored, UpClosed(s, j), v'.up, v'.node) && ViewAt(c, j, v')
    ensures |v'.down| <= CAPACITY && |v'.up| <= |s.chans[j]|
    ensures Broken(s.nodes[j].hands) ==> Broken(v'.node.hands)
    ensures Explained(c, j, x, v', s) && !s.nodes[j].phase.Closed?
  {
    var v, uc := ViewOf(s, j), UpClosed(s, j);
    NodeMoveAt(c, j, uc, s.stopped, v, v', x);
    hide Orderly, ViewAt, AllAt;
    if w :| WorkerMove(c, j, w, uc, s.stopped, v, v', x) {
      HandleOrderly(c, j, w, s.errored, uc, s.stopped, v, v', x);
    } else {
      ManageOrderly(c, j, s.errored, uc, s.stopped, v, v', x);
    }
  }

  lemma StageNodeOk(c: Config, j: nat, v': View, x: Loss, s: State, s': State, l: nat)
    requires StageStep(c, j, v', x, s, s') && l < c.K() && NodeOk(c, s, l) && NodeOk(c, s, j)
    requires Orderly(c, j, s'.errored, UpClosed(s, j), v'.up, v'.node) && ViewAt(c, j, v')
    requires |v'.down| <= CAPACITY && |v'.up| <= |s.chans[j]|
    requires !s.nodes[j].phase.Closed?
    ensures NodeOk(c, s', l)
  {
    hide Orderly, NodeMove, Level;
    if l == j { assert ViewOf(s', l) == v'; }
    else {
      OrderlyStable(c, l, s.errored, s'.errored, UpClosed(s, l), UpClosed(s', l), s.chans[l], s'.chans[l], s.nodes[l]);
      assert s'.nodes[l] == s.nodes[l];
      if l == j + 1 { assert s'.chans[l] == v'.down && s'.chans[l + 1] == s.chans[l + 1]; }
      else if l + 1 == j { assert s'.chans[l + 1] == v'.up && s'.chans[l] == s.chans[l]; }
      else { assert s'.chans[l] == s.chans[l] && s'.chans[l + 1] == s.chans[l + 1]; }
    }
  }

  lemma StageReason(c: Config, j: nat, v': View, x: Loss, s: State, s': State)
    requires Inv(c, s) && StageStep(c, j, v', x, s, s') && Explained(c, j, x, v', s)
    requires Broken(s.nodes[j].hands) ==> Broken(v'.node.hands)
    ensures s'.lost != [] ==> s'.errored || SomeBroken(s') || (s'.outside && Hidden(c, s'))
  {
    if !s'.errored && !Broken(v'.node.hands) && s'.lost != [] && !SomeBroken(s) {
      var b: nat;
      if s.lost != [] {
        b :| HidesAt(c, s, b);
      } else {
        b := j;
        FirstLoss(c, s, j);
      }
      StillHides(c, j, v', x, s, s', b);
    }
    hide Inv, NodeMove, Level, Copies, Broken;
    if Broken(v'.node.hands) { assert Broken(s'.nodes[j].hands); }
    else if SomeBroken(s) {
      var l :| 0 <= l < |s.nodes| && Broken(s.nodes[l].hands);
      assert Broken(s'.nodes[l].hands);
    }
  }

  lemma StillHides(c: Config, j: nat, v': View, x: Loss, s: State, s': State, b: nat)
    requires StageStep(c, j, v', x, s, s') && Explained(c, j, x, v', s) && HidesAt(c, s, b) && s.stopped && !s'.errored
    ensures HidesAt(c, s', b)
  {
    hide NodeMove, Level;
  }

  /** If the last runner closed without an error, so did all before it. */
  lemma {:induction false} ClosedBehind(c: Config, s: State, j: nat, k: nat)
    requires Inv(c, s) && !s.errored && j <= k < c.K() && s.nodes[k].phase.Closed?
    ensures s.nodes[j].phase.Closed?
    decreases k
  {
    assert NodeOk(c, s, k);
    if j < k { ClosedBehind(c, s, j, k - 1); }
  }

  lemma {:induction false} LevelStaysNone(c: Config, i: nat, j: nat, k: nat)
    requires i < c.N() && j <= k && Level(c, i, j) == None
    ensures Level(c, i, k) == None
  {
    if j < k { LevelStaysNone(c, i, j, k - 1); }
  }

  lemma {:induction false} NoneAt(c: Config, s: seq<Item>, i: nat, j: nat)
    requires i < c.N() && AllAt(c, s, j) && Level(c, i, j) == None
    ensures Occ(s, i) == 0
  {
    if s != [] {
      assert AtLevel(c, s[0], j);
      forall p | 0 <= p < |s[1..]| ensures AtLevel(c, s[1..][p], j) { assert s[1..][p] == s[p + 1]; }
      NoneAt(c, s[1..], i, j);
    }
  }

  lemma {:induction false} NoneInHandsAt(c: Config, hands: seq<Hand>, i: nat, j: nat)
    requires i < c.N() && (forall w :: 0 <= w < |hands| ==> HandAt(c, hands[w], j)) && Level(c, i, j) == None
    ensures InHands(hands, i) == 0
  {
    if hands != [] {
      assert HandAt(c, hands[0], j);
      LevelStaysNone(c, i, j, j + 1);
      forall w | 0 <= w < |hands[1..]| ensures HandAt(c, hands[1..][w], j) { assert hands[1..][w] == hands[w + 1]; }
      NoneInHandsAt(c, hands[1..], i, j);
    }
  }

  lemma {:induction false} NoneInChans(chans: seq<seq<Item>>, i: nat)
    requires forall l :: 0 <= l < |chans| ==> Occ(chans[l], i) == 0
    ensures InChans(chans, i) == 0
  {
    if chans != [] { NoneInChans(chans[1..], i); }
  }

  lemma {:induction false} NoneInNodes(nodes: seq<Node>, i: nat)
    requires forall l :: 0 <= l < |nodes| ==> InNode(nodes[l], i) == 0
    ensures InNodes(nodes, i) == 0
  {
    if nodes != [] { NoneInNodes(nodes[1..], i); }
  }

  /** A barrier that replays while nothing has gone wrong has been reached by every item, and no later
      barrier or override has seen the end of its input. */
  lemma FirstLoss(c: Config, s: State, j: nat)
    requires Inv(c, s) && !s.errored && s.lost == [] && j < c.K() && c.stages[j].kind.Barrier? && s.nodes[j].phase.Flowing?
    ensures HidesAt(c, s, j)
  {
    forall k: nat | j < k < c.K() && !c.stages[k].kind.Stream? ensures Waits(s.nodes[k]) { LaterWaits(c, s, j, k); }
    forall i: nat | i < c.N() ensures Level(c, i, j).Some? {
      if Level(c, i, j) == None {
        forall l | 0 <= l < |s.chans| ensures Occ(s.chans[l], i) == 0 { NotInChan(c, s, j, i, l); }
        forall l | 0 <= l < |s.nodes| ensures InNode(s.nodes[l], i) == 0 { NotInNode(c, s, j, i, l); }
        NoneInChans(s.chans, i);
        NoneInNodes(s.nodes, i);
        LevelStaysNone(c, i, j, c.K());
        assert Collected(c, s, i) && Copies(s, i) == 1;
      }
    }
  }

  lemma LaterWaits(c: Config, s: State, j: nat, k: nat)
    requires Inv(c, s) && !s.errored && j < k < c.K() && !c.stages[k].kind.Stream? && !s.nodes[j].phase.Closed?
    ensures Waits(s.nodes[k])
  {
    assert NodeOk(c, s, k);
    if !Waits(s.nodes[k]) { ClosedBehind(c, s, j, k - 1); }
  }

  lemma NotInChan(c: Config, s: State, j: nat, i: nat, l: nat)
    requires Inv(c, s) && !s.errored && j < c.K() && c.stages[j].kind.Barrier? && s.nodes[j].phase.Flowing?
    requires i < c.N() && Level(c, i, j) == None && l < |s.chans|
    ensures Occ(s.chans[l], i) == 0
  {
    assert NodeOk(c, s, j);
    if l < j {
      ClosedBehind(c, s, l, j - 1);
      assert NodeOk(c, s, l);
    } else if l > j {
      assert NodeOk(c, s, l - 1);
      LevelStaysNone(c, i, j, l);
      NoneAt(c, s.chans[l], i, l);
    }
  }

  lemma NotInNode(c: Config, s: State, j: nat, i: nat, l: nat)
    requires Inv(c, s) && !s.errored && j < c.K() && c.stages[j].kind.Barrier? && s.nodes[j].phase.Flowing?
    requires i < c.N() && Level(c, i, j) == None && l < |s.nodes|
    ensures InNode(s.nodes[l], i) == 0
  {
    assert NodeOk(c, s, j) && NodeOk(c, s, l);
    var p := s.nodes[l];
    if l < j {
      ClosedBehind(c, s, l, j - 1);
      NoneInHands(p.hands, i);
    } else {
      LevelStaysNone(c, i, j, l);
      LevelStaysNone(c, i, j, l + 1);
      NoneAt(c, p.buf, i, if p.phase.Emitting? then l + 1 else l);
      NoneInHandsAt(c, p.hands, i, l);
    }
  }

  lemma EdgeInv(c: Config, s: State, s': State)
    requires Inv(c, s) && EdgeStep(c, s, s')
    ensures Inv(c, s')
  {
    hide Orderly, Copies, Level, Broken;
    forall i: nat ensures Copies(s', i) == if i < c.N() then 1 else 0 { EdgeKeeps(c, s, s', i); }
    forall l: nat | l < c.K() ensures NodeOk(c, s', l) {
      assert NodeOk(c, s, l);
      OrderlyStable(c, l, s.errored, s'.errored, UpClosed(s, l), UpClosed(s', l), s.chans[l], s'.chans[l], s.nodes[l]);
    }
    if SomeBroken(s) { assert SomeBroken(s'); }
    if b: nat :| HidesAt(c, s, b) { assert HidesAt(c, s', b); }
    forall i: nat ensures Collected(c, s', i) {
      assert Collected(c, s, i);
      if Collect(c, s, s') { CollectedOk(c, s, s', i); }
    }
  }

  lemma CollectedOk(c: Config, s: State, s': State, i: nat)
    requires Inv(c, s) && Collect(c, s, s')
    ensures Collected(c, s', i)
  {
    var it := s.chans[c.K()][0];
    assert Collected(c, s, i) && NodeOk(c, s, c.K() - 1);
    OccConcat(s.hits, [it], i);
    assert Occ([it], i) == if it.index == i then 1 else 0;
    assert AtLevel(c, s.chans[c.K()][0], c.K());
  }

  lemma {:induction false} InitCopies(c: Config, i: nat, lo: nat)
    requires lo <= c.N()
    ensures Occ(seq(c.N(), k requires 0 <= k < c.N() => Item(k, Clean(c.inputs[k])))[lo..], i) == if lo <= i < c.N() then 1 else 0
    decreases c.N() - lo
  {
    var all := seq(c.N(), k requires 0 <= k < c.N() => Item(k, Clean(c.inputs[k])));
    if lo < c.N() {
      assert all[lo..][0] == all[lo] && all[lo..][1..] == all[lo + 1..];
      InitCopies(c, i, lo + 1);
    }
  }

  lemma {:induction false} EmptyChans(chans: seq<seq<Item>>, i: nat)
    requires forall j :: 0 <= j < |chans| ==> chans[j] == []
    ensures InChans(chans, i) == 0
  {
    if chans != [] { EmptyChans(chans[1..], i); }
  }

  lemma {:induction false} EmptyNodes(nodes: seq<Node>, i: nat)
    requires forall j :: 0 <= j < |nodes| ==> nodes[j].buf == [] && forall h :: h in nodes[j].hands ==> h.Ready? || h.Gone?
    ensures InNodes(nodes, i) == 0
  {
    if nodes != [] {
      NoneInHands(nodes[0].hands, i);
      EmptyNodes(nodes[1..], i);
    }
  }

  lemma {:induction false} NoneInHands(hands: seq<Hand>, i: nat)
    requires forall h :: h in hands ==> h.Ready? || h.Gone?
    ensures InHands(hands, i) == 0
  {
    if hands != [] { assert hands[0] in hands; NoneInHands(hands[1..], i); }
  }

  lemma InitInv(c: Config, s: State)
    requires Init(c, s)
    ensures Inv(c, s)
  {
    var all := seq(c.N(), k requires 0 <= k < c.N() => Item(k, Clean(c.inputs[k])));
    forall i: nat ensures Copies(s, i) == if i < c.N() then 1 else 0 {
      InitCopies(c, i, 0);
      assert all[0..] == all == s.chans[0] && s.chans[1..] == seq(c.K(), _ => []);
      EmptyChans(s.chans[1..], i);
      EmptyNodes(s.nodes, i);
    }
    forall j: nat | j < c.K() ensures NodeOk(c, s, j) { assert c.stages[j] in c.stages; }
  }

  /** The invariant holds in every state of every run, under every schedule. */
  lemma {:induction false} RunInv(c: Config, tr: seq<State>, t: nat)
    requires Run(c, tr) && t < |tr|
    ensures Inv(c, tr[t])
  {
    hide Inv, Init, EdgeStep, StageStep;
    if t == 0 { InitInv(c, tr[0]); } else {
      RunInv(c, tr, t - 1);
      assert Next(c, tr[t - 1], tr[t - 1 + 1]);
      if EdgeStep(c, tr[t - 1], tr[t]) { EdgeInv(c, tr[t - 1], tr[t]); }
      else {
        var j, v', x :| StageStep(c, j, v', x, tr[t - 1], tr[t]);
        StageInv(c, j, v', x, tr[t - 1], tr[t]);
      }
    }
  }
}
