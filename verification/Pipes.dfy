/** Composing steps into pipelines: nested pipes flatten, so only the order of the stages matters. */
module Pipes {
  import opened Common
  import opened Pipeline

  /** One stage and what its work does to a value of the item at an index. */
  datatype Spec = Spec(stage: Stage, work: (nat, Value) -> Effect)

  /** A step is a single stage, or an already flattened list of stages. */
  datatype Step = Single(name: string, spec: Spec) | Composed(name: string, stages: seq<Spec>)

  function StagesOf(s: Step): seq<Spec> {
    match s
    case Single(_, spec) => [spec]
    case Composed(_, stages) => stages
  }

  function Flatten(groups: seq<seq<Spec>>): seq<Spec> {
    if groups == [] then [] else groups[0] + Flatten(groups[1..])
  }

  method CombineStages(groups: seq<seq<Spec>>) returns (combined: seq<Spec>)
    ensures combined == Flatten(groups)
  {
    combined := [];
    var i := 0;
    while i < |groups|
      invariant 0 <= i <= |groups|
      invariant combined + Flatten(groups[i..]) == Flatten(groups)
    {
      combined := combined + groups[i];
      i := i + 1;
    }
  }

  /** Names joined by bars. */
  function Joined(names: seq<string>): string {
    if names == [] then "" else if |names| == 1 then names[0] else names[0] + "|" + Joined(names[1..])
  }

  method PipeName(names: seq<string>) returns (joined: string)
    ensures joined == Joined(names)
  {
    joined := "";
    var i := 0;
    while i < |names|
      invariant 0 <= i <= |names|
      invariant joined == Joined(names[..i])
    {
      JoinedSnoc(names[..i], names[i]);
      assert names[..i] + [names[i]] == names[..i + 1];
      if i > 0 { joined := joined + "|"; }
      joined := joined + names[i];
      i := i + 1;
    }
    assert names[..i] == names;
  }

  lemma {:induction false} JoinedSnoc(names: seq<string>, name: string)
    ensures Joined(names + [name]) == if names == [] then name else Joined(names) + "|" + name
  {
    if |names| > 0 {
      assert (names + [name])[1..] == names[1..] + [name];
      JoinedSnoc(names[1..], name);
      if |names| > 1 {
        assert names[0] + "|" + (Joined(names[1..]) + "|" + name) == names[0] + "|" + Joined(names[1..]) + "|" + name;
      }
    }
  }

  function Pipe(steps: seq<Step>): Step
  {
    Composed(Joined(Names(steps)), Flatten(Groups(steps)))
  }

  function Names(steps: seq<Step>): (r: seq<string>)
    ensures |r| == |steps|
  { seq(|steps|, i requires 0 <= i < |steps| => steps[i].name) }

  function Groups(steps: seq<Step>): (r: seq<seq<Spec>>)
    ensures |r| == |steps|
  { seq(|steps|, i requires 0 <= i < |steps| => StagesOf(steps[i])) }

  function Pipe2(a: Step, b: Step): Step { Pipe([a, b]) }
  function Pipe3(a: Step, b: Step, c: Step): Step { Pipe([a, b, c]) }
  function Pipe4(a: Step, b: Step, c: Step, d: Step): Step { Pipe([a, b, c, d]) }

  /** Any nesting of the pipe constructors over a sequence of steps. */
  datatype Nest = One(step: Step) | Two(a: Nest, b: Nest) | Three(a: Nest, b: Nest, c: Nest)
                | Four(a: Nest, b: Nest, c: Nest, d: Nest)
  {
    function Build(): Step {
      match this
      case One(s) => s
      case Two(a, b) => Pipe2(a.Build(), b.Build())
      case Three(a, b, c) => Pipe3(a.Build(), b.Build(), c.Build())
      case Four(a, b, c, d) => Pipe4(a.Build(), b.Build(), c.Build(), d.Build())
    }

    /** The steps at the leaves, left to right. */
    function Leaves(): (r: seq<Step>)
      ensures |r| >= 1
    {
      match this
      case One(s) => [s]
      case Two(a, b) => a.Leaves() + b.Leaves()
      case Three(a, b, c) => a.Leaves() + b.Leaves() + c.Leaves()
      case Four(a, b, c, d) => a.Leaves() + b.Leaves() + c.Leaves() + d.Leaves()
    }
  }

  lemma {:induction false} FlattenConcat(a: seq<seq<Spec>>, b: seq<seq<Spec>>)
    ensures Flatten(a + b) == Flatten(a) + Flatten(b)
  {
    if a == [] { assert a + b == b; } else {
      assert (a + b)[1..] == a[1..] + b;
      FlattenConcat(a[1..], b);
    }
  }

  lemma {:induction false} JoinedConcat(a: seq<string>, b: seq<string>)
    requires a != [] && b != []
    ensures Joined(a + b) == Joined(a) + "|" + Joined(b)
  {
    assert (a + b)[1..] == a[1..] + b;
    if |a| > 1 {
      JoinedConcat(a[1..], b);
      assert a[0] + "|" + (Joined(a[1..]) + "|" + Joined(b)) == a[0] + "|" + Joined(a[1..]) + "|" + Joined(b);
    }
  }

  /** Two neighbouring pieces of a pipeline are one piece, in stages and in name. */
  lemma Merge(a: seq<Step>, b: seq<Step>)
    ensures Flatten(Groups(a + b)) == Flatten(Groups(a)) + Flatten(Groups(b))
    ensures a != [] && b != [] ==> Joined(Names(a + b)) == Joined(Names(a)) + "|" + Joined(Names(b))
  {
    assert Groups(a + b) == Groups(a) + Groups(b) && Names(a + b) == Names(a) + Names(b);
    FlattenConcat(Groups(a), Groups(b));
    if a != [] && b != [] { JoinedConcat(Names(a), Names(b)); }
  }

  /** A built pipeline is worth the flat pipe of the given steps. */
  ghost predicate Worth(s: Step, steps: seq<Step>) {
    StagesOf(s) == Flatten(Groups(steps)) && s.name == Joined(Names(steps))
  }

  lemma PipeWorth(a: Step, b: Step, la: seq<Step>, lb: seq<Step>)
    requires Worth(a, la) && Worth(b, lb) && la != [] && lb != []
    ensures Worth(Pipe2(a, b), la + lb)
  {
    Merge(la, lb);
    assert Groups([a, b]) == [StagesOf(a), StagesOf(b)] && Names([a, b]) == [a.name, b.name];
    assert Flatten([StagesOf(a), StagesOf(b)][1..]) == StagesOf(b) + Flatten([]);
    assert [a.name, b.name][1..] == [b.name] && Joined([b.name]) == b.name;
    assert Joined([a.name, b.name]) == a.name + "|" + b.name;
  }

  /** Longer pipes are nested pairs, in stages and in name. */
  lemma PairsSuffice(a: Step, b: Step, c: Step, d: Step)
    ensures Pipe3(a, b, c) == Pipe2(Pipe2(a, b), c)
    ensures Pipe4(a, b, c, d) == Pipe2(Pipe3(a, b, c), d)
    ensures Pipe2(Pipe2(a, b), c) == Pipe2(a, Pipe2(b, c))
  {
    forall s: Step ensures Worth(s, [s]) {
      assert Groups([s]) == [StagesOf(s)] && Names([s]) == [s.name];
      assert Flatten([StagesOf(s)][1..]) == [];
    }
    PipeWorth(a, b, [a], [b]);
    PipeWorth(b, c, [b], [c]);
    PipeWorth(Pipe2(a, b), c, [a] + [b], [c]);
    PipeWorth(a, Pipe2(b, c), [a], [b] + [c]);
    assert [a] + [b] + [c] == [a, b, c] == [a] + ([b] + [c]);
    PipeWorth(Pipe3(a, b, c), d, [a, b, c], [d]);
    assert [a, b, c] + [d] == [a, b, c, d];
  }

  lemma {:induction false} BuildWorth(n: Nest)
    ensures Worth(n.Build(), n.Leaves())
  {
    match n {
      case One(s) =>
        assert Groups([s]) == [StagesOf(s)] && Names([s]) == [s.name];
        assert Flatten([StagesOf(s)][1..]) == [];
      case Two(a, b) =>
        BuildWorth(a); BuildWorth(b);
        PipeWorth(a.Build(), b.Build(), a.Leaves(), b.Leaves());
      case Three(a, b, c) =>
        BuildWorth(a); BuildWorth(b); BuildWorth(c);
        PairsSuffice(a.Build(), b.Build(), c.Build(), c.Build());
        PipeWorth(a.Build(), b.Build(), a.Leaves(), b.Leaves());
        PipeWorth(Pipe2(a.Build(), b.Build()), c.Build(), a.Leaves() + b.Leaves(), c.Leaves());
      case Four(a, b, c, d) =>
        BuildWorth(a); BuildWorth(b); BuildWorth(c); BuildWorth(d);
        PairsSuffice(a.Build(), b.Build(), c.Build(), d.Build());
        PipeWorth(a.Build(), b.Build(), a.Leaves(), b.Leaves());
        PipeWorth(Pipe2(a.Build(), b.Build()), c.Build(), a.Leaves() + b.Leaves(), c.Leaves());
        PipeWorth(Pipe3(a.Build(), b.Build(), c.Build()), d.Build(), a.Leaves() + b.Leaves() + c.Leaves(), d.Leaves());
    }
  }

  // ----- what a composed step computes -----------------------------------------------------------

  /** The pipeline that a list of stages runs as. */
  function Running(specs: seq<Spec>, inputs: seq<Value>): Config {
    Config(seq(|specs|, j requires 0 <= j < |specs| => specs[j].stage), inputs,
           (j: nat, i: nat, v: Value) => if j < |specs| then specs[j].work(i, v) else Broke)
  }

  /** One item through a list of stages, left to right. */
  function Through(specs: seq<Spec>, x: Option<Item>): Option<Item> {
    if specs == [] || x == None then x else Through(specs[1..], Once(specs[0], x.value))
  }

  function Once(spec: Spec, it: Item): Option<Item> {
    if it.Flagged() then Some(it)
    else
      match spec.work(it.index, it.body.value)
      case Good(v) => Some(Item(it.index, Clean(v)))
      case Bad(reason) => Some(Item(it.index, Quarantined(it.index, reason)))
      case Drop => Some(Item(it.index, Skipped))
      case Broke => None
  }

  /** A pipe of two lists of stages is the second after the first. */
  lemma {:induction false} ThroughConcat(a: seq<Spec>, b: seq<Spec>, x: Option<Item>)
    ensures Through(a + b, x) == Through(b, Through(a, x))
  {
    if a == [] { assert a + b == b; } else if x == None { } else {
      assert (a + b)[1..] == a[1..] + b;
      ThroughConcat(a[1..], b, Once(a[0], x.value));
    }
  }

  lemma {:induction false} LevelIsThrough(specs: seq<Spec>, inputs: seq<Value>, i: nat, j: nat)
    requires i < |inputs| && j <= |specs|
    ensures Level(Running(specs, inputs), i, j) == Through(specs[..j], Some(Item(i, Clean(inputs[i]))))
  {
    var c, start := Running(specs, inputs), Some(Item(i, Clean(inputs[i])));
    if j > 0 {
      LevelIsThrough(specs, inputs, i, j - 1);
      assert specs[..j] == specs[..j - 1] + [specs[j - 1]];
      ThroughConcat(specs[..j - 1], [specs[j - 1]], start);
      var x := Through(specs[..j - 1], start);
      if x.Some? { assert Through([specs[j - 1]], x) == Once(specs[j - 1], x.value); }
    }
  }

  /** Any two nestings of the same steps have the same name and stages, and so the same results. */
  lemma NestingIsIrrelevant(n: Nest, m: Nest, inputs: seq<Value>, i: nat)
    requires n.Leaves() == m.Leaves() && i < |inputs|
    ensures StagesOf(n.Build()) == StagesOf(m.Build()) && n.Build().name == m.Build().name
    ensures var specs := StagesOf(n.Build());
            Level(Running(StagesOf(m.Build()), inputs), i, |StagesOf(m.Build())|) == Through(specs, Some(Item(i, Clean(inputs[i]))))
  {
    BuildWorth(n);
    BuildWorth(m);
    var specs := StagesOf(m.Build());
    LevelIsThrough(specs, inputs, i, |specs|);
    assert specs[..|specs|] == specs;
  }
}
