/** Exactly which lists of plans are registered, told from the lists and what was registered before. */
module PreflightAccepts {
  import opened Common
  import opened Preflight

  /** The first plan of the list for a name that has no registered plan. */
  ghost predicate IsNew(b: Book, plans: seq<StagePlan>, i: nat) {
    i < |plans| && plans[i].plan.name !in b.plans && forall j :: 0 <= j < i ==> plans[j].plan.name != plans[i].plan.name
  }

  /** A plan that declares again what was declared, or only names it. */
  predicate Repeats(plan: Plan, first: Plan) { plan == first || plan == Plan(plan.name, 0, 0, None) }

  /** A plan that can be declared: its amounts and price make sense, and its budget covers its ceiling unless there is no
      gate or the gate lets partial cover pass. */
  predicate Declarable(gate: Option<Gate>, plan: Plan) {
    && 0 <= plan.ceiling && 0 <= plan.budget
    && (plan.unit.Some? ==> plan.unit.value.Finite? && plan.unit.value.usd >= 0.0)
    && (gate.Some? && !gate.value.allowPartial ==> plan.ceiling <= plan.budget)
  }

  /** Plan i has a name; and it repeats the plan registered, or first listed, for that name, or is the first and can be
      declared. */
  ghost predicate Fits(gate: Option<Gate>, b: Book, plans: seq<StagePlan>, i: nat)
    requires i < |plans|
  {
    var plan := plans[i].plan;
    && (exists c :: 0 <= c < |plan.name| && !IsSpace(plan.name[c]))
    && if plan.name in b.plans then Repeats(plan, b.plans[plan.name])
       else if IsNew(b, plans, i) then Declarable(gate, plan)
       else forall j: nat :: j < i && IsNew(b, plans, j) && plans[j].plan.name == plan.name ==> Repeats(plan, plans[j].plan)
  }

  ghost predicate AllFit(gate: Option<Gate>, b: Book, plans: seq<StagePlan>) { forall i: nat :: i < |plans| ==> Fits(gate, b, plans, i) }

  function CeilingCost(plan: Plan): real {
    if plan.unit.Some? && plan.unit.value.Finite? then plan.ceiling as real * plan.unit.value.usd else 0.0
  }

  /** What the new plans cost at their ceilings, and which of them have a ceiling but no price. */
  ghost function NewUSD(b: Book, plans: seq<StagePlan>, n: nat): real
    requires n <= |plans|
  {
    if n == 0 then 0.0
    else
      var plan := plans[n - 1].plan;
      NewUSD(b, plans, n - 1)
        + if IsNew(b, plans, n - 1) then CeilingCost(plan) else 0.0
  }

  ghost function NewUnpriced(b: Book, plans: seq<StagePlan>, n: nat): seq<string>
    requires n <= |plans|
  {
    if n == 0 then []
    else
      var plan := plans[n - 1].plan;
      NewUnpriced(b, plans, n - 1) + if IsNew(b, plans, n - 1) && plan.unit.None? && plan.ceiling != 0 then [plan.name] else []
  }

  /** The gate lets an estimate and a list of missing prices pass. */
  predicate Affords(gate: Option<Gate>, usd: real, unpriced: seq<string>) {
    gate.Some? ==>
      && gate.value.maximum.Finite? && 0.0 <= gate.value.maximum.usd && usd <= gate.value.maximum.usd
      && (unpriced == [] || gate.value.allowUnpriced)
  }

  /** The book has a new plan under its name and the step that listed it first, with a full budget of its own. */
  ghost predicate Filed(s: StagePlan, next: Book) {
    var name := s.plan.name;
    && name in next.plans && next.plans[name] == s.plan && name in next.owners && next.owners[name] == s.step
    && name in next.accounts && next.accounts[name] == Account(s.plan.budget, 0)
  }

  ghost predicate Lists(b: Book, plans: seq<StagePlan>, n: nat, next: Book)
    requires n <= |plans|
  { forall name :: name in next.plans <==> name in b.plans || exists i: nat :: i < n && plans[i].plan.name == name }

  ghost predicate Keeps(b: Book, next: Book) {
    forall name :: name in b.plans ==>
      name in next.plans && next.plans[name] == b.plans[name] && (name in b.owners ==> name in next.owners && next.owners[name] == b.owners[name])
  }

  ghost predicate FilesNew(b: Book, plans: seq<StagePlan>, n: nat, next: Book)
    requires n <= |plans|
  { forall i: nat :: i < n && IsNew(b, plans, i) ==> Filed(plans[i], next) }

  /** The book holds what it held, and the new plans. */
  ghost predicate Holds(b: Book, plans: seq<StagePlan>, n: nat, next: Book)
    requires n <= |plans|
  {
    && Lists(b, plans, n, next) && Keeps(b, next) && FilesNew(b, plans, n, next)
    && next.usd == b.usd + NewUSD(b, plans, n) && next.unpriced == b.unpriced + NewUnpriced(b, plans, n)
  }

  lemma {:induction false} FirstNew(b: Book, plans: seq<StagePlan>, i: nat) returns (j: nat)
    requires i < |plans| && plans[i].plan.name !in b.plans
    ensures j <= i && IsNew(b, plans, j) && plans[j].plan.name == plans[i].plan.name
    decreases i
  {
    if k: nat :| k < i && plans[k].plan.name == plans[i].plan.name { j := FirstNew(b, plans, k); } else { j := i; }
  }

  lemma FitsNext(gate: Option<Gate>, b: Book, plans: seq<StagePlan>, n: nat, next: Book)
    requires n < |plans| && Holds(b, plans, n, next)
    ensures Register(gate, next, plans[n]).Accepted? <==> Fits(gate, b, plans, n)
  {
    var s := plans[n];
    assert Blank(s.plan.name) <==> !exists c :: 0 <= c < |s.plan.name| && !IsSpace(s.plan.name[c]);
    if s.plan.name !in b.plans {
      var j := FirstNew(b, plans, n);
      hide IsSpace, Blank;
      if j < n {
        forall k: nat | k < n && IsNew(b, plans, k) && plans[k].plan.name == s.plan.name ensures k == j {}
      }
    }
  }

  lemma NewIsAbsent(b: Book, plans: seq<StagePlan>, n: nat, next: Book)
    requires n < |plans| && Holds(b, plans, n, next)
    ensures IsNew(b, plans, n) <==> plans[n].plan.name !in next.plans
  {
    hide NewUSD, NewUnpriced;
    if plans[n].plan.name in next.plans && plans[n].plan.name !in b.plans {
      var i: nat :| i < n && plans[i].plan.name == plans[n].plan.name;
    }
  }

  lemma HoldsNext(gate: Option<Gate>, b: Book, plans: seq<StagePlan>, n: nat, next: Book)
    requires n < |plans| && Holds(b, plans, n, next) && Register(gate, next, plans[n]).Accepted?
    ensures Holds(b, plans, n + 1, Register(gate, next, plans[n]).book)
  {
    NewIsAbsent(b, plans, n, next);
    hide Blank, IsNew, Filed;
    if plans[n].plan.name in next.plans { HoldsSame(b, plans, n, next); }
    else { HoldsMore(b, plans, n, next); }
    hide Holds;
  }

  lemma HoldsSame(b: Book, plans: seq<StagePlan>, n: nat, next: Book)
    requires n < |plans| && Holds(b, plans, n, next) && !IsNew(b, plans, n) && plans[n].plan.name in next.plans
    ensures Holds(b, plans, n + 1, next)
  {
    hide IsNew, Filed, Keeps;
  }

  lemma HoldsMore(b: Book, plans: seq<StagePlan>, n: nat, next: Book)
    requires n < |plans| && Holds(b, plans, n, next) && IsNew(b, plans, n) && plans[n].plan.name !in next.plans && 0 <= plans[n].plan.ceiling
    ensures Holds(b, plans, n + 1, Enter(next, plans[n]))
  {
    CostIs(plans[n].plan);
    FilesMore(b, plans, n, next);
    ListsMore(b, plans, n, next);
    assert Keeps(b, Enter(next, plans[n]));
    hide IsNew, Lists, Keeps, FilesNew, Estimate, CeilingCost;
  }

  lemma FilesMore(b: Book, plans: seq<StagePlan>, n: nat, next: Book)
    requires n < |plans| && FilesNew(b, plans, n, next) && IsNew(b, plans, n)
    ensures FilesNew(b, plans, n + 1, Enter(next, plans[n]))
  {
    forall i: nat | i < n + 1 && IsNew(b, plans, i) ensures Filed(plans[i], Enter(next, plans[n])) {
      if i < n { assert Filed(plans[i], next) && plans[i].plan.name != plans[n].plan.name; }
    }
    hide IsNew, Filed;
  }

  lemma ListsMore(b: Book, plans: seq<StagePlan>, n: nat, next: Book)
    requires n < |plans| && Lists(b, plans, n, next)
    ensures Lists(b, plans, n + 1, Enter(next, plans[n]))
  {}

  lemma CostIs(plan: Plan)
    requires 0 <= plan.ceiling
    ensures CeilingCost(plan) == Estimate(plan)
  {
    if plan.ceiling == 0 && plan.unit.Some? && plan.unit.value.Finite? { assert plan.ceiling as real * plan.unit.value.usd == 0.0; }
  }

  lemma {:induction false} RegisterAllExact(gate: Option<Gate>, b: Book, plans: seq<StagePlan>, n: nat)
    requires n <= |plans|
    ensures RegisterAll(gate, b, plans[..n]).Accepted? <==> forall i: nat :: i < n ==> Fits(gate, b, plans, i)
    ensures RegisterAll(gate, b, plans[..n]).Accepted? ==> Holds(b, plans, n, RegisterAll(gate, b, plans[..n]).book)
  {
    hide Fits, Holds, Register;
    if n == 0 { HoldsNone(b, plans); } else {
      assert plans[..n][..n - 1] == plans[..n - 1];
      RegisterAllExact(gate, b, plans, n - 1);
      if RegisterAll(gate, b, plans[..n - 1]).Accepted? {
        var next := RegisterAll(gate, b, plans[..n - 1]).book;
        FitsNext(gate, b, plans, n - 1, next);
        if Register(gate, next, plans[n - 1]).Accepted? { HoldsNext(gate, b, plans, n - 1, next); }
      }
    }
  }

  lemma HoldsNone(b: Book, plans: seq<StagePlan>)
    ensures Holds(b, plans, 0, b)
  {}

  /** When a list of plans is accepted in full, and what is registered then: every plan has a name, and repeats the plan
      declared for it or can be declared; and the gate, if any, is well formed and lets the whole estimate pass.
      Nothing else refuses a list. */
  lemma AcceptedExactlyWhen(gate: Option<Gate>, b: Book, plans: seq<StagePlan>)
    ensures Ensured(gate, b, plans).Accepted? <==>
              && AllFit(gate, b, plans)
              && Affords(gate, b.usd + NewUSD(b, plans, |plans|), b.unpriced + NewUnpriced(b, plans, |plans|))
    ensures Ensured(gate, b, plans).Accepted? ==> Holds(b, plans, |plans|, Ensured(gate, b, plans).book)
  {
    hide RegisterAll, Fits, NewUSD, NewUnpriced, Passing, Affords, GoodPrice, Register;
    RegisterAllExact(gate, b, plans, |plans|);
    assert plans[..|plans|] == plans;
    if AllFit(gate, b, plans) { GateIs(gate, RegisterAll(gate, b, plans).book); }
    hide Lists, Keeps, FilesNew;
  }

  lemma GateIs(gate: Option<Gate>, b: Book)
    ensures Affords(gate, b.usd, b.unpriced) <==> (gate.Some? ==> GoodPrice(gate.value.maximum)) && Passing(gate, b).Accepted?
    ensures Passing(gate, b).Accepted? ==> Passing(gate, b).book == b
  {}

  /** What a refusal says of plan i, which is the first that does not fit. */
  ghost predicate Describes(r: Refusal, gate: Option<Gate>, b: Book, plans: seq<StagePlan>, i: nat)
    requires i < |plans|
  {
    var plan := plans[i].plan;
    match r
    case NoName(step) => step == plans[i].step && Blank(plan.name)
    case Conflict(name, owner, step) =>
      && name == plan.name && step == plans[i].step
      && (name in b.plans && name in b.owners ==> owner == b.owners[name])
      && (forall j: nat :: j < i && IsNew(b, plans, j) && plans[j].plan.name == name ==> owner == plans[j].step)
    case BadCeiling(name) => name == plan.name && plan.ceiling < 0
    case BadBudget(name) => name == plan.name && plan.budget < 0
    case BadPrice(name) => name == plan.name && plan.unit.Some? && !(plan.unit.value.Finite? && plan.unit.value.usd >= 0.0)
    case ShortBudget(name) => name == plan.name && gate.Some? && !gate.value.allowPartial && plan.budget < plan.ceiling
    case _ => false
  }

  ghost predicate BlamesFirst(r: Refusal, gate: Option<Gate>, b: Book, plans: seq<StagePlan>) {
    exists i: nat :: i < |plans| && !Fits(gate, b, plans, i) && (forall j: nat :: j < i ==> Fits(gate, b, plans, j)) && Describes(r, gate, b, plans, i)
  }

  lemma DescribesNext(gate: Option<Gate>, b: Book, plans: seq<StagePlan>, n: nat, next: Book)
    requires n < |plans| && Holds(b, plans, n, next) && Register(gate, next, plans[n]).Refused?
    ensures Describes(Register(gate, next, plans[n]).refusal, gate, b, plans, n)
  {
    hide Blank, NewUSD, NewUnpriced, IsNew;
    forall j: nat | j < n && IsNew(b, plans, j) ensures Filed(plans[j], next) {}
  }

  lemma {:induction false} RegisterAllBlames(gate: Option<Gate>, b: Book, plans: seq<StagePlan>, n: nat)
    requires n <= |plans| && RegisterAll(gate, b, plans[..n]).Refused?
    ensures BlamesFirst(RegisterAll(gate, b, plans[..n]).refusal, gate, b, plans)
  {
    hide Fits, Holds, Register, Describes;
    if n > 0 {
      assert plans[..n][..n - 1] == plans[..n - 1];
      RegisterAllExact(gate, b, plans, n - 1);
      if RegisterAll(gate, b, plans[..n - 1]).Accepted? {
        var next := RegisterAll(gate, b, plans[..n - 1]).book;
        FitsNext(gate, b, plans, n - 1, next);
        DescribesNext(gate, b, plans, n - 1, next);
      } else { RegisterAllBlames(gate, b, plans, n - 1); }
    }
  }

  /** Why a list is refused: a malformed gate, the first plan that does not fit, or the gate over the whole estimate. */
  lemma RefusedBecause(gate: Option<Gate>, b: Book, plans: seq<StagePlan>)
    requires Ensured(gate, b, plans).Refused?
    ensures var r := Ensured(gate, b, plans).refusal;
      match r
      case BadGate => gate.Some? && !(gate.value.maximum.Finite? && gate.value.maximum.usd >= 0.0)
      case Unpriced(names) =>
        AllFit(gate, b, plans) && gate.Some? && !gate.value.allowUnpriced && names != [] && names == b.unpriced + NewUnpriced(b, plans, |plans|)
      case TooExpensive(usd) =>
        AllFit(gate, b, plans) && gate.Some? && gate.value.maximum.Finite? && usd == b.usd + NewUSD(b, plans, |plans|) > gate.value.maximum.usd
      case _ => BlamesFirst(r, gate, b, plans)
  {
    assert plans[..|plans|] == plans;
    RegisterAllExact(gate, b, plans, |plans|);
    if RegisterAll(gate, b, plans).Refused? { RegisterAllBlames(gate, b, plans, |plans|); }
    hide RegisterAll, Fits, NewUSD, NewUnpriced, Describes;
  }
}
