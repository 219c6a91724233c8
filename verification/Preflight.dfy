/**
 Registering admission plans: all or nothing, never disturbing what is registered, and gated on the
 accumulated estimate; and the stand-alone validation of a list of plans that it must agree with.
 Prices are reals with a flag for the values a float can hold that are not finite.
 */
module Preflight {
  import opened Common

  datatype Price = Finite(usd: real) | NotFinite

  datatype Plan = Plan(name: string, ceiling: int, budget: int, unit: Option<Price>)
  datatype StagePlan = StagePlan(step: string, plan: Plan)
  datatype Gate = Gate(maximum: Price, allowUnpriced: bool, allowPartial: bool)

  datatype Refusal =
    | BadGate
    | NoName(step: string)
    | Conflict(name: string, owner: string, step: string)
    | BadCeiling(name: string)
    | BadBudget(name: string)
    | BadPrice(name: string)
    | ShortBudget(name: string)
    | Unpriced(names: seq<string>)
    | TooExpensive(usd: real)

  /** A budget's limit and what has been spent of it. */
  datatype Account = Account(limit: int, spent: int)

  const SPACES: seq<char> := [' ', '\t', '\n', '\r', '\U{000B}', '\U{000C}', '\U{0085}', '\U{00A0}', '\U{1680}', '\U{2028}', '\U{2029}', '\U{202F}', '\U{205F}', '\U{3000}']

  predicate IsSpace(c: char) { c in SPACES || '\U{2000}' <= c <= '\U{200A}' }

  predicate Blank(name: string) { forall i :: 0 <= i < |name| ==> IsSpace(name[i]) }

  predicate GoodPrice(p: Price) { p.Finite? && p.usd >= 0.0 }

  predicate GoodUnit(plan: Plan) { plan.unit.Some? ==> GoodPrice(plan.unit.value) }

  /** A resource that only names an earlier declaration. */
  predicate Reference(plan: Plan) { plan.ceiling == 0 && plan.budget == 0 && plan.unit.None? }

  /** What a plan adds to the estimate, and to the list of missing prices. */
  function Estimate(plan: Plan): real {
    if plan.ceiling > 0 && plan.unit.Some? && plan.unit.value.Finite? then plan.ceiling as real * plan.unit.value.usd else 0.0
  }

  predicate LacksPrice(plan: Plan) { plan.ceiling > 0 && plan.unit.None? }

  // ----- the registration as a fold --------------------------------------------------------------

  /** What an environment has registered, in order of registration. */
  datatype Book = Book(order: seq<string>, plans: map<string, Plan>, owners: map<string, string>, accounts: map<string, Account>,
                       usd: real, unpriced: seq<string>)

  const EMPTY: Book := Book([], map[], map[], map[], 0.0, [])

  datatype Outcome = Refused(refusal: Refusal) | Accepted(book: Book)

  predicate Covers(gate: Option<Gate>, plan: Plan) { gate.None? || gate.value.allowPartial || plan.budget >= plan.ceiling }

  function Enter(b: Book, s: StagePlan): Book {
    var name := s.plan.name;
    Book(b.order + [name], b.plans[name := s.plan], b.owners[name := s.step], b.accounts[name := Account(s.plan.budget, 0)],
         b.usd + Estimate(s.plan), b.unpriced + if LacksPrice(s.plan) then [name] else [])
  }

  /** One plan: a repetition or a reference changes nothing, a new name is entered. */
  function Register(gate: Option<Gate>, b: Book, s: StagePlan): Outcome {
    var plan, name := s.plan, s.plan.name;
    if Blank(name) then Refused(NoName(s.step))
    else if name in b.plans then
      if Reference(plan) || b.plans[name] == plan then Accepted(b)
      else Refused(Conflict(name, if name in b.owners then b.owners[name] else "", s.step))
    else if plan.ceiling < 0 then Refused(BadCeiling(name))
    else if plan.budget < 0 then Refused(BadBudget(name))
    else if !GoodUnit(plan) then Refused(BadPrice(name))
    else if !Covers(gate, plan) then Refused(ShortBudget(name))
    else Accepted(Enter(b, s))
  }

  function RegisterAll(gate: Option<Gate>, b: Book, plans: seq<StagePlan>): Outcome {
    if plans == [] then Accepted(b)
    else
      match RegisterAll(gate, b, plans[..|plans| - 1])
      case Refused(r) => Refused(r)
      case Accepted(next) => Register(gate, next, plans[|plans| - 1])
  }

  /** The monetary gate over everything registered. */
  function Passing(gate: Option<Gate>, b: Book): Outcome {
    if gate.None? then Accepted(b)
    else if b.unpriced != [] && !gate.value.allowUnpriced then Refused(Unpriced(b.unpriced))
    else if gate.value.maximum.Finite? && b.usd > gate.value.maximum.usd then Refused(TooExpensive(b.usd))
    else Accepted(b)
  }

  /** What registering a list of plans does. */
  function Ensured(gate: Option<Gate>, b: Book, plans: seq<StagePlan>): Outcome {
    if gate.Some? && !GoodPrice(gate.value.maximum) then Refused(BadGate)
    else
      match RegisterAll(gate, b, plans)
      case Refused(r) => Refused(r)
      case Accepted(next) => Passing(gate, next)
  }

  // ----- the environment ---------------------------------------------------------------------------

  class RunEnv {
    const gate: Option<Gate>
    var plans: map<string, Plan>
    var owners: map<string, string>
    var budgets: map<string, Account>
    var estimatedUSD: real
    var unpriced: seq<string>
    ghost var order: seq<string>

    ghost function Held(): Book
      reads this
    { Book(order, plans, owners, budgets, estimatedUSD, unpriced) }

    ghost predicate Valid()
      reads this
    { Sound(gate, Held()) }

    constructor (gate: Option<Gate>)
      ensures Valid() && Held() == EMPTY && this.gate == gate
    {
      this.gate := gate;
      plans, owners, budgets, estimatedUSD, unpriced, order := map[], map[], map[], 0.0, [], [];
    }

    /** Registers every plan, or refuses and leaves the environment as it was. */
    method Ensure(stages: seq<StagePlan>) returns (refused: Option<Refusal>)
      requires Valid()
      modifies this
      ensures Valid()
      ensures match Ensured(gate, old(Held()), stages)
        case Refused(r) => refused == Some(r) && Held() == old(Held())
        case Accepted(book) => refused.None? && Held() == book
    {
      ghost var start := Held();
      EnsuredSound(gate, start, stages);
      if gate.Some? && !GoodPrice(gate.value.maximum) { return Some(BadGate); }
      var prospect, pending;
      refused, prospect, pending := Prospect(gate, Snapshot(), stages, start);
      if refused.Some? { return; }
      if gate.Some? {
        if prospect.unpriced != [] && !gate.value.allowUnpriced { return Some(Unpriced(prospect.unpriced)); }
        if gate.value.maximum.Finite? && prospect.usd > gate.value.maximum.usd { return Some(TooExpensive(prospect.usd)); }
      }
      Admit(pending);
      estimatedUSD, unpriced, order := prospect.usd, prospect.unpriced, RegisterAll(gate, start, stages).book.order;
    }

    function Snapshot(): Prospective
      reads this
    { Prospective(plans, owners, estimatedUSD, unpriced) }

    method Admit(pending: seq<StagePlan>)
      modifies `plans, `owners, `budgets
      ensures Held() == Written(old(Held()), pending)
    {
      ghost var start := Held();
      var p := 0;
      assert pending[..0] == [];
      while p < |pending|
        invariant 0 <= p <= |pending|
        invariant Held() == Written(start, pending[..p])
      {
        var s := pending[p];
        assert pending[..p + 1][..p] == pending[..p];
        plans, owners, budgets := plans[s.plan.name := s.plan], owners[s.plan.name := s.step], budgets[s.plan.name := Account(s.plan.budget, 0)];
        p := p + 1;
      }
      assert pending[..p] == pending;
    }
  }

  /** The copies that registration works on before it may touch the environment. */
  datatype Prospective = Prospective(plans: map<string, Plan>, owners: map<string, string>, usd: real, unpriced: seq<string>)

  ghost predicate Reflects(x: Prospective, b: Book) { x == Prospective(b.plans, b.owners, b.usd, b.unpriced) }

  /** Checks the plans one by one against the copies. */
  method Prospect(gate: Option<Gate>, start: Prospective, stages: seq<StagePlan>, ghost b: Book)
    returns (refused: Option<Refusal>, prospect: Prospective, pending: seq<StagePlan>)
    requires Reflects(start, b)
    ensures match RegisterAll(gate, b, stages)
      case Refused(r) => refused == Some(r)
      case Accepted(book) => refused.None? && Reflects(prospect, book) && Pending(b, pending, book)
  {
    prospect, pending := start, [];
    var i := 0;
    ghost var book := b;
    while i < |stages|
      invariant 0 <= i <= |stages|
      invariant RegisterAll(gate, b, stages[..i]) == Accepted(book)
      invariant Reflects(prospect, book) && Pending(b, pending, book)
    {
      var s := stages[i];
      RegisterNext(gate, b, stages, i, book);
      refused := Refuse(gate, prospect, s, book);
      if refused.Some? { return; }
      if s.plan.name !in prospect.plans {
        PendMore(b, pending, book, s);
        prospect := Note(prospect, s, book);
        pending, book := pending + [s], Enter(book, s);
      }
      i := i + 1;
    }
    assert stages[..i] == stages;
    refused := None;
  }

  /** The checks of one plan, in the order in which they are made. */
  method Refuse(gate: Option<Gate>, x: Prospective, s: StagePlan, ghost b: Book) returns (refused: Option<Refusal>)
    requires Reflects(x, b)
    ensures Register(gate, b, s) == (if refused.Some? then Refused(refused.value) else Accepted(if s.plan.name in x.plans then b else Enter(b, s)))
    ensures refused.None? && s.plan.name !in x.plans ==> GoodUnit(s.plan)
  {
    var plan, name := s.plan, s.plan.name;
    if Blank(name) { return Some(NoName(s.step)); }
    if name in x.plans {
      if Reference(plan) || x.plans[name] == plan { return None; }
      return Some(Conflict(name, if name in x.owners then x.owners[name] else "", s.step));
    }
    if plan.ceiling < 0 { return Some(BadCeiling(name)); }
    if plan.budget < 0 { return Some(BadBudget(name)); }
    if !GoodUnit(plan) { return Some(BadPrice(name)); }
    if gate.Some? && !gate.value.allowPartial && plan.budget < plan.ceiling { return Some(ShortBudget(name)); }
    refused := None;
  }

  /** Enters a new plan into the copies. */
  method Note(x: Prospective, s: StagePlan, ghost b: Book) returns (next: Prospective)
    requires Reflects(x, b) && GoodUnit(s.plan)
    ensures Reflects(next, Enter(b, s))
  {
    var plan, name := s.plan, s.plan.name;
    var usd, lacking := x.usd, x.unpriced;
    if plan.ceiling > 0 {
      if plan.unit.None? { lacking := lacking + [name]; } else { usd := usd + plan.ceiling as real * plan.unit.value.usd; }
    }
    next := Prospective(x.plans[name := plan], x.owners[name := s.step], usd, lacking);
  }

  lemma RegisterNext(gate: Option<Gate>, b: Book, plans: seq<StagePlan>, i: nat, book: Book)
    requires i < |plans| && RegisterAll(gate, b, plans[..i]) == Accepted(book)
    ensures RegisterAll(gate, b, plans[..i + 1]) == Register(gate, book, plans[i])
    ensures Register(gate, book, plans[i]).Refused? ==> RegisterAll(gate, b, plans) == Register(gate, book, plans[i])
  {
    assert plans[..i + 1][..i] == plans[..i];
    if Register(gate, book, plans[i]).Refused? { RefusedEarly(gate, b, plans, i); }
  }

  /** Writing the pending plans into the maps. */
  ghost function Written(b: Book, pending: seq<StagePlan>): Book {
    if pending == [] then b
    else
      var w, s := Written(b, pending[..|pending| - 1]), pending[|pending| - 1];
      w.(plans := w.plans[s.plan.name := s.plan], owners := w.owners[s.plan.name := s.step], accounts := w.accounts[s.plan.name := Account(s.plan.budget, 0)])
  }

  /** Writing the pending plans over b gives the prospective maps. */
  ghost predicate Pending(b: Book, pending: seq<StagePlan>, book: Book) {
    var w := Written(b, pending);
    book.plans == w.plans && book.owners == w.owners && book.accounts == w.accounts
      && w.order == b.order && w.usd == b.usd && w.unpriced == b.unpriced
  }

  lemma PendMore(b: Book, pending: seq<StagePlan>, book: Book, s: StagePlan)
    requires Pending(b, pending, book)
    ensures Pending(b, pending + [s], Enter(book, s))
  {
    assert (pending + [s])[..|pending|] == pending;
  }

  /** A plan refused at its turn refuses the list. */
  lemma {:induction false} RefusedEarly(gate: Option<Gate>, b: Book, plans: seq<StagePlan>, i: nat)
    requires i < |plans| && RegisterAll(gate, b, plans[..i + 1]).Refused?
    ensures RegisterAll(gate, b, plans) == RegisterAll(gate, b, plans[..i + 1])
    decreases |plans|
  {
    if i + 1 < |plans| {
      assert plans[..|plans| - 1][..i + 1] == plans[..i + 1];
      RefusedEarly(gate, b, plans[..|plans| - 1], i);
    } else { assert plans[..i + 1] == plans; }
  }

  // ----- what a registered environment satisfies -----------------------------------------------------

  /** The estimate and the missing prices of the plans registered under the names. */
  ghost function TotalUSD(order: seq<string>, plans: map<string, Plan>): real {
    if order == [] then 0.0
    else
      var name := order[|order| - 1];
      TotalUSD(order[..|order| - 1], plans) + if name in plans then Estimate(plans[name]) else 0.0
  }

  ghost function Lacking(order: seq<string>, plans: map<string, Plan>): seq<string> {
    if order == [] then []
    else
      var name := order[|order| - 1];
      Lacking(order[..|order| - 1], plans) + if name in plans && LacksPrice(plans[name]) then [name] else []
  }

  ghost predicate PlanOk(gate: Option<Gate>, b: Book, name: string)
    requires name in b.plans
  {
    var plan := b.plans[name];
    && plan.name == name && !Blank(name) && plan.ceiling >= 0 && plan.budget >= 0 && GoodUnit(plan) && Covers(gate, plan)
    && name in b.owners && name in b.accounts && b.accounts[name].limit == plan.budget
  }

  /** The estimate is the sum of ceiling times price over the registered priced plans, the missing
      prices are the others with a positive ceiling, and the gate is satisfied. */
  ghost predicate Sound(gate: Option<Gate>, b: Book) {
    && Consistent(gate, b)
    && (gate.Some? && b.order != [] ==> GoodPrice(gate.value.maximum) && b.usd <= gate.value.maximum.usd && (b.unpriced == [] || gate.value.allowUnpriced))
  }

  ghost predicate Consistent(gate: Option<Gate>, b: Book) { Named(b) && AllOk(gate, b) && Totalled(b) }

  ghost predicate Named(b: Book) { Distinct(b.order) && forall name :: name in b.plans <==> name in b.order }

  ghost predicate AllOk(gate: Option<Gate>, b: Book) { forall name :: name in b.plans ==> PlanOk(gate, b, name) }

  ghost predicate Totalled(b: Book) { b.usd == TotalUSD(b.order, b.plans) && b.unpriced == Lacking(b.order, b.plans) }

  lemma {:induction false} TotalsSame(order: seq<string>, plans: map<string, Plan>, more: map<string, Plan>)
    requires forall name :: name in order ==> name in plans && name in more && more[name] == plans[name]
    ensures TotalUSD(order, more) == TotalUSD(order, plans) && Lacking(order, more) == Lacking(order, plans)
  {
    if order != [] {
      assert order[|order| - 1] in order;
      TotalsSame(order[..|order| - 1], plans, more);
    }
  }

  lemma EnterTotals(b: Book, s: StagePlan)
    requires Named(b) && Totalled(b) && s.plan.name !in b.plans
    ensures Totalled(Enter(b, s))
  {
    var next := Enter(b, s);
    assert next.order[..|b.order|] == b.order;
    hide Estimate, LacksPrice;
    TotalsSame(b.order, b.plans, next.plans);
  }

  lemma EnterNames(b: Book, s: StagePlan)
    requires Named(b) && s.plan.name !in b.plans
    ensures Named(Enter(b, s))
  {}

  lemma EnterConsistent(gate: Option<Gate>, b: Book, s: StagePlan)
    requires Consistent(gate, b) && Register(gate, b, s).Accepted? && s.plan.name !in b.plans
    ensures Consistent(gate, Enter(b, s))
  {
    EnterTotals(b, s);
    EnterNames(b, s);
    EnterPlans(gate, b, s);
    hide Named, AllOk, Totalled;
  }

  lemma EnterPlans(gate: Option<Gate>, b: Book, s: StagePlan)
    requires AllOk(gate, b) && Register(gate, b, s).Accepted? && s.plan.name !in b.plans
    ensures AllOk(gate, Enter(b, s))
  {
    forall n | n in Enter(b, s).plans ensures PlanOk(gate, Enter(b, s), n) { if n != s.plan.name { assert PlanOk(gate, b, n); } }
  }

  lemma {:induction false} RegisterAllConsistent(gate: Option<Gate>, b: Book, plans: seq<StagePlan>)
    requires Consistent(gate, b) && RegisterAll(gate, b, plans).Accepted?
    ensures Consistent(gate, RegisterAll(gate, b, plans).book)
  {
    if plans != [] {
      RegisterAllConsistent(gate, b, plans[..|plans| - 1]);
      hide Consistent, Register;
      RegisterConsistent(gate, RegisterAll(gate, b, plans[..|plans| - 1]).book, plans[|plans| - 1]);
    }
  }

  lemma RegisterConsistent(gate: Option<Gate>, b: Book, s: StagePlan)
    requires Consistent(gate, b) && Register(gate, b, s).Accepted?
    ensures Consistent(gate, Register(gate, b, s).book)
  {
    if s.plan.name !in b.plans { EnterConsistent(gate, b, s); }
    hide Consistent;
  }

  lemma EnsuredSound(gate: Option<Gate>, b: Book, plans: seq<StagePlan>)
    requires Sound(gate, b)
    ensures Ensured(gate, b, plans).Accepted? ==> Sound(gate, Ensured(gate, b, plans).book)
  {
    if RegisterAll(gate, b, plans).Accepted? { RegisterAllConsistent(gate, b, plans); }
  }

  // ----- refused or split --------------------------------------------------------------------------------

  lemma {:induction false} RegisterConcat(gate: Option<Gate>, b: Book, xs: seq<StagePlan>, ys: seq<StagePlan>)
    ensures RegisterAll(gate, b, xs + ys)
         == match RegisterAll(gate, b, xs) case Refused(r) => Refused(r) case Accepted(mid) => RegisterAll(gate, mid, ys)
  {
    if ys == [] { assert xs + ys == xs; } else {
      RegisterConcat(gate, b, xs, ys[..|ys| - 1]);
      assert (xs + ys)[..|xs + ys| - 1] == xs + ys[..|ys| - 1];
    }
  }

  /** Registration only ever adds: names keep their plan, owner and budget account, the estimate does not
      shrink, and no missing price is forgotten. */
  ghost predicate Grows(b: Book, next: Book) {
    && b.order <= next.order && b.usd <= next.usd && b.unpriced <= next.unpriced
    && (forall name :: name in b.plans ==> name in next.plans && next.plans[name] == b.plans[name])
    && (forall name :: name in b.plans && name in b.owners ==> name in next.owners && next.owners[name] == b.owners[name])
    && (forall name :: name in b.plans && name in b.accounts ==> name in next.accounts && next.accounts[name] == b.accounts[name])
  }

  lemma EnterGrows(gate: Option<Gate>, b: Book, s: StagePlan)
    requires Register(gate, b, s).Accepted?
    ensures Grows(b, Register(gate, b, s).book)
  {
    assert s.plan.ceiling > 0 && s.plan.unit.Some? && GoodUnit(s.plan) ==> s.plan.ceiling as real * s.plan.unit.value.usd >= 0.0;
  }

  lemma {:induction false} RegisterGrows(gate: Option<Gate>, b: Book, plans: seq<StagePlan>)
    requires RegisterAll(gate, b, plans).Accepted?
    ensures Grows(b, RegisterAll(gate, b, plans).book)
  {
    if plans != [] {
      RegisterGrows(gate, b, plans[..|plans| - 1]);
      EnterGrows(gate, RegisterAll(gate, b, plans[..|plans| - 1]).book, plans[|plans| - 1]);
      hide Register;
    }
  }

  /** An accepted registration never alters what was registered before. */
  lemma EnsuredGrows(gate: Option<Gate>, b: Book, plans: seq<StagePlan>)
    requires Ensured(gate, b, plans).Accepted?
    ensures Grows(b, Ensured(gate, b, plans).book)
  {
    hide Grows;
    RegisterGrows(gate, b, plans);
  }

  /** Registering two lists at once succeeds exactly when registering one and then the other does, with
      the same final state. */
  lemma EnsuredSplits(gate: Option<Gate>, b: Book, xs: seq<StagePlan>, ys: seq<StagePlan>)
    ensures Ensured(gate, b, xs + ys).Accepted? <==>
              Ensured(gate, b, xs).Accepted? && Ensured(gate, Ensured(gate, b, xs).book, ys).Accepted?
    ensures Ensured(gate, b, xs + ys).Accepted? ==> Ensured(gate, b, xs + ys) == Ensured(gate, Ensured(gate, b, xs).book, ys)
  {
    RegisterConcat(gate, b, xs, ys);
    if RegisterAll(gate, b, xs).Accepted? && RegisterAll(gate, RegisterAll(gate, b, xs).book, ys).Accepted? {
      RegisterGrows(gate, RegisterAll(gate, b, xs).book, ys);
    }
    hide RegisterAll, Register;
  }

  // ----- the stand-alone validation --------------------------------------------------------------------

  datatype Verdict = Invalid | Priced(usd: real, missing: seq<string>)

  /** Checks a list of plans against a gate, in its own order: names, duplicates, amounts, cover, price. */
  method ValidateResourcePlans(plans: seq<Plan>, maximum: Price, allowUnpriced: bool, allowPartial: bool) returns (v: Verdict)
    ensures v == Validated(plans, Gate(maximum, allowUnpriced, allowPartial))
  {
    if !GoodPrice(maximum) { return Invalid; }
    var seen: set<string>, usd, missing: seq<string> := {}, 0.0, [];
    ghost var gate := Gate(maximum, allowUnpriced, allowPartial);
    var i := 0;
    while i < |plans|
      invariant 0 <= i <= |plans|
      invariant Checked(plans[..i], gate) == Some(Tally(seen, usd, missing))
    {
      var plan := plans[i];
      assert plans[..i + 1][..i] == plans[..i];
      ghost var before := Tally(seen, usd, missing);
      if Check(Tally(seen, usd, missing), plan, gate).None? { CheckFails(plans, i, gate); }
      if Blank(plan.name) || plan.name in seen { return Invalid; }
      seen := seen + {plan.name};
      if plan.ceiling < 0 || plan.budget < 0 { return Invalid; }
      if !allowPartial && plan.budget < plan.ceiling { return Invalid; }
      if plan.unit.Some? && !GoodPrice(plan.unit.value) { return Invalid; }
      if plan.ceiling != 0 {
        if plan.unit.None? { missing := missing + [plan.name]; } else { usd := usd + plan.ceiling as real * plan.unit.value.usd; }
      }
      assert usd == before.usd + Estimate(plan) && missing == before.missing + if LacksPrice(plan) then [plan.name] else [];
      assert Check(before, plan, gate) == Some(Tally(seen, usd, missing));
      i := i + 1;
    }
    assert plans[..i] == plans;
    if missing != [] && !allowUnpriced { return Invalid; }
    if usd > maximum.usd { return Invalid; }
    v := Priced(usd, missing);
  }

  datatype Tally = Tally(seen: set<string>, usd: real, missing: seq<string>)

  function Check(t: Tally, plan: Plan, gate: Gate): Option<Tally> {
    if Blank(plan.name) || plan.name in t.seen || plan.ceiling < 0 || plan.budget < 0 then None
    else if !Covers(Some(gate), plan) || !GoodUnit(plan) then None
    else Some(Tally(t.seen + {plan.name}, t.usd + Estimate(plan), t.missing + if LacksPrice(plan) then [plan.name] else []))
  }

  function Checked(plans: seq<Plan>, gate: Gate): Option<Tally> {
    if plans == [] then Some(Tally({}, 0.0, []))
    else
      match Checked(plans[..|plans| - 1], gate)
      case None => None
      case Some(t) => Check(t, plans[|plans| - 1], gate)
  }

  function Validated(plans: seq<Plan>, gate: Gate): Verdict {
    if !GoodPrice(gate.maximum) then Invalid
    else
      match Checked(plans, gate)
      case None => Invalid
      case Some(t) =>
        if (t.missing != [] && !gate.allowUnpriced) || t.usd > gate.maximum.usd then Invalid else Priced(t.usd, t.missing)
  }

  lemma {:induction false} CheckFails(plans: seq<Plan>, i: nat, gate: Gate)
    requires i < |plans| && Checked(plans[..i + 1], gate).None?
    ensures Checked(plans, gate).None?
    decreases |plans|
  {
    if i + 1 < |plans| {
      assert plans[..|plans| - 1][..i + 1] == plans[..i + 1];
      CheckFails(plans[..|plans| - 1], i, gate);
    } else { assert plans[..i + 1] == plans; }
  }

  // ----- the two agree --------------------------------------------------------------------------------------

  function Plans(stages: seq<StagePlan>): (r: seq<Plan>)
    ensures |r| == |stages|
  { seq(|stages|, i requires 0 <= i < |stages| => stages[i].plan) }

  ghost predicate DistinctNames(stages: seq<StagePlan>) { forall p, q :: 0 <= p < q < |stages| ==> stages[p].plan.name != stages[q].plan.name }

  /** The validation's tally of a list is what registering it in an empty environment books. */
  ghost predicate Matches(t: Tally, b: Book) {
    (forall name :: name in t.seen <==> name in b.plans) && t.usd == b.usd && t.missing == b.unpriced
  }

  lemma {:induction false} RegisteredNames(gate: Option<Gate>, stages: seq<StagePlan>)
    requires RegisterAll(gate, EMPTY, stages).Accepted?
    ensures forall name :: name in RegisterAll(gate, EMPTY, stages).book.plans <==> exists i :: 0 <= i < |stages| && stages[i].plan.name == name
  {
    if stages != [] {
      var rest := stages[..|stages| - 1];
      RegisteredNames(gate, rest);
      var before, after := RegisterAll(gate, EMPTY, rest).book, RegisterAll(gate, EMPTY, stages).book;
      forall name ensures name in after.plans <==> exists i :: 0 <= i < |stages| && stages[i].plan.name == name {
        if name in before.plans { var i :| 0 <= i < |rest| && rest[i].plan.name == name; assert stages[i].plan.name == name; }
        if i :| 0 <= i < |stages| && stages[i].plan.name == name { if i < |rest| { assert rest[i].plan.name == name; } }
      }
    }
  }

  lemma {:induction false} SameChecks(gate: Gate, stages: seq<StagePlan>)
    ensures Checked(Plans(stages), gate).Some? <==> DistinctNames(stages) && RegisterAll(Some(gate), EMPTY, stages).Accepted?
    ensures Checked(Plans(stages), gate).Some? ==> Matches(Checked(Plans(stages), gate).value, RegisterAll(Some(gate), EMPTY, stages).book)
  {
    if stages != [] {
      var rest, s := stages[..|stages| - 1], stages[|stages| - 1];
      SameChecks(gate, rest);
      assert Plans(stages)[..|rest|] == Plans(rest);
      assert DistinctNames(stages) ==> DistinctNames(rest);
      if Checked(Plans(rest), gate).Some? {
        RegisteredNames(Some(gate), rest);
        SameCheck(gate, rest, s, Checked(Plans(rest), gate).value, RegisterAll(Some(gate), EMPTY, rest).book);
      }
    }
  }

  lemma SameCheck(gate: Gate, rest: seq<StagePlan>, s: StagePlan, t: Tally, b: Book)
    requires Matches(t, b) && DistinctNames(rest)
    requires forall name :: name in b.plans <==> exists i :: 0 <= i < |rest| && rest[i].plan.name == name
    ensures DistinctNames(rest + [s]) <==> s.plan.name !in b.plans
    ensures Check(t, s.plan, gate).Some? <==> s.plan.name !in b.plans && Register(Some(gate), b, s).Accepted?
    ensures Check(t, s.plan, gate).Some? ==> Matches(Check(t, s.plan, gate).value, Register(Some(gate), b, s).book)
  {
    if s.plan.name in b.plans {
      var i :| 0 <= i < |rest| && rest[i].plan.name == s.plan.name;
      assert (rest + [s])[i].plan.name == (rest + [s])[|rest|].plan.name;
    }
  }

  /** The two preflights agree, although they check in different orders: a list is valid exactly when its
      names are distinct and a fresh environment with the same gate accepts it, with the same estimate
      and the same missing prices. */
  lemma ValidationAgrees(gate: Gate, stages: seq<StagePlan>)
    ensures Validated(Plans(stages), gate).Priced? <==> DistinctNames(stages) && Ensured(Some(gate), EMPTY, stages).Accepted?
    ensures Validated(Plans(stages), gate).Priced? ==>
              Validated(Plans(stages), gate) == Priced(Ensured(Some(gate), EMPTY, stages).book.usd, Ensured(Some(gate), EMPTY, stages).book.unpriced)
  {
    SameChecks(gate, stages);
  }
}
