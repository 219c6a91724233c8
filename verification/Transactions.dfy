/**
 Many admissions at once.  Each transaction walks its limiter tree account by account; every single
 charge or refund is atomic, and charges and refunds of different transactions interleave freely.
 */
module Transactions {
  import opened Admission

  /** How far a transaction has got; a number counts the account occurrences it holds. */
  datatype Phase =
    | Reserving(k: nat)
    | Undoing(k: nat)        // refused, rolling its prefix back in reverse
    | Open                   // reserved in full, neither committed nor rolled back yet
    | Returning(k: nat)      // Rollback was the first call, refunds are under way
    | Denied
    | Committed
    | RolledBack
  {
    predicate Settled() { Denied? || Committed? || RolledBack? }
  }

  /** `blocked` is a done context or a custom limiter that refuses; a bucket may refuse at any time, because a
      wait for tokens may be given up. */
  datatype Tx = Tx(limiter: Limiter, units: nat, blocked: bool, phase: Phase)

  datatype State = State(rem: Balance, txs: seq<Tx>)

  /** The account occurrences of a tree in the order in which they are charged. */
  ghost function Order(l: Limiter): seq<Account> {
    match l
    case Single(b, _) => [b]
    case WaitOnly(_) => []
    case Chain(ls) => Orders(ls)
  }

  ghost function Orders(ls: seq<Limiter>): seq<Account> {
    if ls == [] then [] else Orders(ls[..|ls| - 1]) + Order(ls[|ls| - 1])
  }

  /** Nothing is charged out of turn or twice: the order is a listing of the tree's leaves. */
  lemma {:induction false} OrderListsLeaves(l: Limiter)
    ensures multiset(Order(l)) == Leaves(l)
  {
    if l.Chain? { OrdersListLeaves(l.limiters); }
  }

  lemma {:induction false} OrdersListLeaves(ls: seq<Limiter>)
    ensures multiset(Orders(ls)) == AllLeaves(ls)
  {
    if ls != [] {
      OrdersListLeaves(ls[..|ls| - 1]);
      OrderListsLeaves(ls[|ls| - 1]);
    }
  }

  /** How many occurrences a transaction holds in its present phase. */
  ghost function Got(t: Tx): nat {
    match t.phase
    case Reserving(k) => k
    case Undoing(k) => k
    case Returning(k) => k
    case Open => |Order(t.limiter)|
    case Committed => |Order(t.limiter)|
    case _ => 0
  }

  /** What the first k occurrences charge b. */
  ghost function Paid(order: seq<Account>, k: nat, units: int, b: Account): int
    requires k <= |order|
  { Times(units, multiset(order[..k])[b]) }

  ghost function Holds(t: Tx, b: Account): int {
    if Got(t) <= |Order(t.limiter)| then Paid(Order(t.limiter), Got(t), t.units, b) else 0
  }

  ghost function HeldOf(txs: seq<Tx>, b: Account): int {
    if txs == [] then 0 else Holds(txs[0], b) + HeldOf(txs[1..], b)
  }

  ghost predicate Init(s: State) {
    && (forall b :: b in s.rem ==> s.rem[b] == b.limit)
    && (forall t :: t in s.txs ==> t.phase == Reserving(0) && forall b :: b in Order(t.limiter) ==> b in s.rem)
  }

  /** One atomic action of a transaction. */
  ghost predicate Step(rem: Balance, t: Tx, rem': Balance, t': Tx) {
    var order := Order(t.limiter);
    t' == t.(phase := t'.phase) && t'.units == t.units &&
    match t.phase
    case Reserving(k) =>
      || (k < |order| && !t.blocked && t.units >= 1 && order[k] in rem && t.units <= (if order[k].rated then order[k].limit else rem[order[k]])
          && rem' == rem[order[k] := rem[order[k]] - t.units] && t'.phase == Reserving(k + 1))
      || (Refusable(rem, t) && rem' == rem && t'.phase == Undoing(k))
      || (k == |order| && rem' == rem && t'.phase == Open)
    case Undoing(k) =>
      if k == 0 then rem' == rem && t'.phase == Denied
      else Refunds(order, k, t.units, rem, rem') && t'.phase == Undoing(k - 1)
    case Open => rem' == rem && (t'.phase == Committed || t'.phase == Returning(|order|))
    case Returning(k) =>
      if k == 0 then rem' == rem && t'.phase == RolledBack
      else Refunds(order, k, t.units, rem, rem') && t'.phase == Returning(k - 1)
    case _ => rem' == rem && t' == t      // further Commit and Rollback calls do nothing
  }

  /** Why a limiter may refuse a transaction at its present point. */
  ghost predicate Refusable(rem: Balance, t: Tx)
    requires t.phase.Reserving?
  {
    var order := Order(t.limiter);
    t.blocked || (t.phase.k < |order| && order[t.phase.k] in rem && (t.units < 1 || order[t.phase.k].rated || rem[order[t.phase.k]] < t.units))
  }

  ghost predicate Refunds(order: seq<Account>, k: nat, units: nat, rem: Balance, rem': Balance) {
    0 < k <= |order| && order[k - 1] in rem && rem' == rem[order[k - 1] := rem[order[k - 1]] + units]
  }

  ghost predicate Next(s: State, s': State) {
    exists i :: 0 <= i < |s.txs| && |s'.txs| == |s.txs| && s'.txs == s.txs[i := s'.txs[i]]
      && Step(s.rem, s.txs[i], s'.rem, s'.txs[i])
  }

  ghost predicate Run(tr: seq<State>) {
    |tr| > 0 && Init(tr[0]) && forall j :: 0 <= j < |tr| - 1 ==> Next(tr[j], tr[j + 1])
  }

  /** Conservation: what is left and what is held make up the limit; no budget is overdrawn. */
  ghost predicate Conserved(s: State) {
    && (forall b :: b in s.rem ==> (b.rated || s.rem[b] >= 0) && s.rem[b] + HeldOf(s.txs, b) == b.limit)
    && (forall t :: t in s.txs ==> InTree(s, t))
  }

  ghost predicate InTree(s: State, t: Tx) {
    && (forall b :: b in Order(t.limiter) ==> b in s.rem)
    && Got(t) <= |Order(t.limiter)|
  }

  lemma {:induction false} HeldUpdate(txs: seq<Tx>, i: nat, t: Tx, b: Account)
    requires i < |txs|
    ensures HeldOf(txs[i := t], b) == HeldOf(txs, b) - Holds(txs[i], b) + Holds(t, b)
  {
    if i == 0 { assert txs[i := t][1..] == txs[1..]; }
    else {
      HeldUpdate(txs[1..], i - 1, t, b);
      assert txs[i := t][1..] == txs[1..][i - 1 := t];
    }
  }

  lemma {:induction false} HeldInit(txs: seq<Tx>, b: Account)
    requires forall t :: t in txs ==> t.phase == Reserving(0)
    ensures HeldOf(txs, b) == 0
  {
    if txs != [] {
      assert txs[0] in txs;
      HeldInit(txs[1..], b);
    }
  }

  /** One more occurrence held is one more charge. */
  lemma OneMore(order: seq<Account>, k: nat, units: int, b: Account)
    requires k < |order|
    ensures Paid(order, k + 1, units, b) == Paid(order, k, units, b) + if order[k] == b then units else 0
  {
    assert order[..k + 1] == order[..k] + [order[k]];
  }

  /** A step moves units between the account and its own transaction, and nowhere else. */
  lemma StepBalances(rem: Balance, t: Tx, rem': Balance, t': Tx, b: Account)
    requires Step(rem, t, rem', t') && b in rem && Got(t) <= |Order(t.limiter)|
    ensures rem'.Keys == rem.Keys && (rem[b] >= 0 ==> b.rated || rem'[b] >= 0) && Got(t') <= |Order(t'.limiter)|
    ensures rem'[b] + Holds(t', b) == rem[b] + Holds(t, b)
  {
    hide Paid, Order;
    var order := Order(t.limiter);
    assert Paid(order, 0, t.units, b) == 0 by { NonePaid(order, t.units, b); }
    if Got(t) < |order| { OneMore(order, Got(t), t.units, b); }
    if Got(t) > 0 { OneMore(order, Got(t) - 1, t.units, b); }
  }

  lemma NonePaid(order: seq<Account>, units: int, b: Account)
    ensures Paid(order, 0, units, b) == 0
  {}

  lemma StepConserves(s: State, s': State)
    requires Conserved(s) && Next(s, s')
    ensures Conserved(s')
  {
    var i :| 0 <= i < |s.txs| && |s'.txs| == |s.txs| && s'.txs == s.txs[i := s'.txs[i]] && Step(s.rem, s.txs[i], s'.rem, s'.txs[i]);
    var t, t' := s.txs[i], s'.txs[i];
    assert InTree(s, t);
    hide Step, Holds, Order;
    assert s'.rem.Keys == s.rem.Keys && InTree(s', t') by { StepShape(s, t, s', t'); }
    forall b | b in s'.rem ensures (b.rated || s'.rem[b] >= 0) && s'.rem[b] + HeldOf(s'.txs, b) == b.limit {
      StepBalances(s.rem, t, s'.rem, t', b);
      HeldUpdate(s.txs, i, t', b);
    }
    forall u | u in s'.txs ensures InTree(s', u) { if u != t' { assert u in s.txs && InTree(s, u); } }
  }

  lemma StepShape(s: State, t: Tx, s': State, t': Tx)
    requires Step(s.rem, t, s'.rem, t') && InTree(s, t)
    ensures s'.rem.Keys == s.rem.Keys && InTree(s', t')
  {}

  /** In every reachable state of every interleaving, units are conserved. */
  lemma {:induction false} AlwaysConserved(tr: seq<State>, j: nat)
    requires Run(tr) && j < |tr|
    ensures Conserved(tr[j])
  {
    hide Conserved, Next, Init;
    if j == 0 { InitConserved(tr[0]); } else {
      AlwaysConserved(tr, j - 1);
      assert Next(tr[j - 1], tr[j - 1 + 1]);
      StepConserves(tr[j - 1], tr[j]);
    }
  }

  lemma InitConserved(s: State)
    requires Init(s)
    ensures Conserved(s)
  {
    forall b | b in s.rem ensures HeldOf(s.txs, b) == 0 { HeldInit(s.txs, b); }
  }

  /** What the committed transactions charge b: `units` for every occurrence in their trees. */
  ghost function CommittedOf(txs: seq<Tx>, b: Account): int {
    if txs == [] then 0
    else (if txs[0].phase.Committed? then Times(txs[0].units, Leaves(txs[0].limiter)[b]) else 0) + CommittedOf(txs[1..], b)
  }

  lemma {:induction false} SettledHolds(txs: seq<Tx>, b: Account)
    requires forall t :: t in txs ==> t.phase.Settled()
    ensures HeldOf(txs, b) == CommittedOf(txs, b)
  {
    if txs != [] {
      assert txs[0] in txs;
      var order := Order(txs[0].limiter);
      OrderListsLeaves(txs[0].limiter);
      assert order[..|order|] == order;
      SettledHolds(txs[1..], b);
    }
  }

  /** Once every transaction has settled, exactly the committed ones have spent anything; refused
      and rolled-back ones left no trace, whatever they were interleaved with. */
  lemma SettledSpending(tr: seq<State>, j: nat, b: Account)
    requires Run(tr) && j < |tr| && b in tr[j].rem
    requires forall t :: t in tr[j].txs ==> t.phase.Settled()
    ensures b.limit - tr[j].rem[b] == CommittedOf(tr[j].txs, b)
  {
    AlwaysConserved(tr, j);
    SettledHolds(tr[j].txs, b);
  }

  /** A settled transaction never changes again. */
  lemma {:induction false} SettledForGood(tr: seq<State>, j: nat, k: nat, i: nat)
    requires Run(tr) && j <= k < |tr| && i < |tr[j].txs| && tr[j].txs[i].phase.Settled()
    ensures i < |tr[k].txs| && tr[k].txs[i] == tr[j].txs[i]
    decreases k - j
  {
    if j < k {
      SettledForGood(tr, j, k - 1, i);
      assert Next(tr[k - 1], tr[k - 1 + 1]);
    }
  }

  // ----- a transaction on its own ----------------------------------------------------------------------------

  ghost predicate OwnStep(i: nat, s: State, s': State) {
    && i < |s.txs| && |s'.txs| == |s.txs| && s'.txs == s.txs[i := s'.txs[i]]
    && Step(s.rem, s.txs[i], s'.rem, s'.txs[i])
  }

  /** What a transaction still has to charge b for. */
  ghost function Rest(t: Tx, b: Account): nat
    requires t.phase.Reserving? && t.phase.k <= |Order(t.limiter)|
  { multiset(Order(t.limiter)[t.phase.k..])[b] }

  /** Nothing stands against what a transaction still has to charge. */
  ghost predicate Payable(rem: Balance, t: Tx) {
    && !t.blocked && t.units >= 1
    && (t.phase.Open? ||
        (t.phase.Reserving? && t.phase.k <= |Order(t.limiter)|
         && forall b :: b in Order(t.limiter)[t.phase.k..] ==> b in rem && Affords(b, Rest(t, b), t.units, rem[b])))
  }

  /** The steps that a transaction has at most before it. */
  ghost function Ahead(t: Tx): int {
    match t.phase
    case Reserving(k) => 2 * |Order(t.limiter)| - k + 3
    case Open => |Order(t.limiter)| + 2
    case Undoing(k) => k + 1
    case Returning(k) => k + 1
    case _ => 0
  }

  lemma PayNext(s: State, i: nat) returns (s': State)
    requires i < |s.txs| && Payable(s.rem, s.txs[i]) && InTree(s, s.txs[i])
    ensures OwnStep(i, s, s') && (s'.txs[i].phase.Committed? || Payable(s'.rem, s'.txs[i])) && Ahead(s'.txs[i]) < Ahead(s.txs[i])
  {
    var t := s.txs[i];
    var order := Order(t.limiter);
    if t.phase.Open? { s' := State(s.rem, s.txs[i := t.(phase := Committed)]); }
    else if t.phase.k == |order| { s' := State(s.rem, s.txs[i := t.(phase := Open)]); }
    else {
      var k := t.phase.k;
      var b := order[k];
      var t' := t.(phase := Reserving(k + 1));
      s' := State(s.rem[b := s.rem[b] - t.units], s.txs[i := t']);
      Affordable(s.rem, order, k, t.units);
      hide Order, Affords;
    }
  }

  /** The next charge can be paid, and the rest after it. */
  lemma Affordable(rem: Balance, order: seq<Account>, k: nat, units: int)
    requires k < |order| && units >= 1
    requires forall b :: b in order[k..] ==> b in rem && Affords(b, multiset(order[k..])[b], units, rem[b])
    ensures order[k] in rem && units <= (if order[k].rated then order[k].limit else rem[order[k]])
    ensures forall b :: b in order[k + 1..] ==> b in rem && Affords(b, multiset(order[k + 1..])[b], units, rem[order[k] := rem[order[k]] - units][b])
  {
    var first := order[k];
    assert order[k..] == [first] + order[k + 1..];
    assert first in order[k..];
    TimesGrows(units, 1, multiset(order[k + 1..])[first]);
    TimesSum(units, 1, multiset(order[k + 1..])[first]);
    assert Times(units, 1) == Times(units, 0) + units;
    forall b | b in order[k + 1..] ensures b in rem && Affords(b, multiset(order[k + 1..])[b], units, rem[first := rem[first] - units][b]) {
      assert b in order[k..];
    }
  }

  /** A transaction whose limiters all grant and can pay for the rest of it at once can be committed by its own steps. */
  lemma {:induction false} CommitReachable(tr: seq<State>, i: nat) returns (more: seq<State>)
    requires Run(tr) && i < |tr[|tr| - 1].txs| && Payable(tr[|tr| - 1].rem, tr[|tr| - 1].txs[i])
    ensures Run(more) && |more| > |tr| && more[..|tr|] == tr
    ensures forall j :: |tr| - 1 <= j < |more| - 1 ==> OwnStep(i, more[j], more[j + 1])
    ensures i < |more[|more| - 1].txs| && more[|more| - 1].txs[i] == tr[|tr| - 1].txs[i].(phase := Committed)
    decreases Ahead(tr[|tr| - 1].txs[i])
  {
    var s := tr[|tr| - 1];
    AlwaysConserved(tr, |tr| - 1);
    assert InTree(s, s.txs[i]);
    var s' := PayNext(s, i);
    hide Payable, Ahead, Conserved, Init, Step;
    more := Longer(tr, s', i);
    if !s'.txs[i].phase.Committed? {
      var rest := CommitReachable(more, i);
      Joins(tr, more, rest, i);
      more := rest;
    }
  }

  lemma Longer(tr: seq<State>, s': State, i: nat) returns (more: seq<State>)
    requires Run(tr) && OwnStep(i, tr[|tr| - 1], s')
    ensures more == tr + [s'] && Run(more)
  {
    more := tr + [s'];
    hide Init, Step;
    assert Next(tr[|tr| - 1], s');
    forall j | 0 <= j < |more| - 1 ensures Next(more[j], more[j + 1]) { if j < |tr| - 1 { assert Next(tr[j], tr[j + 1]); } }
  }

  lemma Joins(tr: seq<State>, longer: seq<State>, more: seq<State>, i: nat)
    requires |tr| > 0 && |longer| == |tr| + 1 && longer[..|tr|] == tr && |more| > |longer| && more[..|longer|] == longer
    requires OwnStep(i, tr[|tr| - 1], longer[|tr|]) && forall j :: |longer| - 1 <= j < |more| - 1 ==> OwnStep(i, more[j], more[j + 1])
    ensures more[..|tr|] == tr && forall j :: |tr| - 1 <= j < |more| - 1 ==> OwnStep(i, more[j], more[j + 1])
  {
    hide OwnStep;
    assert more[|tr| - 1] == longer[|tr| - 1] == tr[|tr| - 1] && more[|tr|] == longer[|tr|];
  }

  lemma CallOffNext(s: State, i: nat) returns (s': State)
    requires i < |s.txs| && InTree(s, s.txs[i]) && !s.txs[i].phase.Settled()
    ensures OwnStep(i, s, s') && !s'.txs[i].phase.Committed? && Ahead(s'.txs[i]) < Ahead(s.txs[i])
  {
    var t := s.txs[i];
    var order := Order(t.limiter);
    var rem', phase' := s.rem, t.phase;
    match t.phase {
      case Reserving(k) =>
        if k == |order| { phase' := Open; }
        else if !t.blocked && t.units >= 1 && t.units <= (if order[k].rated then order[k].limit else s.rem[order[k]]) {
          rem', phase' := s.rem[order[k] := s.rem[order[k]] - t.units], Reserving(k + 1);
        } else { phase' := Undoing(k); }
      case Undoing(k) =>
        if k == 0 { phase' := Denied; } else { rem', phase' := s.rem[order[k - 1] := s.rem[order[k - 1]] + t.units], Undoing(k - 1); }
      case Open => phase' := Returning(|order|);
      case Returning(k) =>
        if k == 0 { phase' := RolledBack; } else { rem', phase' := s.rem[order[k - 1] := s.rem[order[k - 1]] + t.units], Returning(k - 1); }
      case _ =>
    }
    s' := State(rem', s.txs[i := t.(phase := phase')]);
  }

  /** Whatever state the others are in, a transaction that has not settled can be called off by its own steps, and then every
      account has back all that the transaction held. */
  lemma {:induction false} CallOffReachable(tr: seq<State>, i: nat) returns (more: seq<State>)
    requires Run(tr) && i < |tr[|tr| - 1].txs| && !tr[|tr| - 1].txs[i].phase.Settled()
    ensures Run(more) && |more| > |tr| && more[..|tr|] == tr
    ensures forall j :: |tr| - 1 <= j < |more| - 1 ==> OwnStep(i, more[j], more[j + 1])
    ensures var s, s' := tr[|tr| - 1], more[|more| - 1];
      && i < |s'.txs| && (s'.txs[i].phase.Denied? || s'.txs[i].phase.RolledBack?) && s'.rem.Keys == s.rem.Keys
      && forall b :: b in s.rem ==> s'.rem[b] == s.rem[b] + Holds(s.txs[i], b)
    decreases Ahead(tr[|tr| - 1].txs[i])
  {
    var s := tr[|tr| - 1];
    AlwaysConserved(tr, |tr| - 1);
    assert InTree(s, s.txs[i]);
    var s' := CallOffNext(s, i);
    forall b | b in s.rem ensures b in s'.rem && s'.rem[b] + Holds(s'.txs[i], b) == s.rem[b] + Holds(s.txs[i], b) {
      StepBalances(s.rem, s.txs[i], s'.rem, s'.txs[i], b);
    }
    StepShape(s, s.txs[i], s', s'.txs[i]);
    if s'.txs[i].phase.Settled() { forall b ensures Holds(s'.txs[i], b) == 0 { NonePaid(Order(s'.txs[i].limiter), s'.txs[i].units, b); } }
    hide Ahead, Conserved, Init, Step, Holds;
    more := Longer(tr, s', i);
    if !s'.txs[i].phase.Settled() {
      var rest := CallOffReachable(more, i);
      Joins(tr, more, rest, i);
      more := rest;
    }
  }

  /** A refusal need not mean the budget is spent: two transactions compete for one unit, the first
      is rolled back, the second is refused meanwhile, and in the end nothing is spent. */
  lemma RefusalCanBeTransient(b: Account)
    requires b.limit == 1 && !b.rated
    ensures Run(Race(b)) && Race(b)[0].txs[1] == Tx(Single(b, true), 1, false, Reserving(0))
    ensures Race(b)[7] == State(map[b := 1], [Tx(Single(b, true), 1, false, RolledBack), Tx(Single(b, true), 1, false, Denied)])
  {
    hide Next;
    forall j | 0 <= j < |Race(b)| - 1 ensures Next(Race(b)[j], Race(b)[j + 1]) { RaceStep(b, j); }
  }

  ghost function Race(b: Account): seq<State> {
    seq(8, j requires 0 <= j < 8 => Moment(b, j))
  }

  ghost function Moment(b: Account, j: nat): State {
    State(map[b := if 1 <= j <= 5 then 0 else 1],
      [Tx(Single(b, true), 1, false, [Reserving(0), Reserving(1), Reserving(1), Open, Open, Returning(1), Returning(0), RolledBack][if j < 8 then j else 7]),
       Tx(Single(b, true), 1, false, if j < 2 then Reserving(0) else if j < 4 then Undoing(0) else Denied)])
  }

  lemma RaceStep(b: Account, j: nat)
    requires j < 7 && b.limit == 1 && !b.rated
    ensures Next(Moment(b, j), Moment(b, j + 1))
  {
    var s, s' := Moment(b, j), Moment(b, j + 1);
    assert Order(Single(b, true)) == [b] && !b.rated;
    if j == 1 || j == 3 {
      assert Step(s.rem, s.txs[1], s'.rem, s'.txs[1]);
      assert s'.txs == s.txs[1 := s'.txs[1]];
    } else {
      assert Step(s.rem, s.txs[0], s'.rem, s'.txs[0]);
      assert s'.txs == s.txs[0 := s'.txs[0]];
    }
  }
}
