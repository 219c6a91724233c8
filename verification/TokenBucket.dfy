/**
 The token bucket: tokens are taken one at a time by competing waiters, returned one at a time, and
 replenished by a ticker that drops what does not fit.
 */
module TokenBucket {

  /** The bucket itself; a channel of capacity `burst` is its count of tokens. */
  class Bucket {
    const burst: nat
    var tokens: nat
    var closed: bool

    ghost predicate Valid() reads this { burst >= 1 && tokens <= burst }

    constructor (burst: nat)
      requires burst >= 1
      ensures Valid() && this.burst == burst == tokens && !closed
    { this.burst, tokens, closed := burst, burst, false; }

    /** One tick of the replenisher: a token that does not fit is dropped. */
    method Tick() returns (added: bool)
      requires Valid()
      modifies `tokens
      ensures Valid() && added == (old(tokens) < burst) && tokens == old(tokens) + if added then 1 else 0
    {
      added := tokens < burst;
      if added { tokens := tokens + 1; }
    }

    /** Returns tokens until the bucket is full; the rest is dropped. */
    method Refund(units: nat) returns (returned: nat)
      requires Valid()
      modifies `tokens
      ensures Valid() && tokens == old(tokens) + returned
      ensures returned == units || (returned < units && tokens == burst)
    {
      returned := 0;
      while returned < units
        invariant Valid() && returned <= units && tokens == old(tokens) + returned
      {
        if tokens == burst { return; }
        tokens, returned := tokens + 1, returned + 1;
      }
    }
  }

  datatype Made = Refused | Bucketed(bucket: Bucket)

  /** A bucket is made, full, exactly when there are units, a burst, and at least one timer tick per unit. */
  method NewTokenBucket(units: int, per: int, burst: int) returns (made: Made)
    ensures made.Bucketed? <==> 1 <= units <= per && burst >= 1
    ensures made.Bucketed? ==> fresh(made.bucket) && made.bucket.Valid() && made.bucket.tokens == burst == made.bucket.burst
  {
    if units < 1 || per <= 0 || burst < 1 { return Refused; }
    var interval := per / units;
    OneTickPerUnit(units, per);
    if interval <= 0 { return Refused; }
    var bucket := new Bucket(burst);
    made := Bucketed(bucket);
  }

  lemma OneTickPerUnit(units: int, per: int)
    requires units >= 1 && per >= 1
    ensures per / units > 0 <==> units <= per
  {}

  // ----- many waiters ----------------------------------------------------------------------------------

  datatype Phase =
    | Asking                 // about to check the request
    | Checking(got: nat)     // at the head of the loop
    | Selecting(got: nat)    // waiting for a token, the context or the close
    | Taken(got: nat)        // just took a token
    | Returning(left: nat, committed: bool)   // refunding; `committed` is a rollback of a reservation
    | Reserved
    | Committed
    | Failed
    | RolledBack
  {
    predicate Settled() { Committed? || Failed? || RolledBack? }
  }

  datatype Waiter = Waiter(units: int, cancelled: bool, phase: Phase)

  /** `ticks`, `added`, `acquired`, `returned` and `dropped` count what has happened so far. */
  datatype State = State(tokens: nat, closed: bool, stopped: bool, waiters: seq<Waiter>,
                         ticks: nat, added: nat, acquired: nat, returned: nat, dropped: nat)

  datatype Config = Config(burst: nat)

  ghost predicate Init(c: Config, s: State) {
    && c.burst >= 1 && s == State(c.burst, false, false, s.waiters, 0, 0, 0, 0, 0)
    && forall w :: w in s.waiters ==> w.phase.Asking?
  }

  /** What a waiter's action does to its own phase and to the shared counters. */
  ghost predicate Act(c: Config, w: Waiter, s: State, p': Phase, s': State) {
    match w.phase
    case Asking => s' == s && p' == if w.units < 1 || w.units > c.burst || s.closed then Failed else Checking(0)
    case Checking(got) => s' == s && p' == if s.closed then Returning(got, false) else Selecting(got)
    case Selecting(got) =>
      || ((w.cancelled || s.closed) && s' == s && p' == Returning(got, false))
      || (s.tokens > 0 && s' == s.(tokens := s.tokens - 1, acquired := s.acquired + 1) && p' == Taken(got + 1))
    case Taken(got) => s' == s && p' == if s.closed then Returning(got, false) else if got < w.units then Checking(got) else Reserved
    case Returning(left, committed) =>
      if left > 0 && s.tokens < c.burst then
        s' == s.(tokens := s.tokens + 1, returned := s.returned + 1) && p' == Returning(left - 1, committed)
      else
        s' == s.(dropped := s.dropped + left) && p' == if committed then RolledBack else Failed
    case Reserved => s' == s && w.units >= 0 && (p' == Committed || p' == Returning(w.units, true))
    case _ => false
  }

  ghost predicate WaiterStep(c: Config, i: nat, p': Phase, s: State, s': State) {
    i < |s.waiters| && s'.waiters == s.waiters[i := s.waiters[i].(phase := p')]
      && Act(c, s.waiters[i], s, p', s'.(waiters := s.waiters))
  }

  /** The ticker, a cancellation, the close, or the replenisher noticing it. */
  ghost predicate EnvStep(c: Config, s: State, s': State) {
    || (!s.stopped && s' == Ticked(c, s))
    || (exists i :: Cancels(i, s, s'))
    || s' == s.(closed := true)
    || (s.closed && s' == s.(stopped := true))
  }

  function Ticked(c: Config, s: State): State {
    if s.tokens < c.burst then s.(tokens := s.tokens + 1, ticks := s.ticks + 1, added := s.added + 1) else s.(ticks := s.ticks + 1)
  }

  ghost predicate Cancels(i: nat, s: State, s': State) {
    i < |s.waiters| && s' == s.(waiters := s.waiters[i := s.waiters[i].(cancelled := true)])
  }

  ghost predicate SomeWaiter(c: Config, s: State, s': State) { exists i, p' :: WaiterStep(c, i, p', s, s') }

  ghost predicate Next(c: Config, s: State, s': State) { SomeWaiter(c, s, s') || EnvStep(c, s, s') }

  ghost predicate Run(c: Config, tr: seq<State>) {
    |tr| > 0 && Init(c, tr[0]) && forall t :: 0 <= t < |tr| - 1 ==> Next(c, tr[t], tr[t + 1])
  }

  // ----- conservation ------------------------------------------------------------------------------------

  /** The tokens a waiter holds: what it has gathered, still has to return, or has been granted. */
  function Holds(w: Waiter): nat {
    match w.phase
    case Checking(got) => got
    case Selecting(got) => got
    case Taken(got) => got
    case Returning(left, _) => left
    case Reserved => if w.units >= 0 then w.units else 0
    case Committed => if w.units >= 0 then w.units else 0
    case _ => 0
  }

  function Held(ws: seq<Waiter>): nat { if ws == [] then 0 else Holds(ws[0]) + Held(ws[1..]) }

  ghost predicate WaiterOk(w: Waiter) {
    match w.phase
    case Checking(got) => got < w.units
    case Selecting(got) => got < w.units
    case Taken(got) => got <= w.units
    case _ => true
  }

  /** The bucket never exceeds its burst; tokens are conserved; and no more tokens are dropped on return
      than ticks have put in meanwhile. */
  ghost predicate Inv(c: Config, s: State) {
    && c.burst >= 1 && s.tokens <= c.burst && s.added <= s.ticks
    && s.tokens + s.acquired == c.burst + s.added + s.returned
    && s.acquired == s.returned + s.dropped + Held(s.waiters)
    && s.dropped <= s.added && (s.stopped ==> s.closed)
    && (forall w :: w in s.waiters ==> WaiterOk(w))
  }

  lemma {:induction false} HeldUpdate(ws: seq<Waiter>, i: nat, w: Waiter)
    requires i < |ws|
    ensures Held(ws[i := w]) + Holds(ws[i]) == Held(ws) + Holds(w)
    ensures Held(ws) >= Holds(ws[i])
  {
    if i == 0 { assert ws[i := w][1..] == ws[1..]; } else {
      HeldUpdate(ws[1..], i - 1, w);
      assert ws[i := w][1..] == ws[1..][i - 1 := w];
    }
  }

  lemma {:induction false} NoneHeld(ws: seq<Waiter>)
    requires forall w :: w in ws ==> Holds(w) == 0
    ensures Held(ws) == 0
  {
    if ws != [] {
      assert ws[0] in ws;
      NoneHeld(ws[1..]);
    }
  }

  /** The counters, apart from whose tokens are held. */
  ghost predicate Balanced(c: Config, s: State, held: nat) {
    && c.burst >= 1 && s.tokens <= c.burst && s.added <= s.ticks
    && s.tokens + s.acquired == c.burst + s.added + s.returned
    && s.acquired == s.returned + s.dropped + held
    && s.dropped <= s.added && (s.stopped ==> s.closed)
  }

  lemma ActBalances(c: Config, w: Waiter, s: State, p': Phase, g: State, held: nat)
    requires Act(c, w, s, p', g) && WaiterOk(w) && held >= Holds(w) && Balanced(c, s, held)
    ensures WaiterOk(w.(phase := p')) && Balanced(c, g, held - Holds(w) + Holds(w.(phase := p')))
  {}

  lemma StepInv(c: Config, s: State, s': State)
    requires Inv(c, s) && Next(c, s, s')
    ensures Inv(c, s')
  {
    hide WaiterOk, Act, Holds, Held;
    if SomeWaiter(c, s, s') {
      var i: nat, p' :| WaiterStep(c, i, p', s, s');
      var w := s.waiters[i];
      assert w in s.waiters;
      HeldUpdate(s.waiters, i, w.(phase := p'));
      ActBalances(c, w, s, p', s'.(waiters := s.waiters), Held(s.waiters));
    } else if i: nat :| Cancels(i, s, s') {
      var w := s.waiters[i];
      assert w in s.waiters;
      HeldUpdate(s.waiters, i, w.(cancelled := true));
      Cancelled(w);
    }
  }

  lemma Cancelled(w: Waiter)
    ensures Holds(w.(cancelled := true)) == Holds(w) && WaiterOk(w.(cancelled := true)) == WaiterOk(w) && Work(w.(cancelled := true)) == Work(w)
  {}

  lemma {:induction false} RunInv(c: Config, tr: seq<State>, t: nat)
    requires Run(c, tr) && t < |tr|
    ensures Inv(c, tr[t])
  {
    if t == 0 { NoneHeld(tr[0].waiters); } else {
      hide Inv, Next;
      RunInv(c, tr, t - 1);
      assert Next(c, tr[t - 1], tr[t - 1 + 1]);
      StepInv(c, tr[t - 1], tr[t]);
    }
  }

  lemma CountersGrow(c: Config, s: State, s': State)
    requires Next(c, s, s')
    ensures s'.ticks - s.ticks >= s'.added - s.added >= 0
  {
    if SomeWaiter(c, s, s') { var i: nat, p' :| WaiterStep(c, i, p', s, s'); }
    else if i: nat :| Cancels(i, s, s') { }
  }

  lemma {:induction false} WindowTicks(c: Config, tr: seq<State>, t: nat, u: nat)
    requires Run(c, tr) && t <= u < |tr|
    ensures tr[u].ticks - tr[t].ticks >= tr[u].added - tr[t].added >= 0
    decreases u
  {
    if t < u {
      WindowTicks(c, tr, t, u - 1);
      assert Next(c, tr[u - 1], tr[u - 1 + 1]);
      CountersGrow(c, tr[u - 1], tr[u]);
    }
  }

  /** Over every window of every run, the tokens taken minus those returned are at most the burst plus
      the ticks in the window; and the bucket never holds more than its burst. */
  lemma RateBound(c: Config, tr: seq<State>, t: nat, u: nat)
    requires Run(c, tr) && t <= u < |tr|
    ensures (tr[u].acquired - tr[t].acquired) - (tr[u].returned - tr[t].returned) <= c.burst + (tr[u].ticks - tr[t].ticks)
    ensures tr[u].tokens <= c.burst
  {
    RunInv(c, tr, t);
    RunInv(c, tr, u);
    WindowTicks(c, tr, t, u);
  }

  /** A waiter that failed or was rolled back keeps nothing.  What has been taken for good is what the
      others hold and what was dropped, and only ticks can have made room for drops: without a tick every
      return is exact. */
  lemma NothingKept(c: Config, tr: seq<State>, t: nat, i: nat)
    requires Run(c, tr) && t < |tr| && i < |tr[t].waiters|
    ensures tr[t].waiters[i].phase.Failed? || tr[t].waiters[i].phase.RolledBack? ==> Holds(tr[t].waiters[i]) == 0
    ensures tr[t].acquired - tr[t].returned == Held(tr[t].waiters) + tr[t].dropped && tr[t].dropped <= tr[t].added
    ensures tr[t].ticks == 0 ==> tr[t].tokens + Held(tr[t].waiters) == c.burst
  {
    RunInv(c, tr, t);
  }

  // ----- after the close ----------------------------------------------------------------------------------

  predicate Granted(p: Phase) { p.Reserved? || p.Committed? || p.RolledBack? || (p.Returning? && p.committed) }

  lemma CloseStep(c: Config, s: State, s': State, i: nat)
    requires Next(c, s, s') && s.closed && i < |s.waiters| && !Granted(s.waiters[i].phase)
    ensures s'.closed && i < |s'.waiters| && !Granted(s'.waiters[i].phase)
  {
    if SomeWaiter(c, s, s') { var j: nat, p' :| WaiterStep(c, j, p', s, s'); }
    else if j: nat :| Cancels(j, s, s') { }
  }

  /** Nobody who was still waiting when the bucket closed is granted anything later. */
  lemma {:induction false} ClosedGrantsNothing(c: Config, tr: seq<State>, t: nat, u: nat, i: nat)
    requires Run(c, tr) && t <= u < |tr| && tr[t].closed && i < |tr[t].waiters| && !Granted(tr[t].waiters[i].phase)
    ensures tr[u].closed && i < |tr[u].waiters| && !Granted(tr[u].waiters[i].phase)
    decreases u
  {
    if t < u {
      ClosedGrantsNothing(c, tr, t, u - 1, i);
      assert Next(c, tr[u - 1], tr[u - 1 + 1]);
      CloseStep(c, tr[u - 1], tr[u], i);
    }
  }

  // ----- who is granted -----------------------------------------------------------------------------------

  /** A request that the bucket can hold. */
  predicate WellFormed(c: Config, w: Waiter) { 1 <= w.units <= c.burst }

  /** Only well-formed requests get past the first check, and only a cancellation or the close turns them back. */
  predicate Treated(c: Config, s: State, w: Waiter) {
    match w.phase
    case Asking => true
    case Failed => !WellFormed(c, w) || w.cancelled || s.closed
    case Returning(_, committed) => WellFormed(c, w) && (committed || w.cancelled || s.closed)
    case _ => WellFormed(c, w)
  }

  ghost predicate AllTreated(c: Config, s: State) { forall i :: 0 <= i < |s.waiters| ==> Treated(c, s, s.waiters[i]) }

  lemma TreatedStep(c: Config, s: State, s': State)
    requires AllTreated(c, s) && Next(c, s, s')
    ensures AllTreated(c, s')
  {
    if SomeWaiter(c, s, s') { var i: nat, p' :| WaiterStep(c, i, p', s, s'); }
    else if i: nat :| Cancels(i, s, s') { }
  }

  lemma {:induction false} RunTreated(c: Config, tr: seq<State>, t: nat)
    requires Run(c, tr) && t < |tr|
    ensures AllTreated(c, tr[t])
  {
    if t > 0 {
      RunTreated(c, tr, t - 1);
      assert Next(c, tr[t - 1], tr[t - 1 + 1]);
      TreatedStep(c, tr[t - 1], tr[t]);
    }
  }

  /** A waiter fails only because its request was malformed, it was cancelled, or the bucket has closed; and a malformed
      request is never granted and never takes a token. */
  lemma FailsOnlyForCause(c: Config, tr: seq<State>, t: nat, i: nat)
    requires Run(c, tr) && t < |tr| && i < |tr[t].waiters|
    ensures var w := tr[t].waiters[i];
      && (w.phase.Failed? ==> w.units < 1 || w.units > c.burst || w.cancelled || tr[t].closed)
      && (w.units < 1 || w.units > c.burst ==> (w.phase.Asking? || w.phase.Failed?) && Holds(w) == 0)
  {
    RunTreated(c, tr, t);
  }

  /** The tokens that a waiter still needs. */
  function Wants(w: Waiter): int {
    match w.phase
    case Asking => w.units
    case Checking(got) => w.units - got
    case Selecting(got) => w.units - got
    case Taken(got) => w.units - got
    case _ => 0
  }

  predicate OnTheWay(c: Config, w: Waiter) {
    WellFormed(c, w) && !w.cancelled && (w.phase.Asking? || w.phase.Checking? || w.phase.Selecting? || w.phase.Taken?)
  }

  ghost predicate OwnAction(c: Config, i: nat, s: State, s': State) { exists p' :: WaiterStep(c, i, p', s, s') }

  /** A tick, or an action of waiter i. */
  ghost predicate OwnMove(c: Config, i: nat, s: State, s': State) { OwnAction(c, i, s, s') || (!s.stopped && s' == Ticked(c, s)) }

  lemma OneCloser(c: Config, s: State, i: nat) returns (s': State)
    requires Inv(c, s) && !s.closed && i < |s.waiters| && OnTheWay(c, s.waiters[i])
    requires !(s.waiters[i].phase.Selecting? && s.tokens == 0)
    ensures OwnAction(c, i, s, s') && !s'.closed && |s'.waiters| == |s.waiters| && s'.ticks == s.ticks
    ensures var w, w' := s.waiters[i], s'.waiters[i];
      && w'.units == w.units && Work(w') < Work(w) && Wants(w') <= Wants(w) && (OnTheWay(c, w') || w'.phase.Reserved?)
      && (w.phase.Selecting? ==> Wants(w') < Wants(w))
  {
    var w := s.waiters[i];
    assert w in s.waiters && WaiterOk(w);
    var p', g := w.phase, s;
    match w.phase {
      case Asking => p' := Checking(0);
      case Checking(got) => p' := Selecting(got);
      case Selecting(got) => p', g := Taken(got + 1), s.(tokens := s.tokens - 1, acquired := s.acquired + 1);
      case Taken(got) => p' := if got < w.units then Checking(got) else Reserved;
    }
    s' := g.(waiters := s.waiters[i := w.(phase := p')]);
    assert s'.(waiters := s.waiters) == g;
    assert WaiterStep(c, i, p', s, s');
  }

  lemma Longer(c: Config, tr: seq<State>, s': State, i: nat) returns (longer: seq<State>)
    requires Run(c, tr) && OwnMove(c, i, tr[|tr| - 1], s')
    ensures longer == tr + [s'] && Run(c, longer)
  {
    longer := tr + [s'];
    hide Init, EnvStep, WaiterStep;
    assert Next(c, tr[|tr| - 1], s') by { OwnMoveIsMove(c, i, tr[|tr| - 1], s'); }
    forall t | 0 <= t < |longer| - 1 ensures Next(c, longer[t], longer[t + 1]) { if t < |tr| - 1 { assert Next(c, tr[t], tr[t + 1]); } }
  }

  lemma OwnMoveIsMove(c: Config, i: nat, s: State, s': State)
    requires OwnMove(c, i, s, s')
    ensures Next(c, s, s')
  {}

  /** Whatever has happened, while the bucket is open a well-formed waiter that nobody cancels can still be granted: by
      its own actions and at most one tick for every token that it still needs. */
  lemma {:induction false} GrantReachable(c: Config, tr: seq<State>, i: nat) returns (more: seq<State>)
    requires Run(c, tr) && var s := tr[|tr| - 1]; !s.closed && i < |s.waiters| && OnTheWay(c, s.waiters[i])
    ensures Run(c, more) && |more| > |tr| && more[..|tr|] == tr
    ensures forall t :: |tr| - 1 <= t < |more| - 1 ==> OwnMove(c, i, more[t], more[t + 1])
    ensures var s, s' := tr[|tr| - 1], more[|more| - 1];
      && i < |s'.waiters| && s'.waiters[i].phase.Reserved? && s'.waiters[i].units == s.waiters[i].units
      && s'.ticks - s.ticks <= Wants(s.waiters[i]) - (if s.waiters[i].phase.Selecting? && s.tokens > 0 then 1 else 0)
    decreases Work(tr[|tr| - 1].waiters[i]), if tr[|tr| - 1].tokens == 0 then 1 else 0
  {
    var s := tr[|tr| - 1];
    RunInv(c, tr, |tr| - 1);
    var s';
    if s.waiters[i].phase.Selecting? && s.tokens == 0 { s' := Ticked(c, s); } else { s' := OneCloser(c, s, i); }
    hide Act, Work, Inv, OwnAction;
    var longer := Longer(c, tr, s', i);
    if s'.waiters[i].phase.Reserved? { return longer; }
    more := GrantReachable(c, longer, i);
    forall t | |tr| - 1 <= t < |more| - 1 ensures OwnMove(c, i, more[t], more[t + 1]) {
      assert more[..|longer|] == longer;
    }
  }

  /** What a waiter has to hand back when it is rolled back, or is handing back already. */
  function Owes(w: Waiter): int {
    match w.phase
    case Reserved => w.units
    case Returning(left, _) => left
    case _ => 0
  }

  /** From s to s' waiter i has handed back all that it owes, as far as it fits. */
  ghost predicate HandedBack(c: Config, s: State, s': State, i: nat) {
    && i < |s.waiters| && i < |s'.waiters|
    && s'.waiters[i].phase == (if s.waiters[i].phase.Returning? && !s.waiters[i].phase.committed then Failed else RolledBack)
    && s'.tokens == (if s.tokens + Owes(s.waiters[i]) < c.burst then s.tokens + Owes(s.waiters[i]) else c.burst)
  }

  /** A granted request can be rolled back, and whoever hands tokens back can do so by its own actions alone: then the
      bucket has all of them again, or is full. */
  lemma {:induction false} HandsBack(c: Config, tr: seq<State>, i: nat) returns (more: seq<State>)
    requires Run(c, tr) && var s := tr[|tr| - 1]; i < |s.waiters| && (s.waiters[i].phase.Reserved? || s.waiters[i].phase.Returning?)
    ensures Run(c, more) && |more| > |tr| && more[..|tr|] == tr
    ensures forall t :: |tr| - 1 <= t < |more| - 1 ==> OwnAction(c, i, more[t], more[t + 1])
    ensures HandedBack(c, tr[|tr| - 1], more[|more| - 1], i)
    decreases Work(tr[|tr| - 1].waiters[i])
  {
    var s := tr[|tr| - 1];
    RunInv(c, tr, |tr| - 1);
    RunTreated(c, tr, |tr| - 1);
    assert Treated(c, s, s.waiters[i]);
    var s' := OneBack(c, s, i);
    hide Act, Inv, OwnAction, Run, AllTreated, Treated, Work;
    var longer := Longer(c, tr, s', i);
    if s'.waiters[i].phase.Returning? {
      more := HandsBack(c, longer, i);
      forall t | |tr| - 1 <= t < |more| - 1 ensures OwnAction(c, i, more[t], more[t + 1]) {
        assert more[..|longer|] == longer;
      }
    } else { more := longer; }
  }

  lemma OneBack(c: Config, s: State, i: nat) returns (s': State)
    requires Inv(c, s) && i < |s.waiters|
    requires s.waiters[i].phase.Returning? || (s.waiters[i].phase.Reserved? && s.waiters[i].units >= 1)
    ensures OwnAction(c, i, s, s') && |s'.waiters| == |s.waiters|
    ensures var w, w' := s.waiters[i], s'.waiters[i];
      && w'.units == w.units && Work(w') < Work(w)
      && (if w'.phase.Returning? then
            (w.phase.Returning? ==> w'.phase.committed == w.phase.committed) && (w.phase.Reserved? ==> w'.phase.committed)
            && s'.tokens + Owes(w') == s.tokens + Owes(w)
          else
            && w.phase.Returning? && w'.phase == (if w.phase.committed then RolledBack else Failed)
            && s'.tokens == s.tokens && (Owes(w) == 0 || s.tokens == c.burst))
      && s'.tokens <= c.burst
  {
    var w := s.waiters[i];
    var p', g := w.phase, s;
    if w.phase.Reserved? { p' := Returning(w.units, true); }
    else if w.phase.left > 0 && s.tokens < c.burst {
      p', g := Returning(w.phase.left - 1, w.phase.committed), s.(tokens := s.tokens + 1, returned := s.returned + 1);
    } else { p', g := if w.phase.committed then RolledBack else Failed, s.(dropped := s.dropped + w.phase.left); }
    s' := g.(waiters := s.waiters[i := w.(phase := p')]);
    assert s'.(waiters := s.waiters) == g;
    assert WaiterStep(c, i, p', s, s');
  }

  // ----- progress ------------------------------------------------------------------------------------------

  predicate Waiting(p: Phase) { !p.Settled() && !p.Reserved? }

  ghost predicate CanAct(c: Config, s: State, i: nat) { exists p', s' :: WaiterStep(c, i, p', s, s') }

  /** Competing partial acquisitions cannot deadlock: a waiter that still wants something can act now, or
      it wants a token of an empty, open bucket, and then the next tick, which held tokens can never
      block, lets it act. */
  lemma HeldTokensNeverBlock(c: Config, tr: seq<State>, t: nat, i: nat)
    requires Run(c, tr) && t < |tr| && i < |tr[t].waiters| && Waiting(tr[t].waiters[i].phase)
    ensures CanAct(c, tr[t], i) || (tr[t].waiters[i].phase.Selecting? && tr[t].tokens == 0 && !tr[t].closed)
    ensures tr[t].waiters[i].phase.Selecting? && tr[t].tokens == 0 && !tr[t].closed ==>
              EnvStep(c, tr[t], Ticked(c, tr[t])) && CanAct(c, Ticked(c, tr[t]), i)
  {
    RunInv(c, tr, t);
    ActsIfItCan(c, tr[t], i);
    ActsIfItCan(c, Ticked(c, tr[t]), i);
  }

  lemma ActsIfItCan(c: Config, s: State, i: nat)
    requires i < |s.waiters| && Waiting(s.waiters[i].phase)
    ensures CanAct(c, s, i) || (s.waiters[i].phase.Selecting? && s.tokens == 0 && !s.closed)
  {
    var w := s.waiters[i];
    var p', g := w.phase, s;
    match w.phase {
      case Asking => p' := if w.units < 1 || w.units > c.burst || s.closed then Failed else Checking(0);
      case Checking(got) => p' := if s.closed then Returning(got, false) else Selecting(got);
      case Selecting(got) =>
        if w.cancelled || s.closed { p' := Returning(got, false); }
        else if s.tokens > 0 { p', g := Taken(got + 1), s.(tokens := s.tokens - 1, acquired := s.acquired + 1); }
        else { return; }
      case Taken(got) => p' := if s.closed then Returning(got, false) else if got < w.units then Checking(got) else Reserved;
      case Returning(left, committed) =>
        if left > 0 && s.tokens < c.burst { p', g := Returning(left - 1, committed), s.(tokens := s.tokens + 1, returned := s.returned + 1); }
        else { p', g := if committed then RolledBack else Failed, s.(dropped := s.dropped + left); }
      case _ =>
    }
    var s' := g.(waiters := s.waiters[i := w.(phase := p')]);
    assert s'.(waiters := s.waiters) == g;
    assert WaiterStep(c, i, p', s, s');
  }

  /** How much a waiter still has to do at most. */
  function Work(w: Waiter): nat {
    var u := if w.units >= 0 then w.units else 0;
    match w.phase
    case Asking => 5 * u + 8
    case Checking(got) => (if got <= u then 3 * (u - got) else 0) + 2 * u + 7
    case Selecting(got) => (if got <= u then 3 * (u - got) else 0) + 2 * u + 6
    case Taken(got) => (if got <= u then 3 * (u - got) else 0) + 2 * u + 8
    case Reserved => u + 3
    case Returning(left, _) => left + 2
    case _ => 0
  }

  function TotalWork(ws: seq<Waiter>): nat { if ws == [] then 0 else Work(ws[0]) + TotalWork(ws[1..]) }

  lemma {:induction false} WorkUpdate(ws: seq<Waiter>, i: nat, w: Waiter)
    requires i < |ws|
    ensures TotalWork(ws[i := w]) + Work(ws[i]) == TotalWork(ws) + Work(w)
  {
    if i == 0 { assert ws[i := w][1..] == ws[1..]; } else {
      WorkUpdate(ws[1..], i - 1, w);
      assert ws[i := w][1..] == ws[1..][i - 1 := w];
    }
  }

  /** Waiters act only finitely often, however ticks and cancellations are interleaved: every action
      brings the waiters closer to the end, and nothing else takes them further from it. */
  lemma ActionsRunOut(c: Config, tr: seq<State>, t: nat)
    requires Run(c, tr) && t + 1 < |tr|
    ensures SomeWaiter(c, tr[t], tr[t + 1]) ==> TotalWork(tr[t + 1].waiters) < TotalWork(tr[t].waiters)
    ensures !SomeWaiter(c, tr[t], tr[t + 1]) ==> TotalWork(tr[t + 1].waiters) == TotalWork(tr[t].waiters)
  {
    RunInv(c, tr, t);
    var s, s' := tr[t], tr[t + 1];
    assert Next(c, s, s');
    hide WaiterOk, Act, Work, TotalWork, Run, Held;
    if SomeWaiter(c, s, s') {
      var i: nat, p' :| WaiterStep(c, i, p', s, s');
      assert s.waiters[i] in s.waiters;
      ActWork(c, s.waiters[i], s, p', s'.(waiters := s.waiters));
      WorkUpdate(s.waiters, i, s.waiters[i].(phase := p'));
    } else if i: nat :| Cancels(i, s, s') {
      WorkUpdate(s.waiters, i, s.waiters[i].(cancelled := true));
      Cancelled(s.waiters[i]);
    }
  }

  lemma ActWork(c: Config, w: Waiter, s: State, p': Phase, g: State)
    requires Act(c, w, s, p', g) && WaiterOk(w)
    ensures Work(w.(phase := p')) < Work(w)
  {}
}
