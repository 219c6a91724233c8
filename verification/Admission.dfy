/**
 Transactional admission: budgets, rate limiters, one-shot reservations, and limiters composed into chains of
 any nesting.  A reservation's shape is fixed when it is made, so the trees below are constants;
 only `finished` and `remaining` change.  A balance is a ghost record of what a set of accounts
 holds; the methods say how they turn one balance into the next.
 */
module Admission {
  import opened Common

  /** What admission draws on: a finite budget, or a rate limiter's bucket.  A bucket is refilled by its
      ticks, so its `remaining` does not bound what it can give: it is its burst less all tokens taken from
      it and not handed back. */
  class Account {
    const rated: bool
    const limit: nat
    var remaining: int

    constructor (limit: nat, rated: bool)
      ensures this.limit == remaining == limit && this.rated == rated
    { this.limit, this.rated, remaining := limit, rated, limit; }

    /** Charges provisionally; refuses, charging nothing, when the context is done, the units are not
        positive or the budget cannot cover them. */
    method Charge(done: bool, units: int) returns (ok: bool)
      modifies this
      ensures ok == (!done && 1 <= units <= old(remaining))
      ensures remaining == old(remaining) - if ok then units else 0
    {
      if done || units < 1 || units > remaining { return false; }
      remaining := remaining - units;
      return true;
    }

    /** Takes tokens from a bucket: all of them when they arrive, or none when the wait fails first or they
        are more than the bucket ever holds; what a failed waiter had taken it has handed back. */
    method Take(done: bool, arrive: bool, units: int) returns (ok: bool)
      modifies this
      ensures ok == (!done && arrive && 1 <= units <= limit)
      ensures remaining == old(remaining) - if ok then units else 0
    {
      if units < 1 || units > limit || done || !arrive { return false; }
      remaining := remaining - units;
      return true;
    }

    method Refund(units: nat)
      modifies this
      ensures remaining == old(remaining) + units
    { remaining := remaining + units; }
  }

  /** A budget, a bucket with whether its tokens arrive before the wait fails, a custom limiter that can only
      wait (and so grants irrevocably, or not), or a chain. */
  datatype Limiter = Single(account: Account, arrive: bool) | WaitOnly(grants: bool) | Chain(limiters: seq<Limiter>)

  datatype Outcome = Refused | Reserved(reservation: Reservation)

  // ----- balances -------------------------------------------------------------------------------

  type Balance = map<Account, int>

  /** The accounts hold what the balance says. */
  ghost predicate Records(rem: Balance)
    reads rem.Keys
  {
    forall b :: b in rem ==> b.remaining == rem[b]
  }

  /** No budget is overdrawn, and no account is above its limit. */
  ghost predicate Within(rem: Balance) { forall b :: b in rem ==> rem[b] <= b.limit && (b.rated || 0 <= rem[b]) }

  /** n times u, as repeated addition. */
  ghost function Times(u: int, n: nat): int { if n == 0 then 0 else Times(u, n - 1) + u }

  lemma {:induction false} TimesIsProduct(u: int, n: nat)
    ensures Times(u, n) == u * n
  {
    if n > 0 { TimesIsProduct(u, n - 1); }
  }

  lemma {:induction false} TimesSum(u: int, x: nat, y: nat)
    ensures Times(u, x + y) == Times(u, x) + Times(u, y)
  {
    if y > 0 { TimesSum(u, x, y - 1); }
  }

  lemma {:induction false} TimesGrows(u: int, x: nat, y: nat)
    requires u >= 0
    ensures Times(u, x) <= Times(u, x + y)
  {
    if y > 0 { TimesGrows(u, x, y - 1); }
  }

  /** The balance after charging every occurrence in m with `units`, or after returning them. */
  ghost function Charged(rem: Balance, m: multiset<Account>, units: int): Balance {
    map b | b in rem :: rem[b] - Times(units, m[b])
  }

  ghost function Returned(rem: Balance, m: multiset<Account>, units: int): Balance {
    map b | b in rem :: rem[b] + Times(units, m[b])
  }

  lemma ChargedTwice(rem: Balance, m: multiset<Account>, n: multiset<Account>, units: int)
    ensures Charged(Charged(rem, m, units), n, units) == Charged(rem, m + n, units)
  {
    forall b | b in rem ensures Charged(rem, m + n, units)[b] == Charged(Charged(rem, m, units), n, units)[b] {
      TimesSum(units, m[b], n[b]);
    }
  }

  lemma ReturnUndoes(rem: Balance, m: multiset<Account>, n: multiset<Account>, units: int)
    ensures Returned(Charged(rem, m + n, units), n, units) == Charged(rem, m, units)
  {
    forall b | b in rem ensures Returned(Charged(rem, m + n, units), n, units)[b] == Charged(rem, m, units)[b] {
      TimesSum(units, m[b], n[b]);
    }
  }

  lemma ReturnedTwice(rem: Balance, m: multiset<Account>, n: multiset<Account>, units: int)
    ensures Returned(Returned(rem, n, units), m, units) == Returned(rem, m + n, units)
  {
    forall b | b in rem ensures Returned(rem, m + n, units)[b] == Returned(Returned(rem, n, units), m, units)[b] {
      TimesSum(units, m[b], n[b]);
    }
  }

  lemma NothingMoves(rem: Balance, units: int)
    ensures Charged(rem, multiset{}, units) == rem && Returned(rem, multiset{}, units) == rem
  {}

  // ----- what a limiter tree is made of -------------------------------------------------------

  /** How often each account occurs in a limiter tree. */
  ghost function Leaves(l: Limiter): multiset<Account> {
    match l
    case Single(b, _) => multiset{b}
    case WaitOnly(_) => multiset{}
    case Chain(ls) => AllLeaves(ls)
  }

  ghost function AllLeaves(ls: seq<Limiter>): multiset<Account> {
    if ls == [] then multiset{} else AllLeaves(ls[..|ls| - 1]) + Leaves(ls[|ls| - 1])
  }

  /** Every custom limiter in the tree grants, and every bucket's tokens arrive. */
  ghost predicate Consents(l: Limiter) {
    match l
    case Single(b, arrive) => b.rated ==> arrive
    case WaitOnly(grants) => grants
    case Chain(ls) => AllConsent(ls)
  }

  ghost predicate AllConsent(ls: seq<Limiter>) {
    ls != [] ==> AllConsent(ls[..|ls| - 1]) && Consents(ls[|ls| - 1])
  }

  /** A budget must cover all its occurrences at once; a bucket must be able to hold the units of one. */
  ghost predicate Affords(b: Account, n: nat, units: int, left: int) {
    if b.rated then units <= b.limit else Times(units, n) <= left
  }

  /** What admission of these occurrences needs: a live context and positive units if it draws on anything,
      every limiter's consent, and that every account affords its occurrences. */
  ghost predicate Admissible(m: multiset<Account>, consent: bool, done: bool, units: int, rem: Balance) {
    && (m != multiset{} ==> !done && units >= 1)
    && consent
    && (forall b :: b in m ==> b in rem && Affords(b, m[b], units, rem[b]))
  }

  lemma {:induction false} PrefixLeaves(ls: seq<Limiter>, i: nat)
    requires i < |ls|
    ensures AllLeaves(ls[..i + 1]) == AllLeaves(ls[..i]) + Leaves(ls[i])
    ensures AllConsent(ls[..i + 1]) == (AllConsent(ls[..i]) && Consents(ls[i]))
    ensures AllLeaves(ls[..i + 1]) <= AllLeaves(ls) && (AllConsent(ls) ==> AllConsent(ls[..i + 1]))
    decreases |ls|
  {
    assert ls[..i + 1][..i] == ls[..i];
    if i + 1 < |ls| {
      var rest := ls[..|ls| - 1];
      PrefixLeaves(rest, i);
      assert rest[..i + 1] == ls[..i + 1] && rest[..i] == ls[..i];
    } else {
      assert ls[..i + 1] == ls;
    }
  }

  /** If one limiter is refused after its predecessors were charged, the whole chain was inadmissible. */
  lemma RefusalIsFinal(ls: seq<Limiter>, i: nat, done: bool, units: int, was: Balance)
    requires i < |ls|
    requires !Admissible(Leaves(ls[i]), Consents(ls[i]), done, units, Charged(was, AllLeaves(ls[..i]), units))
    ensures !Admissible(AllLeaves(ls), AllConsent(ls), done, units, was)
  {
    PrefixLeaves(ls, i);
    hide Leaves, AllLeaves, Consents, AllConsent, Times;
    if Admissible(AllLeaves(ls), AllConsent(ls), done, units, was) {
      PartAdmissible(AllLeaves(ls[..i]), Leaves(ls[i]), AllLeaves(ls), done, units, was);
    }
  }

  lemma PartAdmissible(p: multiset<Account>, m: multiset<Account>, a: multiset<Account>, done: bool, units: int, was: Balance)
    requires p + m <= a && Admissible(a, true, done, units, was)
    ensures Admissible(m, true, done, units, Charged(was, p, units))
  {
    hide Times;
    forall b | b in m ensures b in was && Affords(b, m[b], units, was[b] - Times(units, p[b])) {
      assert b in a && p[b] + m[b] <= a[b];
      TimesSum(units, p[b], m[b]);
      TimesGrows(units, p[b] + m[b], a[b] - p[b] - m[b]);
    }
  }

  lemma BothAdmissible(p: multiset<Account>, m: multiset<Account>, done: bool, units: int, was: Balance)
    requires Admissible(p, true, done, units, was) && Admissible(m, true, done, units, Charged(was, p, units))
    ensures Admissible(p + m, true, done, units, was)
  {
    forall b | b in p + m ensures b in was && Affords(b, (p + m)[b], units, was[b]) {
      TimesSum(units, p[b], m[b]);
      if b in m { assert b in Charged(was, p, units); } else { assert m[b] == 0; }
    }
  }

  /** Admitting a prefix and then the next limiter is admitting the longer prefix. */
  lemma AdmitNext(ls: seq<Limiter>, i: nat, done: bool, units: int, was: Balance)
    requires i < |ls| && Admissible(AllLeaves(ls[..i]), AllConsent(ls[..i]), done, units, was)
    requires Admissible(Leaves(ls[i]), Consents(ls[i]), done, units, Charged(was, AllLeaves(ls[..i]), units))
    ensures Admissible(AllLeaves(ls[..i + 1]), AllConsent(ls[..i + 1]), done, units, was)
  {
    PrefixLeaves(ls, i);
    hide Leaves, AllLeaves, Consents, AllConsent, Times;
    BothAdmissible(AllLeaves(ls[..i]), Leaves(ls[i]), done, units, was);
  }

  // ----- reservations -----------------------------------------------------------------------------

  /** A provisional charge: of one account, or of the parts of a chain. */
  class Reservation {
    var finished: bool
    const account: Account?
    const units: int
    const parts: seq<Reservation>
    ghost const held: multiset<Account>     // the accounts charged, once per occurrence
    ghost const nodes: set<Reservation>    // this reservation and everything below it
    ghost const height: nat

    ghost predicate Formed()
      decreases height
    {
      && this in nodes
      && if account != null then parts == [] && units >= 0 && held == multiset{account} && nodes == {this}
         else
           && (forall p :: p in parts ==> p.height < height && p.Formed())
           && Forest(parts, units) && held == HeldBy(parts) && nodes == {this} + NodesOf(parts) && this !in NodesOf(parts)
    }

    ghost predicate Open() reads nodes { forall n :: n in nodes ==> !n.finished }
    ghost predicate Closed() reads nodes { forall n :: n in nodes ==> n.finished }

    constructor Leaf(b: Account, units: int)
      requires units >= 0
      ensures Formed() && Open() && held == multiset{b} && this.units == units && nodes == {this}
    {
      finished := false;
      this.account, this.units, this.parts := b, units, [];
      held, nodes, height := multiset{b}, {this}, 0;
    }

    constructor Composed(parts: seq<Reservation>, units: int)
      requires (forall p :: p in parts ==> p.Formed() && p.Open()) && Forest(parts, units)
      ensures Formed() && Open() && held == HeldBy(parts) && this.units == units && nodes == {this} + NodesOf(parts)
      ensures fresh(this)
    {
      finished := false;
      this.account, this.units, this.parts := null, units, parts;
      held, nodes, height := HeldBy(parts), {this} + NodesOf(parts), Above(parts);
      new;
      AboveAll(parts);
      if this in NodesOf(parts) {
        var _ := NodeAt(parts, this);
      }
      forall n | n in nodes ensures !n.finished {
        if n != this {
          var i := NodeAt(parts, n);
          assert parts[i].Open();
        }
      }
    }

    /** Makes the charge permanent; only the first of Commit and Rollback has any effect. */
    method Commit()
      requires Formed() && (finished || Open())
      modifies nodes
      ensures finished
      ensures if old(finished) then forall n :: n in nodes ==> n.finished == old(n.finished) else Closed()
      decreases height, 1
    {
      if finished { return; }
      finished := true;
      if account == null {
        forall j | 0 <= j < |parts| ensures parts[j].Open() { PartsNodes(parts, j); }
        CommitAll(parts, units, height);
      }
    }

    /** Returns the charge to every account of the tree, the first time it is called. */
    method Rollback(ghost was: Balance)
      requires Formed() && (finished || Open()) && Records(was) && (forall b :: b in held ==> b in was)
      modifies nodes, was.Keys
      ensures finished
      ensures if old(finished) then forall n :: n in nodes ==> n.finished == old(n.finished) else Closed()
      ensures Records(if old(finished) then was else Returned(was, held, units))
      decreases height, 1
    {
      if finished { return; }
      finished := true;
      if account != null {
        account.Refund(units);
        assert Times(units, 1) == Times(units, 0) + units;
      } else {
        forall j | 0 <= j < |parts| ensures parts[j].Open() { PartsNodes(parts, j); }
        RollbackAll(parts, units, height, was);
      }
    }
  }

  /** Parts of one chain: pairwise disjoint, and all of the same number of units. */
  ghost predicate Forest(parts: seq<Reservation>, units: int) {
    && (forall p :: p in parts ==> p.units == units)
    && (forall i, j :: 0 <= i < j < |parts| ==> parts[i].nodes !! parts[j].nodes)
  }

  ghost function HeldBy(parts: seq<Reservation>): multiset<Account> {
    if parts == [] then multiset{} else HeldBy(parts[..|parts| - 1]) + parts[|parts| - 1].held
  }

  ghost function NodesOf(parts: seq<Reservation>): set<Reservation> {
    if parts == [] then {} else NodesOf(parts[..|parts| - 1]) + parts[|parts| - 1].nodes
  }

  ghost function Above(parts: seq<Reservation>): nat {
    if parts == [] then 0
    else
      var rest, last := Above(parts[..|parts| - 1]), parts[|parts| - 1].height + 1;
      if rest > last then rest else last
  }

  lemma {:induction false} AboveAll(parts: seq<Reservation>)
    ensures forall p :: p in parts ==> p.height < Above(parts)
  {
    if parts != [] {
      AboveAll(parts[..|parts| - 1]);
      forall p | p in parts ensures p.height < Above(parts) {
        assert p in parts[..|parts| - 1] || p == parts[|parts| - 1];
      }
    }
  }

  lemma {:induction false} NodeAt(parts: seq<Reservation>, n: Reservation) returns (j: nat)
    requires n in NodesOf(parts)
    ensures j < |parts| && n in parts[j].nodes
  {
    var rest := parts[..|parts| - 1];
    if n in NodesOf(rest) { j := NodeAt(rest, n); } else { j := |parts| - 1; }
  }

  lemma {:induction false} PartsNodes(parts: seq<Reservation>, j: nat)
    requires j < |parts|
    ensures parts[j].nodes <= NodesOf(parts)
  {
    var rest := parts[..|parts| - 1];
    if j < |rest| { PartsNodes(rest, j); }
  }

  lemma {:induction false} PartsHeld(parts: seq<Reservation>, j: nat)
    requires j < |parts|
    ensures parts[j].held <= HeldBy(parts) && HeldBy(parts[..j + 1]) == HeldBy(parts[..j]) + parts[j].held
  {
    assert parts[..j + 1][..j] == parts[..j];
    var rest := parts[..|parts| - 1];
    if j < |rest| {
      PartsHeld(rest, j);
      assert rest[..j + 1] == parts[..j + 1] && rest[..j] == parts[..j];
    } else { assert parts[..j + 1] == parts; }
  }

  /** The parts are whole, disjoint and all still open from `lo` up to `hi`, closed outside. */
  ghost predicate Ready(parts: seq<Reservation>, units: int, bound: nat) {
    Forest(parts, units) && forall p :: p in parts ==> p.height < bound && p.Formed()
  }

  ghost predicate OpenIn(parts: seq<Reservation>, lo: nat, hi: nat)
    requires hi <= |parts|
    reads NodesOf(parts), set j, n | 0 <= j < |parts| && n in parts[j].nodes :: n
  {
    && (forall j :: lo <= j < hi ==> parts[j].Open())
    && (forall j :: 0 <= j < |parts| && !(lo <= j < hi) ==> parts[j].Closed())
  }

  lemma ClosedAll(parts: seq<Reservation>, lo: nat)
    requires lo <= |parts| && OpenIn(parts, lo, lo)
    ensures forall n :: n in NodesOf(parts) ==> n.finished
  {
    forall n | n in NodesOf(parts) ensures n.finished {
      var j := NodeAt(parts, n);
      assert parts[j].Closed();
    }
  }

  method CommitAll(parts: seq<Reservation>, units: int, ghost bound: nat)
    requires Ready(parts, units, bound) && OpenIn(parts, 0, |parts|)
    modifies NodesOf(parts)
    ensures forall n :: n in NodesOf(parts) ==> n.finished
    decreases bound, 0
  {
    var i := 0;
    while i < |parts|
      invariant 0 <= i <= |parts|
      invariant OpenIn(parts, i, |parts|)
    {
      assert parts[i] in parts && parts[i] in parts[i].nodes;
      PartsNodes(parts, i);
      parts[i].Commit();
      i := i + 1;
    }
    ClosedAll(parts, i);
  }

  lemma GiveBack(was: Balance, now: Balance, m: multiset<Account>, back: multiset<Account>, units: int)
    returns (next: Balance, more: multiset<Account>)
    requires now == Returned(was, back, units)
    ensures next == Returned(now, m, units) == Returned(was, more, units) && more == m + back
  {
    ReturnedTwice(was, m, back, units);
    next, more := Returned(now, m, units), m + back;
  }

  method RollbackOne(parts: seq<Reservation>, units: int, ghost bound: nat, i: nat, ghost now: Balance)
    requires i < |parts| && Ready(parts, units, bound) && OpenIn(parts, 0, i + 1)
    requires Records(now) && forall b :: b in parts[i].held ==> b in now
    modifies NodesOf(parts), now.Keys
    ensures OpenIn(parts, 0, i)
    ensures Records(Returned(now, parts[i].held, units))
    decreases bound, 0, 0
  {
    assert parts[i] in parts && parts[i] in parts[i].nodes;
    PartsNodes(parts, i);
    parts[i].Rollback(now);
  }

  /** Rolls the parts back in reverse order. */
  method RollbackAll(parts: seq<Reservation>, units: int, ghost bound: nat, ghost was: Balance)
    requires Ready(parts, units, bound) && OpenIn(parts, 0, |parts|)
    requires Records(was) && forall b :: b in HeldBy(parts) ==> b in was
    modifies NodesOf(parts), was.Keys
    ensures forall n :: n in NodesOf(parts) ==> n.finished
    ensures Records(Returned(was, HeldBy(parts), units))
    decreases bound, 0, 1
  {
    var i := |parts|;
    ghost var now, back := was, multiset{};
    NothingMoves(was, units);
    assert parts[..i] == parts;
    while i > 0
      invariant 0 <= i <= |parts|
      invariant OpenIn(parts, 0, i)
      invariant HeldBy(parts) == HeldBy(parts[..i]) + back
      invariant now == Returned(was, back, units) && Records(now)
    {
      i := i - 1;
      PartsHeld(parts, i);
      RollbackOne(parts, units, bound, i, now);
      now, back := GiveBack(was, now, parts[i].held, back, units);
    }
    assert parts[..0] == [];
    assert back == HeldBy(parts);
    ClosedAll(parts, i);
  }

  // ----- reserving ----------------------------------------------------------------------------------

  /** A fresh, open reservation of `units` on exactly these account occurrences. */
  twostate predicate Grants(new r: Reservation, m: multiset<Account>, units: int) reads r.nodes {
    r.Formed() && r.Open() && r.held == m && r.units == units && fresh(r.nodes)
  }

  /** The reservations already made are untouched, and not part of the new one. */
  twostate predicate Spared(kept: set<Reservation>, new r: Outcome) reads kept {
    && (forall n :: n in kept ==> n.finished == old(n.finished))
    && (r.Reserved? ==> r.reservation.nodes !! kept)
  }

  /** Reserves through a whole limiter tree.  It succeeds exactly when the tree is admissible as it
      stands, charging every occurrence of every account; when it refuses, no account has changed. */
  method Reserve(l: Limiter, done: bool, units: int, ghost was: Balance, ghost kept: set<Reservation>)
    returns (r: Outcome)
    requires Records(was) && forall b :: b in Leaves(l) ==> b in was
    modifies was.Keys
    ensures r.Reserved? <==> Admissible(Leaves(l), Consents(l), done, units, was)
    ensures r.Reserved? ==> Grants(r.reservation, Leaves(l), units)
    ensures Records(if r.Reserved? then Charged(was, Leaves(l), units) else was)
    ensures Spared(kept, r)
    decreases l, 1
  {
    if l.Single? {
      assert Times(units, 1) == Times(units, 0) + units;
      var ok;
      if l.account.rated { ok := l.account.Take(done, l.arrive, units); } else { ok := l.account.Charge(done, units); }
      if !ok { return Refused; }
      var leaf := new Reservation.Leaf(l.account, units);
      r := Reserved(leaf);
    } else if l.WaitOnly? {
      NothingMoves(was, units);
      if !l.grants { return Refused; }
      var none := new Reservation.Composed([], units);
      r := Reserved(none);
    } else {
      r := ReserveChain(l.limiters, done, units, was, kept);
    }
  }

  /** A transaction in progress: open reservations on exactly the occurrences m. */
  ghost predicate Pending(parts: seq<Reservation>, m: multiset<Account>, units: int)
    reads NodesOf(parts)
  {
    && Ready(parts, units, Above(parts)) && HeldBy(parts) == m
    && forall n :: n in NodesOf(parts) ==> !n.finished
  }

  lemma PendingOpen(parts: seq<Reservation>, m: multiset<Account>, units: int)
    requires Pending(parts, m, units)
    ensures OpenIn(parts, 0, |parts|) && forall p :: p in parts ==> p.Open()
  {
    forall j | 0 <= j < |parts| ensures parts[j].Open() { PartsNodes(parts, j); }
  }

  lemma Extend(parts: seq<Reservation>, p: Reservation, m: multiset<Account>, n: multiset<Account>, units: int)
    requires Pending(parts, m, units) && p.Formed() && p.Open() && p.held == n && p.units == units && p.nodes !! NodesOf(parts)
    ensures Pending(parts + [p], m + n, units) && NodesOf(parts + [p]) == NodesOf(parts) + p.nodes
  {
    var more := parts + [p];
    assert more[..|parts|] == parts;
    AboveAll(more);
    forall i, j | 0 <= i < j < |more| ensures more[i].nodes !! more[j].nodes { if j == |parts| { PartsNodes(parts, i); } }
    forall q | q in more ensures q.units == units && q.Formed() { assert q in parts || q == p; }
  }

  /** Rolls a transaction in progress back to where it started. */
  method Undo(parts: seq<Reservation>, ghost m: multiset<Account>, units: int, ghost was: Balance, ghost mine: set<Reservation>)
    requires Pending(parts, m, units) && NodesOf(parts) == mine && (forall b :: b in m ==> b in was) && Records(Charged(was, m, units))
    modifies was.Keys, mine
    ensures Records(was)
  {
    PendingOpen(parts, m, units);
    RollbackAll(parts, units, Above(parts), Charged(was, m, units));
    ReturnUndoes(was, multiset{}, m, units);
    NothingMoves(was, units);
    assert multiset{} + m == m;
  }

  /** Commits a transaction in progress, which leaves every account as it is. */
  method Keep(parts: seq<Reservation>, ghost m: multiset<Account>, units: int, ghost now: Balance, ghost mine: set<Reservation>)
    requires Pending(parts, m, units) && NodesOf(parts) == mine && Records(now)
    modifies mine
    ensures Records(now) && forall n :: n in mine ==> n.finished
  {
    PendingOpen(parts, m, units);
    CommitAll(parts, units, Above(parts));
  }

  /** One turn of a transaction's loop: reserve the next limiter, or roll back everything before it. */
  method ReserveNext(l: Limiter, parts: seq<Reservation>, ghost m: multiset<Account>, done: bool, units: int, ghost was: Balance,
                     ghost kept: set<Reservation>, ghost mine: set<Reservation>)
    returns (ok: bool, more: seq<Reservation>, ghost added: set<Reservation>)
    requires Pending(parts, m, units) && (forall b :: b in m + Leaves(l) ==> b in was) && kept !! mine && mine == NodesOf(parts)
    requires Records(Charged(was, m, units))
    modifies was.Keys, mine
    ensures ok <==> Admissible(Leaves(l), Consents(l), done, units, Charged(was, m, units))
    ensures ok ==> Pending(more, m + Leaves(l), units) && NodesOf(more) == mine + added && fresh(added) && kept !! NodesOf(more)
    ensures forall n :: n in kept ==> n.finished == old(n.finished)
    ensures Records(if ok then Charged(was, m + Leaves(l), units) else was)
    decreases l, 2
  {
    ghost var mid := Charged(was, m, units);
    var one := Reserve(l, done, units, mid, kept + mine);
    ChargedTwice(was, m, Leaves(l), units);
    if one.Refused? {
      Undo(parts, m, units, was, mine);
      return false, [], {};
    }
    Extend(parts, one.reservation, m, Leaves(l), units);
    return true, parts + [one.reservation], one.reservation.nodes;
  }

  /** The first i limiters, holding m, have been admitted. */
  ghost predicate Admitted(ls: seq<Limiter>, i: nat, m: multiset<Account>, done: bool, units: int, was: Balance)
    requires i <= |ls|
  {
    m == AllLeaves(ls[..i]) && Admissible(m, AllConsent(ls[..i]), done, units, was)
  }

  lemma Forward(ls: seq<Limiter>, i: nat, m: multiset<Account>, done: bool, units: int, was: Balance)
    returns (next: multiset<Account>)
    requires i < |ls| && Admitted(ls, i, m, done, units, was)
    ensures next == m + Leaves(ls[i]) && next <= AllLeaves(ls)
    ensures if Admissible(Leaves(ls[i]), Consents(ls[i]), done, units, Charged(was, m, units))
            then Admitted(ls, i + 1, next, done, units, was)
            else !Admissible(AllLeaves(ls), AllConsent(ls), done, units, was)
  {
    PrefixLeaves(ls, i);
    next := m + Leaves(ls[i]);
    if Admissible(Leaves(ls[i]), Consents(ls[i]), done, units, Charged(was, m, units)) {
      AdmitNext(ls, i, done, units, was);
    } else {
      RefusalIsFinal(ls, i, done, units, was);
    }
  }

  /** Reserves the limiters in order, undoing everything at the first refusal. */
  method ReserveParts(ls: seq<Limiter>, done: bool, units: int, ghost was: Balance, ghost kept: set<Reservation>)
    returns (ok: bool, parts: seq<Reservation>)
    requires Records(was) && forall b :: b in AllLeaves(ls) ==> b in was
    modifies was.Keys
    ensures ok <==> Admissible(AllLeaves(ls), AllConsent(ls), done, units, was)
    ensures ok ==> Pending(parts, AllLeaves(ls), units) && fresh(NodesOf(parts)) && kept !! NodesOf(parts)
    ensures Records(if ok then Charged(was, AllLeaves(ls), units) else was)
    ensures forall n :: n in kept ==> n.finished == old(n.finished)
    decreases ls, 0
  {
    parts := [];
    var i := 0;
    ghost var m, mine := multiset{}, {};
    NothingMoves(was, units);
    while i < |ls|
      invariant 0 <= i <= |ls|
      invariant Pending(parts, m, units)
      invariant kept !! mine && mine == NodesOf(parts) && fresh(mine)
      invariant forall n :: n in kept ==> n.finished == old(n.finished)
      invariant Records(Charged(was, m, units))
      invariant Admitted(ls, i, m, done, units, was)
    {
      ghost var next := Forward(ls, i, m, done, units, was);
      ghost var added;
      ok, parts, added := ReserveNext(ls[i], parts, m, done, units, was, kept, mine);
      if !ok { return; }
      ghost var before := mine;
      assert fresh(added);
      mine := mine + added;
      forall n | n in mine ensures fresh(n) {
        if n in before { assert fresh(n); } else { assert n in added; }
      }
      i, m := i + 1, next;
    }
    assert ls[..i] == ls;
    ok := true;
  }

  method ReserveChain(ls: seq<Limiter>, done: bool, units: int, ghost was: Balance, ghost kept: set<Reservation>)
    returns (r: Outcome)
    requires Records(was) && forall b :: b in AllLeaves(ls) ==> b in was
    modifies was.Keys
    ensures r.Reserved? <==> Admissible(AllLeaves(ls), AllConsent(ls), done, units, was)
    ensures r.Reserved? ==> Grants(r.reservation, AllLeaves(ls), units)
    ensures Records(if r.Reserved? then Charged(was, AllLeaves(ls), units) else was)
    ensures Spared(kept, r)
    decreases ls, 1
  {
    var ok, parts := ReserveParts(ls, done, units, was, kept);
    if !ok { return Refused; }
    PendingOpen(parts, AllLeaves(ls), units);
    var whole := new Reservation.Composed(parts, units);
    r := Reserved(whole);
  }

  // ----- using reservations --------------------------------------------------------------------------

  datatype Call = CallCommit | CallRollback
  /** Any sequence of Commit and Rollback calls has the effect of the first one only: whatever the
      tree, everything it charged stays charged, or every account is back where it was. */
  method Finish(r: Reservation, calls: seq<Call>, ghost was: Balance)
    requires r.Formed() && r.Open() && (forall b :: b in r.held ==> b in was) && Records(Charged(was, r.held, r.units))
    modifies r.nodes, was.Keys
    ensures Records(if calls != [] && calls[0].CallRollback? then was else Charged(was, r.held, r.units))
    ensures calls != [] ==> r.Closed()
  {
    ghost var charged := Charged(was, r.held, r.units);
    ReturnUndoes(was, multiset{}, r.held, r.units);
    NothingMoves(was, r.units);
    assert multiset{} + r.held == r.held;
    ghost var now := if calls != [] && calls[0].CallRollback? then was else charged;
    var i := 0;
    while i < |calls|
      invariant 0 <= i <= |calls|
      invariant if i == 0 then r.Open() && Records(charged) else r.finished && r.Closed() && Records(now)
    {
      if calls[i].CallCommit? { r.Commit(); } else { r.Rollback(if i == 0 then charged else now); }
      i := i + 1;
    }
  }

  /** Admission for good: reserve the whole tree, and commit it at once. */
  method Wait(l: Limiter, done: bool, units: int, ghost was: Balance) returns (ok: bool)
    requires Records(was) && forall b :: b in Leaves(l) ==> b in was
    modifies was.Keys
    ensures ok <==> Admissible(Leaves(l), Consents(l), done, units, was)
    ensures Records(if ok then Charged(was, Leaves(l), units) else was)
  {
    var r := Reserve(l, done, units, was, {});
    ok := r.Reserved?;
    if ok { Finish(r.reservation, [CallCommit], was); }
  }

  /** The limiter a name stands for; an unknown name can never be admitted. */
  ghost function Lookup(limiters: map<string, Limiter>, name: string): Limiter {
    if name in limiters then limiters[name] else WaitOnly(false)
  }

  ghost function Named(limiters: map<string, Limiter>, names: seq<string>): seq<Limiter> {
    seq(|names|, i requires 0 <= i < |names| => Lookup(limiters, names[i]))
  }

  /** What the outcome of admitting a list of limiters means: all of them were admissible together, or
      the named one is the first whose admission fails. */
  ghost predicate Explains(refused: Option<string>, names: seq<string>, ls: seq<Limiter>, done: bool, units: int, was: Balance) {
    && (refused.None? <==> Admissible(AllLeaves(ls), AllConsent(ls), done, units, was))
    && (refused.Some? ==> exists i: nat :: i < |names| && refused.value == names[i] && FirstRefused(ls, i, done, units, was))
  }

  method ReserveName(limiters: map<string, Limiter>, name: string, parts: seq<Reservation>, ghost m: multiset<Account>,
                     done: bool, units: int, ghost was: Balance, ghost mine: set<Reservation>)
    returns (ok: bool, more: seq<Reservation>, ghost added: set<Reservation>)
    requires Pending(parts, m, units) && (forall b :: b in m + Leaves(Lookup(limiters, name)) ==> b in was)
    requires mine == NodesOf(parts) && Records(Charged(was, m, units))
    modifies was.Keys, mine
    ensures var l := Lookup(limiters, name);
      && (ok <==> Admissible(Leaves(l), Consents(l), done, units, Charged(was, m, units)))
      && (ok ==> Pending(more, m + Leaves(l), units) && NodesOf(more) == mine + added && fresh(added))
      && Records(if ok then Charged(was, m + Leaves(l), units) else was)
  {
    if name !in limiters {
      Undo(parts, m, units, was, mine);
      return false, [], {};
    }
    ok, more, added := ReserveNext(limiters[name], parts, m, done, units, was, {}, mine);
  }

  method ReserveNamed(limiters: map<string, Limiter>, names: seq<string>, done: bool, units: int, ghost was: Balance)
    returns (refused: Option<string>, parts: seq<Reservation>, ghost mine: set<Reservation>)
    requires Records(was) && forall b :: b in AllLeaves(Named(limiters, names)) ==> b in was
    modifies was.Keys
    ensures Explains(refused, names, Named(limiters, names), done, units, was)
    ensures refused.Some? ==> Records(was)
    ensures refused.None? ==> var m := AllLeaves(Named(limiters, names));
              Pending(parts, m, units) && mine == NodesOf(parts) && fresh(mine) && Records(Charged(was, m, units))
  {
    ghost var ls := Named(limiters, names);
    parts, mine := [], {};
    var i := 0;
    ghost var m := multiset{};
    NothingMoves(was, units);
    while i < |names|
      invariant 0 <= i <= |names|
      invariant Pending(parts, m, units)
      invariant NodesOf(parts) == mine && fresh(mine)
      invariant Records(Charged(was, m, units))
      invariant Admitted(ls, i, m, done, units, was)
    {
      ghost var next := Forward(ls, i, m, done, units, was);
      ghost var added;
      var ok;
      ok, parts, added := ReserveName(limiters, names[i], parts, m, done, units, was, mine);
      if !ok {
        RefusedFirst(names, ls, i, m, done, units, was);
        return Some(names[i]), [], {};
      }
      ghost var before := mine;
      assert fresh(added);
      mine := mine + added;
      forall n | n in mine ensures fresh(n) {
        if n in before { assert fresh(n); } else { assert n in added; }
      }
      i, m := i + 1, next;
    }
    assert ls[..i] == ls;
    refused := None;
  }

  /** Admits `units` on every named resource as one transaction: either all are charged for good, or
      nothing is and the first name that could not be admitted is reported. */
  method Admit(limiters: map<string, Limiter>, names: seq<string>, done: bool, units: int, ghost was: Balance)
    returns (refused: Option<string>)
    requires Records(was) && forall b :: b in AllLeaves(Named(limiters, names)) ==> b in was
    modifies was.Keys
    ensures Explains(refused, names, Named(limiters, names), done, units, was)
    ensures Records(if refused.None? then Charged(was, AllLeaves(Named(limiters, names)), units) else was)
    ensures refused.None? ==> forall name :: name in names ==> name in limiters
  {
    var parts;
    ghost var mine;
    refused, parts, mine := ReserveNamed(limiters, names, done, units, was);
    if refused.None? {
      ghost var m := AllLeaves(Named(limiters, names));
      KnownNames(limiters, names);
      Keep(parts, m, units, Charged(was, m, units), mine);
    }
  }

  /** A list with an unknown name can never be admitted. */
  lemma KnownNames(limiters: map<string, Limiter>, names: seq<string>)
    requires AllConsent(Named(limiters, names))
    ensures forall name :: name in names ==> name in limiters
  {
    var ls := Named(limiters, names);
    forall i | 0 <= i < |names| ensures names[i] in limiters {
      PrefixLeaves(ls, i);
      assert ls[i] == Lookup(limiters, names[i]);
    }
  }

  lemma RefusedFirst(names: seq<string>, ls: seq<Limiter>, i: nat, m: multiset<Account>, done: bool, units: int, was: Balance)
    requires i < |ls| == |names| && Admitted(ls, i, m, done, units, was)
    requires !Admissible(Leaves(ls[i]), Consents(ls[i]), done, units, Charged(was, m, units))
    ensures Explains(Some(names[i]), names, ls, done, units, was)
  {
    RefusalIsFinal(ls, i, done, units, was);
    assert ls[..i + 1][..i] == ls[..i];
    RefusalIsFinal(ls[..i + 1], i, done, units, was);
    assert FirstRefused(ls, i, done, units, was);
  }

  /** Limiter i is the first whose admission fails once its predecessors are charged. */
  ghost predicate FirstRefused(ls: seq<Limiter>, i: nat, done: bool, units: int, was: Balance) {
    && i < |ls|
    && Admissible(AllLeaves(ls[..i]), AllConsent(ls[..i]), done, units, was)
    && !Admissible(AllLeaves(ls[..i + 1]), AllConsent(ls[..i + 1]), done, units, was)
  }
}
