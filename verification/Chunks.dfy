/** Cutting a sequence into consecutive batches of a fixed size. */
module Chunks {

  function Cut<T>(s: seq<T>, size: nat): seq<seq<T>>
    requires size >= 1
    decreases |s|
  {
    if s == [] then [] else if |s| <= size then [s] else [s[..size]] + Cut(s[size..], size)
  }

  function Joined<T>(parts: seq<seq<T>>): seq<T> {
    if parts == [] then [] else parts[0] + Joined(parts[1..])
  }

  /** n divided by size, rounded up. */
  function Ceil(n: nat, size: nat): nat
    requires size >= 1
    decreases n
  { if n == 0 then 0 else if n <= size then 1 else 1 + Ceil(n - size, size) }

  lemma {:induction false} CeilRoundsUp(n: nat, size: nat)
    requires size >= 1
    ensures n <= Ceil(n, size) * size < n + size
    decreases n
  {
    if n > size {
      CeilRoundsUp(n - size, size);
      var c := Ceil(n - size, size);
      assert (1 + c) * size == size + c * size;
    }
  }

  /** The batches partition the sequence in order; none is empty or too large; and there are as few
      as possible. */
  lemma {:induction false} CutPartitions<T>(s: seq<T>, size: nat)
    requires size >= 1
    ensures Joined(Cut(s, size)) == s && |Cut(s, size)| == Ceil(|s|, size)
    ensures forall b :: 0 <= b < |Cut(s, size)| ==> 1 <= |Cut(s, size)[b]| <= size
    ensures forall b :: 0 <= b < |Cut(s, size)| - 1 ==> |Cut(s, size)[b]| == size
    decreases |s|
  {
    if s == [] { } else if |s| <= size {
      assert [s][1..] == [];
    } else {
      CutPartitions(s[size..], size);
      assert Cut(s, size)[1..] == Cut(s[size..], size);
    }
  }

  /** Where element p of part b is in the whole. */
  function At<T>(parts: seq<seq<T>>, b: nat, p: nat): nat
    requires b < |parts|
  { if b == 0 then p else |parts[0]| + At(parts[1..], b - 1, p) }

  lemma {:induction false} JoinedAt<T>(parts: seq<seq<T>>, b: nat, p: nat)
    requires b < |parts| && p < |parts[b]|
    ensures At(parts, b, p) < |Joined(parts)| && Joined(parts)[At(parts, b, p)] == parts[b][p]
  {
    if b > 0 { JoinedAt(parts[1..], b - 1, p); }
  }

  lemma {:induction false} PartsApart<T>(parts: seq<seq<T>>, b: nat, p: nat, c: nat, q: nat)
    requires b < c < |parts| && p < |parts[b]| && q < |parts[c]|
    ensures At(parts, b, p) < At(parts, c, q)
  {
    if b > 0 { PartsApart(parts[1..], b - 1, p, c - 1, q); }
  }

  lemma {:induction false} PartOf<T>(parts: seq<seq<T>>, i: nat) returns (b: nat, p: nat)
    requires i < |Joined(parts)|
    ensures b < |parts| && p < |parts[b]| && parts[b][p] == Joined(parts)[i] && At(parts, b, p) == i
  {
    if i < |parts[0]| { b, p := 0, i; } else {
      b, p := PartOf(parts[1..], i - |parts[0]|);
      b := b + 1;
    }
  }

  /** The stepping loop: start advances by the batch size, the last batch takes what is left. */
  method CutInto<T>(s: seq<T>, size: nat) returns (batches: seq<seq<T>>)
    requires size >= 1
    ensures batches == Cut(s, size)
  {
    batches := [];
    var start := 0;
    assert s[0..] == s;
    while start < |s|
      invariant 0 <= start && batches + Cut(s[if start < |s| then start else |s|..], size) == Cut(s, size)
    {
      var end := if start + size < |s| then start + size else |s|;
      var rest := s[start..];
      assert s[start..end] == if |rest| <= size then rest else rest[..size];
      assert s[end..] == if |rest| <= size then [] else rest[size..];
      batches := batches + [s[start..end]];
      start := start + size;
    }
  }
}
