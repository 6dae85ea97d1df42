/** List operations with Python semantics: slicing with a possibly negative
    bound, and removing duplicates while keeping the first occurrence. */
module Seqs {

  function Min(a: int, b: int): int { if a <= b then a else b }
  function Max(a: int, b: int): int { if a >= b then a else b }

  /** Python's s[:k]: the first k elements, where a negative k counts from the
      end and a k past either end is clamped. */
  function Take<T>(s: seq<T>, k: int): (r: seq<T>)
    ensures |r| == if k >= 0 then Min(k, |s|) else Max(0, |s| + k)
    ensures r == s[..|r|]
  {
    if k >= 0 then s[..Min(k, |s|)] else s[..Max(0, |s| + k)]
  }

  /** A slice bound as Python normalises it: a negative bound counts from the
      end, and the result is clamped to 0..n. */
  function Clamp(i: int, n: nat): (c: nat)
    ensures c <= n
  {
    if i < 0 then Max(0, i + n) else Min(i, n)
  }

  /** Python's s[lo:hi]: empty when the normalised bounds cross. */
  function Slice<T>(s: seq<T>, lo: int, hi: int): (r: seq<T>)
    ensures |r| == Max(0, Clamp(hi, |s|) - Clamp(lo, |s|))
    ensures forall k :: 0 <= k < |r| ==> r[k] == s[Clamp(lo, |s|) + k]
  {
    var l, h := Clamp(lo, |s|), Clamp(hi, |s|);
    if l <= h then s[l..h] else []
  }

  predicate NoDuplicates<T(==)>(s: seq<T>) {
    forall i, j :: 0 <= i < j < |s| ==> s[i] != s[j]
  }

  /** The index of the first occurrence of x in s. */
  function FirstIndex<T(==)>(s: seq<T>, x: T): (i: nat)
    requires x in s
    ensures i < |s| && s[i] == x
    ensures forall j :: 0 <= j < i ==> s[j] != x
  {
    if s[0] == x then 0 else 1 + FirstIndex(s[1..], x)
  }

  /** s without repeated elements, each kept where it first occurs:
      the result of the `seen` set loop of the source. */
  function Dedup<T(==)>(s: seq<T>): (r: seq<T>)
  {
    if s == [] then []
    else
      var d := Dedup(s[..|s| - 1]);
      if s[|s| - 1] in d then d else d + [s[|s| - 1]]
  }

  lemma {:induction false} DedupMembers<T>(s: seq<T>)
    ensures forall x :: x in Dedup(s) <==> x in s
  {
    if s != [] {
      DedupMembers(s[..|s| - 1]);
      assert s == s[..|s| - 1] + [s[|s| - 1]];
    }
  }

  lemma {:induction false} DedupNoDuplicates<T>(s: seq<T>)
    ensures NoDuplicates(Dedup(s))
  {
    if s != [] {
      DedupNoDuplicates(s[..|s| - 1]);
    }
  }

  lemma FirstIndexExtended<T>(s: seq<T>, y: T, x: T)
    requires x in s
    ensures FirstIndex(s + [y], x) == FirstIndex(s, x)
  {
    var b := FirstIndex(s, x);
    assert (s + [y])[b] == x;
    forall j | 0 <= j < b ensures (s + [y])[j] != x {
      assert (s + [y])[j] == s[j];
    }
  }

  lemma FirstIndexOfNew<T>(s: seq<T>, y: T)
    requires y !in s
    ensures FirstIndex(s + [y], y) == |s|
  {
    forall j | 0 <= j < |s| ensures (s + [y])[j] != y {
      assert (s + [y])[j] == s[j];
    }
  }

  predicate FirstOccurrenceOrder<T(==)>(s: seq<T>, d: seq<T>) {
    forall i, j :: 0 <= i < j < |d| ==>
      d[i] in s && d[j] in s && FirstIndex(s, d[i]) < FirstIndex(s, d[j])
  }

  lemma DedupAppend<T>(s: seq<T>, y: T)
    ensures Dedup(s + [y]) == if y in Dedup(s) then Dedup(s) else Dedup(s) + [y]
  {
    assert (s + [y])[..|s|] == s;
  }

  lemma DedupOrderStep<T>(init: seq<T>, last: T)
    requires FirstOccurrenceOrder(init, Dedup(init))
    ensures FirstOccurrenceOrder(init + [last], Dedup(init + [last]))
  {
    var s := init + [last];
    DedupAppend(init, last);
    DedupMembers(init);
    var d, r := Dedup(init), Dedup(s);
    if last !in d {
      FirstIndexOfNew(init, last);
    }
    forall i, j | 0 <= i < j < |r|
      ensures r[i] in s && r[j] in s && FirstIndex(s, r[i]) < FirstIndex(s, r[j])
    {
      assert r[i] == d[i] && d[i] in d;
      FirstIndexExtended(init, last, d[i]);
      if j < |d| {
        assert r[j] == d[j] && d[j] in d;
        FirstIndexExtended(init, last, d[j]);
      } else {
        assert r[j] == last;
      }
    }
  }

  /** Dedup keeps the elements in the order of their first occurrences. */
  lemma {:induction false} DedupFirstOccurrenceOrder<T>(s: seq<T>)
    ensures FirstOccurrenceOrder(s, Dedup(s))
  {
    if s != [] {
      var init, last := s[..|s| - 1], s[|s| - 1];
      DedupFirstOccurrenceOrder(init);
      DedupOrderStep(init, last);
      assert init + [last] == s;
    }
  }

  /** The three properties together: Dedup(s) holds each element of s exactly
      once, in first-occurrence order. */
  lemma DedupSpec<T>(s: seq<T>)
    ensures NoDuplicates(Dedup(s))
    ensures forall x :: x in Dedup(s) <==> x in s
    ensures FirstOccurrenceOrder(s, Dedup(s))
  {
    DedupNoDuplicates(s);
    DedupMembers(s);
    DedupFirstOccurrenceOrder(s);
  }

  /** A list without duplicates is left as it is. */
  lemma {:induction false} DedupOfDistinct<T>(s: seq<T>)
    requires NoDuplicates(s)
    ensures Dedup(s) == s
  {
    if s != [] {
      DedupOfDistinct(s[..|s| - 1]);
      DedupMembers(s[..|s| - 1]);
    }
  }

  /** Two different elements are kept as they are. */
  lemma DedupPair<T>(a: T, b: T)
    requires a != b
    ensures Dedup([a, b]) == [a, b]
  {
    assert [a, b][..1] == [a];
    assert [a][..0] == [];
    assert Dedup([a]) == [a];
  }

  /** Three different elements followed by repeats of the first two dedup to the three. */
  lemma DedupRepeatedPrefix<T>(a: T, b: T, c: T)
    requires a != b && a != c && b != c
    ensures Dedup([a, b, c] + [a, b]) == [a, b, c]
  {
    var h := [a, b, c];
    assert NoDuplicates(h);
    DedupOfDistinct(h);
    DedupAppend(h, a);
    DedupAppend(h + [a], b);
    assert h + [a, b] == h + [a] + [b];
  }

  lemma WholeSlice<T>(s: seq<T>)
    ensures s[..|s|] == s
  {
  }

  /** [f(0, s[0]), f(1, s[1]), ...] */
  function MapNumbered<A, B>(f: (nat, A) -> B, s: seq<A>): (r: seq<B>)
    ensures |r| == |s|
  {
    if s == [] then [] else MapNumbered(f, s[..|s| - 1]) + [f(|s| - 1, s[|s| - 1])]
  }

  lemma {:induction false} MapNumberedAt<A, B>(f: (nat, A) -> B, s: seq<A>, i: nat)
    requires i < |s|
    ensures MapNumbered(f, s)[i] == f(i, s[i])
  {
    if i < |s| - 1 {
      MapNumberedAt(f, s[..|s| - 1], i);
    }
  }

  lemma MapNumberedStep<A, B>(f: (nat, A) -> B, s: seq<A>, i: nat)
    requires i < |s|
    ensures MapNumbered(f, s[..i + 1]) == MapNumbered(f, s[..i]) + [f(i, s[i])]
  {
    assert s[..i + 1][..i] == s[..i];
  }
}
