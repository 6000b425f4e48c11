/**
 * Kotlin's `List.filter` and `MutableList.removeIf { it.id == id }`, with the
 * facts the screens and view models rely on.
 */
module Seqs {
  import opened Common

  /** `s.filter(p)` */
  function Filter<T>(s: seq<T>, p: T -> bool): seq<T> {
    if s == [] then [] else (if p(s[0]) then [s[0]] else []) + Filter(s[1..], p)
  }

  /** What `Filter` keeps is exactly the elements of `s` that satisfy `p`, each as often as in `s`. */
  lemma {:induction false} FilterContents<T>(s: seq<T>, p: T -> bool)
    ensures |Filter(s, p)| <= |s|
    ensures forall x :: x in Filter(s, p) <==> x in s && p(x)
    ensures forall x :: p(x) ==> multiset(Filter(s, p))[x] == multiset(s)[x]
    ensures forall x :: !p(x) ==> multiset(Filter(s, p))[x] == 0
  {
    if s != [] {
      FilterContents(s[1..], p);
      assert s == [s[0]] + s[1..];
    }
  }

  /** Filtering distributes over concatenation: the kept elements stay in input order. */
  lemma {:induction false} FilterAppend<T>(a: seq<T>, b: seq<T>, p: T -> bool)
    ensures Filter(a + b, p) == Filter(a, p) + Filter(b, p)
  {
    if a != [] {
      assert (a + b)[1..] == a[1..] + b;
      FilterAppend(a[1..], b, p);
    } else {
      assert a + b == b;
    }
  }

  /** A filter that every element passes returns its input. */
  lemma {:induction false} FilterAllPass<T>(s: seq<T>, p: T -> bool)
    requires forall i :: 0 <= i < |s| ==> p(s[i])
    ensures Filter(s, p) == s
  {
    if s != [] {
      FilterAllPass(s[1..], p);
    }
  }

  // ---------------------------------------------------------------------
  // Removing by id

  /** The number of elements of `s` whose id is `id`. */
  function CountId<T>(s: seq<T>, idOf: T -> Option<int>, id: int): nat {
    if s == [] then 0 else (if idOf(s[0]) == Some(id) then 1 else 0) + CountId(s[1..], idOf, id)
  }

  /** `s.toMutableList().apply { removeIf { it.id == id } }` */
  function RemoveId<T>(s: seq<T>, idOf: T -> Option<int>, id: int): seq<T> {
    if s == [] then [] else (if idOf(s[0]) == Some(id) then [] else [s[0]]) + RemoveId(s[1..], idOf, id)
  }

  /**
   * After the removal no element carries the id, every other element is kept,
   * and the length drops by exactly the number of matches.
   */
  lemma {:induction false} RemoveIdContents<T>(s: seq<T>, idOf: T -> Option<int>, id: int)
    ensures forall x :: x in RemoveId(s, idOf, id) ==> idOf(x) != Some(id)
    ensures forall x :: x in s && idOf(x) != Some(id) ==> x in RemoveId(s, idOf, id)
    ensures |RemoveId(s, idOf, id)| == |s| - CountId(s, idOf, id)
  {
    if s != [] {
      RemoveIdContents(s[1..], idOf, id);
      assert s == [s[0]] + s[1..];
    }
  }

  /** Removal distributes over concatenation: the survivors keep their order. */
  lemma {:induction false} RemoveIdAppend<T>(a: seq<T>, b: seq<T>, idOf: T -> Option<int>, id: int)
    ensures RemoveId(a + b, idOf, id) == RemoveId(a, idOf, id) + RemoveId(b, idOf, id)
  {
    if a != [] {
      assert (a + b)[1..] == a[1..] + b;
      RemoveIdAppend(a[1..], b, idOf, id);
    } else {
      assert a + b == b;
    }
  }

  /** Removing an id that no element carries changes nothing. */
  lemma {:induction false} RemoveAbsentId<T>(s: seq<T>, idOf: T -> Option<int>, id: int)
    requires CountId(s, idOf, id) == 0
    ensures RemoveId(s, idOf, id) == s
  {
    if s != [] {
      RemoveAbsentId(s[1..], idOf, id);
    }
  }

  /** Removing the same id twice is the same as removing it once. */
  lemma RemoveIdIdempotent<T>(s: seq<T>, idOf: T -> Option<int>, id: int)
    ensures RemoveId(RemoveId(s, idOf, id), idOf, id) == RemoveId(s, idOf, id)
  {
    var r := RemoveId(s, idOf, id);
    RemoveIdContents(s, idOf, id);
    assert CountId(r, idOf, id) == 0 by {
      NoMatchesCountZero(r, idOf, id);
    }
    RemoveAbsentId(r, idOf, id);
  }

  lemma {:induction false} NoMatchesCountZero<T>(s: seq<T>, idOf: T -> Option<int>, id: int)
    requires forall x :: x in s ==> idOf(x) != Some(id)
    ensures CountId(s, idOf, id) == 0
  {
    if s != [] {
      NoMatchesCountZero(s[1..], idOf, id);
    }
  }

  /** What `RemoveId` keeps was in the list. */
  lemma {:induction false} SublistMember<T>(s: seq<T>, idOf: T -> Option<int>, id: int, x: T)
    requires x in RemoveId(s, idOf, id)
    ensures x in s
  {
    if s != [] && x != s[0] {
      SublistMember(s[1..], idOf, id, x);
    }
  }

  /**
   * `removeIf` on a mutable list: the survivors are compacted to the front of
   * the array, in order, and `n` of them remain.
   */
  method RemoveIdInPlace<T>(a: array<T>, idOf: T -> Option<int>, id: int) returns (n: nat)
    modifies a
    ensures n <= a.Length
    ensures a[..n] == RemoveId(old(a[..]), idOf, id)
  {
    ghost var s := a[..];
    var w, r := 0, 0;
    while r < a.Length
      invariant 0 <= w <= r <= a.Length
      invariant a[..w] == RemoveId(s[..r], idOf, id)
      invariant a[r..] == s[r..]
    {
      assert s[..r + 1] == s[..r] + [s[r]];
      RemoveIdAppend(s[..r], [s[r]], idOf, id);
      assert RemoveId([s[r]], idOf, id) == if idOf(s[r]) == Some(id) then [] else [s[r]];
      assert a[r] == s[r];
      ghost var kept := a[..w];
      if idOf(a[r]) != Some(id) {
        a[w] := a[r];
        w := w + 1;
        assert a[..w] == kept + [s[r]];
      }
      assert a[r + 1..] == s[r + 1..];
      r := r + 1;
    }
    assert s[..a.Length] == s;
    n := w;
  }
}
