/**
 * Kotlin's stable sorts (`sortedWith`, `sortedByDescending`) as an insertion
 * sort over a comparator `le` ("a may come before b"), and the lexicographic
 * order of `String.compareTo`.
 */
module Ordering {
  import opened Common
  import opened Seqs

  ghost predicate Total<T(!new)>(le: (T, T) -> bool) {
    forall a, b :: le(a, b) || le(b, a)
  }

  ghost predicate Transitive<T(!new)>(le: (T, T) -> bool) {
    forall a, b, c :: le(a, b) && le(b, c) ==> le(a, c)
  }

  /** What a Kotlin `Comparator` must be: total and transitive. */
  ghost predicate TotalPreorder<T(!new)>(le: (T, T) -> bool) {
    Total(le) && Transitive(le)
  }

  predicate SortedBy<T>(s: seq<T>, le: (T, T) -> bool) {
    forall i, j :: 0 <= i < j < |s| ==> le(s[i], s[j])
  }

  /** `a` and `b` compare equal: neither may be moved past the other. */
  predicate Tied<T>(a: T, b: T, le: (T, T) -> bool) {
    le(a, b) && le(b, a)
  }

  /** Puts `x` in front of the first element it may precede. */
  function Insert<T>(x: T, s: seq<T>, le: (T, T) -> bool): seq<T> {
    if s == [] then [x]
    else if le(x, s[0]) then [x] + s
    else [s[0]] + Insert(x, s[1..], le)
  }

  /** The stable sort of `s` by `le`. */
  function SortBy<T>(s: seq<T>, le: (T, T) -> bool): seq<T> {
    if s == [] then [] else Insert(s[0], SortBy(s[1..], le), le)
  }

  /** The elements of `s` that compare equal to `k`, in their order in `s`. */
  function TiedWith<T>(s: seq<T>, k: T, le: (T, T) -> bool): seq<T> {
    if s == [] then [] else (if Tied(s[0], k, le) then [s[0]] else []) + TiedWith(s[1..], k, le)
  }

  lemma {:induction false} InsertPermutes<T>(x: T, s: seq<T>, le: (T, T) -> bool)
    ensures multiset(Insert(x, s, le)) == multiset(s) + multiset{x}
  {
    if s != [] && !le(x, s[0]) {
      InsertPermutes(x, s[1..], le);
      assert s == [s[0]] + s[1..];
    }
  }

  lemma {:induction false} InsertKeepsSorted<T(!new)>(x: T, s: seq<T>, le: (T, T) -> bool)
    requires TotalPreorder(le)
    requires SortedBy(s, le)
    ensures SortedBy(Insert(x, s, le), le)
  {
    if s != [] {
      if le(x, s[0]) {
        var r := [x] + s;
        forall i, j | 0 <= i < j < |r| ensures le(r[i], r[j]) {
          if i == 0 && j > 1 {
            assert le(s[0], s[j - 1]);
          }
        }
      } else {
        var t := Insert(x, s[1..], le);
        InsertKeepsSorted(x, s[1..], le);
        InsertPermutes(x, s[1..], le);
        var r := [s[0]] + t;
        forall i, j | 0 <= i < j < |r| ensures le(r[i], r[j]) {
          if i == 0 {
            var y := t[j - 1];
            assert y in multiset(t);
            if y != x {
              assert y in multiset(s[1..]);
              var k :| 0 <= k < |s[1..]| && s[1..][k] == y;
              assert le(s[0], s[k + 1]);
            }
          } else {
            assert r[i] == t[i - 1] && r[j] == t[j - 1];
          }
        }
      }
    }
  }

  /** The sorted list is a permutation of the input. */
  lemma {:induction false} SortByPermutes<T>(s: seq<T>, le: (T, T) -> bool)
    ensures multiset(SortBy(s, le)) == multiset(s)
    ensures |SortBy(s, le)| == |s|
  {
    if s != [] {
      SortByPermutes(s[1..], le);
      InsertPermutes(s[0], SortBy(s[1..], le), le);
      assert s == [s[0]] + s[1..];
    }
  }

  /** The sorted list is ordered by the comparator. */
  lemma {:induction false} SortBySorted<T(!new)>(s: seq<T>, le: (T, T) -> bool)
    requires TotalPreorder(le)
    ensures SortedBy(SortBy(s, le), le)
  {
    if s != [] {
      SortBySorted(s[1..], le);
      InsertKeepsSorted(s[0], SortBy(s[1..], le), le);
    }
  }

  lemma {:induction false} InsertTiedWith<T(!new)>(x: T, s: seq<T>, k: T, le: (T, T) -> bool)
    requires Transitive(le)
    ensures TiedWith(Insert(x, s, le), k, le)
         == (if Tied(x, k, le) then [x] else []) + TiedWith(s, k, le)
  {
    if s != [] && !le(x, s[0]) {
      var r := Insert(x, s, le);
      InsertTiedWith(x, s[1..], k, le);
      assert r[0] == s[0] && r[1..] == Insert(x, s[1..], le);
      if Tied(x, k, le) {
        // s[0] is not tied with k: x could otherwise be placed in front of it
        NotTiedAfter(x, s[0], k, le);
      }
    }
  }

  /** An element that `x` may not precede is not tied with `x`'s key. */
  lemma NotTiedAfter<T(!new)>(x: T, y: T, k: T, le: (T, T) -> bool)
    requires Transitive(le)
    requires Tied(x, k, le) && !le(x, y)
    ensures !Tied(y, k, le)
  {
  }

  /**
   * Stability: the elements that compare equal to any `k` appear in the sorted
   * list in exactly their input order.
   */
  lemma {:induction false} SortByStable<T(!new)>(s: seq<T>, k: T, le: (T, T) -> bool)
    requires Transitive(le)
    ensures TiedWith(SortBy(s, le), k, le) == TiedWith(s, k, le)
  {
    if s != [] {
      SortByStable(s[1..], k, le);
      InsertTiedWith(s[0], SortBy(s[1..], le), k, le);
    }
  }

  /** Removing elements from a sorted list leaves it sorted. */
  lemma {:induction false} RemoveIdKeepsSorted<T>(s: seq<T>, idOf: T -> Option<int>, id: int, le: (T, T) -> bool)
    requires SortedBy(s, le)
    ensures SortedBy(RemoveId(s, idOf, id), le)
  {
    if s != [] {
      RemoveIdKeepsSorted(s[1..], idOf, id, le);
      RemoveIdContents(s[1..], idOf, id);
      var t := RemoveId(s[1..], idOf, id);
      if idOf(s[0]) != Some(id) {
        var r := [s[0]] + t;
        forall i, j | 0 <= i < j < |r| ensures le(r[i], r[j]) {
          if i == 0 {
            assert t[j - 1] in RemoveId(s[1..], idOf, id);
            SublistMember(s[1..], idOf, id, t[j - 1]);
            var m :| 0 <= m < |s[1..]| && s[1..][m] == t[j - 1];
            assert le(s[0], s[m + 1]);
          } else {
            assert r[i] == t[i - 1] && r[j] == t[j - 1];
          }
        }
      }
    }
  }

  /**
   * `s.filter(p).sortedWith(le)`: a permutation of the elements of `s` that
   * satisfy `p`, so never longer than `s`.
   */
  lemma FilterThenSort<T>(s: seq<T>, p: T -> bool, le: (T, T) -> bool)
    ensures multiset(SortBy(Filter(s, p), le)) == multiset(Filter(s, p))
    ensures forall x :: x in SortBy(Filter(s, p), le) <==> x in s && p(x)
    ensures |SortBy(Filter(s, p), le)| <= |s|
  {
    FilterContents(s, p);
    SortByPermutes(Filter(s, p), le);
    forall x ensures x in SortBy(Filter(s, p), le) <==> x in Filter(s, p) {
      assert x in SortBy(Filter(s, p), le) <==> x in multiset(SortBy(Filter(s, p), le));
    }
  }

  // ---------------------------------------------------------------------
  // String order

  /** `a <= b` under `String.compareTo`: lexicographic by character, a prefix first. */
  predicate StrLe(a: string, b: string) {
    a == [] || (b != [] && (a[0] < b[0] || (a[0] == b[0] && StrLe(a[1..], b[1..]))))
  }

  /** `a < b` under `String.compareTo`. */
  predicate StrLt(a: string, b: string) {
    StrLe(a, b) && a != b
  }

  lemma {:induction false} StrLeReflexive(a: string)
    ensures StrLe(a, a)
  {
    if a != [] {
      StrLeReflexive(a[1..]);
    }
  }

  lemma {:induction false} StrLeTotal(a: string, b: string)
    ensures StrLe(a, b) || StrLe(b, a)
  {
    if a != [] && b != [] && a[0] == b[0] {
      StrLeTotal(a[1..], b[1..]);
    }
  }

  lemma {:induction false} StrLeTransitive(a: string, b: string, c: string)
    requires StrLe(a, b) && StrLe(b, c)
    ensures StrLe(a, c)
  {
    if a != [] && b != [] && c != [] && a[0] == b[0] == c[0] {
      StrLeTransitive(a[1..], b[1..], c[1..]);
    }
  }

  lemma {:induction false} StrLeAntisymmetric(a: string, b: string)
    requires StrLe(a, b) && StrLe(b, a)
    ensures a == b
  {
    if a != [] && b != [] {
      StrLeAntisymmetric(a[1..], b[1..]);
      assert a == [a[0]] + a[1..] && b == [b[0]] + b[1..];
    }
  }
}
