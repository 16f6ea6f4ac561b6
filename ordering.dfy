/** The order in which profile names are sorted. Rust orders `String`s by
    their UTF-8 bytes, which is the lexicographic order of their code points;
    Dafny's `char` comparison is code-point order, so `Below` is that order
    exactly. The sort itself (`slice::sort`) is modelled by insertion sort:
    any two sorts of the same names agree (`SortedUnique`), so which
    algorithm stands for it does not matter. */
module Ordering {

  /** `a <= b` in lexicographic order; a proper prefix comes first. */
  predicate Below(a: string, b: string)
    decreases |a|
  {
    |a| == 0 || (|b| > 0 && (a[0] < b[0] || (a[0] == b[0] && Below(a[1..], b[1..]))))
  }

  lemma {:induction false} BelowReflexive(a: string)
    ensures Below(a, a)
    decreases |a|
  {
    if |a| > 0 { BelowReflexive(a[1..]); }
  }

  lemma {:induction false} BelowTotal(a: string, b: string)
    ensures Below(a, b) || Below(b, a)
    decreases |a|
  {
    if |a| > 0 && |b| > 0 && a[0] == b[0] { BelowTotal(a[1..], b[1..]); }
  }

  lemma {:induction false} BelowAntisymmetric(a: string, b: string)
    requires Below(a, b) && Below(b, a)
    ensures a == b
    decreases |a|
  {
    if |a| > 0 {
      BelowAntisymmetric(a[1..], b[1..]);
      assert a == [a[0]] + a[1..] && b == [b[0]] + b[1..];
    }
  }

  lemma {:induction false} BelowTransitive(a: string, b: string, c: string)
    requires Below(a, b) && Below(b, c)
    ensures Below(a, c)
    decreases |a|
  {
    if |a| > 0 && a[0] == b[0] && b[0] == c[0] {
      BelowTransitive(a[1..], b[1..], c[1..]);
    }
  }

  ghost predicate Sorted(s: seq<string>) {
    forall i, j :: 0 <= i < j < |s| ==> Below(s[i], s[j])
  }

  /** Inserts `x` before the first element it is below. */
  function Insert(x: string, s: seq<string>): seq<string> {
    if s == [] || Below(x, s[0]) then [x] + s else [s[0]] + Insert(x, s[1..])
  }

  lemma ConsSorted(y: string, r: seq<string>)
    requires Sorted(r) && forall k :: 0 <= k < |r| ==> Below(y, r[k])
    ensures Sorted([y] + r)
  {
  }

  lemma SnocSorted(r: seq<string>, y: string)
    requires Sorted(r) && forall k :: 0 <= k < |r| ==> Below(r[k], y)
    ensures Sorted(r + [y])
  {
  }

  lemma {:induction false} InsertCounts(x: string, s: seq<string>)
    ensures multiset(Insert(x, s)) == multiset(s) + multiset{x}
  {
    if s != [] && !Below(x, s[0]) {
      InsertCounts(x, s[1..]);
      assert s == [s[0]] + s[1..];
    }
  }

  lemma {:induction false} InsertSorted(x: string, s: seq<string>)
    requires Sorted(s)
    ensures Sorted(Insert(x, s))
  {
    if s == [] {
    } else if Below(x, s[0]) {
      forall k | 0 <= k < |s| ensures Below(x, s[k]) {
        HeadIsLeast(s, s[k]);
        BelowTransitive(x, s[0], s[k]);
      }
      ConsSorted(x, s);
    } else {
      BelowTotal(x, s[0]);
      SortedTail(s);
      InsertSorted(x, s[1..]);
      InsertCounts(x, s[1..]);
      var r := Insert(x, s[1..]);
      TailCounts(s);
      forall k | 0 <= k < |r| ensures Below(s[0], r[k]) {
        assert r[k] in multiset(r);
        if r[k] != x {
          HeadIsLeast(s, r[k]);
        }
      }
      ConsSorted(s[0], r);
    }
  }

  /** Insertion sort. */
  function SortNames(s: seq<string>): seq<string> {
    if s == [] then [] else Insert(s[0], SortNames(s[1..]))
  }

  lemma {:induction false} SortNamesSortedPermutation(s: seq<string>)
    ensures Sorted(SortNames(s)) && multiset(SortNames(s)) == multiset(s)
  {
    if s != [] {
      SortNamesSortedPermutation(s[1..]);
      InsertSorted(s[0], SortNames(s[1..]));
      InsertCounts(s[0], SortNames(s[1..]));
      assert s == [s[0]] + s[1..];
    }
  }

  /** The first element of a sorted sequence is below each of its elements. */
  lemma HeadIsLeast(a: seq<string>, x: string)
    requires Sorted(a) && x in multiset(a)
    ensures Below(a[0], x)
  {
    var i :| 0 <= i < |a| && a[i] == x;
    if i == 0 { BelowReflexive(x); }
  }

  lemma SortedTail(a: seq<string>)
    requires Sorted(a) && a != []
    ensures Sorted(a[1..])
  {
  }

  lemma TailCounts(a: seq<string>)
    requires a != []
    ensures multiset(a[1..]) == multiset(a) - multiset{a[0]}
  {
    assert a == [a[0]] + a[1..];
  }

  /** Two sorted arrangements of the same names are the same sequence. */
  lemma {:induction false} SortedUnique(a: seq<string>, b: seq<string>)
    requires Sorted(a) && Sorted(b) && multiset(a) == multiset(b)
    ensures a == b
  {
    if a != [] {
      assert a[0] in multiset(a);
      assert b != [];
      HeadIsLeast(a, b[0]);
      HeadIsLeast(b, a[0]);
      BelowAntisymmetric(a[0], b[0]);
      TailCounts(a);
      TailCounts(b);
      SortedTail(a);
      SortedTail(b);
      SortedUnique(a[1..], b[1..]);
      assert a == [a[0]] + a[1..] && b == [b[0]] + b[1..];
    }
  }

  /** `s` with every occurrence of `x` removed, order kept (`Vec::retain`). */
  function Without(s: seq<string>, x: string): seq<string> {
    if s == [] then []
    else Without(s[..|s| - 1], x) + (if s[|s| - 1] == x then [] else [s[|s| - 1]])
  }

  lemma {:induction false} WithoutCounts(s: seq<string>, x: string)
    ensures multiset(Without(s, x)) == multiset(s)[x := 0]
    ensures x !in Without(s, x)
  {
    if s != [] {
      var init, last := s[..|s| - 1], s[|s| - 1];
      assert s == init + [last];
      assert multiset(s) == multiset(init) + multiset{last};
      WithoutCounts(init, x);
      var tail := if last == x then [] else [last];
      assert Without(s, x) == Without(init, x) + tail;
      assert multiset(Without(s, x)) == multiset(Without(init, x)) + multiset(tail);
      assert multiset(Without(s, x)) == multiset(s)[x := 0];
    }
    assert x in Without(s, x) ==> multiset(Without(s, x))[x] > 0;
  }

  /** Every element of a sorted sequence is below its last element. */
  lemma LastIsGreatest(a: seq<string>, x: string)
    requires Sorted(a) && x in multiset(a)
    ensures Below(x, a[|a| - 1])
  {
    var i :| 0 <= i < |a| && a[i] == x;
    if i == |a| - 1 { BelowReflexive(x); }
  }

  lemma {:induction false} WithoutSorted(s: seq<string>, x: string)
    requires Sorted(s)
    ensures Sorted(Without(s, x))
  {
    if s != [] {
      var init, last := s[..|s| - 1], s[|s| - 1];
      assert Sorted(init);
      WithoutSorted(init, x);
      WithoutCounts(init, x);
      var r := Without(init, x);
      if last != x {
        assert s == init + [last];
        forall k | 0 <= k < |r| ensures Below(r[k], last) {
          assert r[k] in multiset(r);
          LastIsGreatest(s, r[k]);
        }
        SnocSorted(r, last);
      }
    }
  }
}
