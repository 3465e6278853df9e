/**
 * Generic list operations that the ledger pages use through JavaScript's
 * array library: `filter`, `reduce`, `slice`, `Array.from(new Set(...))`
 * and the stable `sort`.
 */
module Seqs {

  /** The elements of `s` that satisfy `p`, in their original order. */
  function Filter<T>(s: seq<T>, p: T -> bool): (r: seq<T>)
    ensures |r| <= |s|
    ensures forall i :: 0 <= i < |r| ==> r[i] in s && p(r[i])
    ensures forall i :: 0 <= i < |s| && p(s[i]) ==> s[i] in r
  {
    if s == [] then [] else (if p(s[0]) then [s[0]] else []) + Filter(s[1..], p)
  }

  lemma {:induction false} FilterAppend<T>(a: seq<T>, b: seq<T>, p: T -> bool)
    ensures Filter(a + b, p) == Filter(a, p) + Filter(b, p)
  {
    if a == [] {
      assert a + b == b;
    } else {
      assert (a + b)[0] == a[0];
      assert (a + b)[1..] == a[1..] + b;
      FilterAppend(a[1..], b, p);
    }
  }

  /** A prefix one element longer is the shorter prefix plus that element. */
  lemma PrefixSnoc<T>(s: seq<T>, i: nat)
    requires i < |s|
    ensures s[..i + 1] == s[..i] + [s[i]]
  {
  }

  lemma FilterSnoc<T>(s: seq<T>, x: T, p: T -> bool)
    ensures Filter(s + [x], p) == Filter(s, p) + (if p(x) then [x] else [])
  {
    FilterAppend(s, [x], p);
    assert Filter([x], p) == (if p(x) then [x] else []) + Filter([x][1..], p);
  }

  /** A filter whose predicate holds everywhere keeps the whole list. */
  lemma {:induction false} FilterAll<T>(s: seq<T>, p: T -> bool)
    requires forall x :: x in s ==> p(x)
    ensures Filter(s, p) == s
  {
    if s != [] {
      FilterAll(s[1..], p);
    }
  }

  /** A filter whose predicate holds nowhere keeps nothing. */
  lemma {:induction false} FilterNone<T>(s: seq<T>, p: T -> bool)
    requires forall i :: 0 <= i < |s| ==> !p(s[i])
    ensures Filter(s, p) == []
  {
    if s != [] {
      FilterNone(s[1..], p);
    }
  }

  /** A filter over four elements, spelled out. */
  lemma FilterFour<T>(a: T, b: T, c: T, d: T, p: T -> bool)
    ensures Filter([a, b, c, d], p)
         == (if p(a) then [a] else []) + ((if p(b) then [b] else []) + ((if p(c) then [c] else []) + (if p(d) then [d] else [])))
  {
    assert [a, b, c, d][1..] == [b, c, d] && [b, c, d][1..] == [c, d] && [c, d][1..] == [d] && [d][1..] == [];
    assert Filter([d], p) == (if p(d) then [d] else []);
    assert Filter([c, d], p) == (if p(c) then [c] else []) + Filter([d], p);
    assert Filter([b, c, d], p) == (if p(b) then [b] else []) + Filter([c, d], p);
    assert Filter([a, b, c, d], p) == (if p(a) then [a] else []) + Filter([b, c, d], p);
  }

  /** A filter over five elements, spelled out. */
  lemma FilterFive<T>(a: T, b: T, c: T, d: T, e: T, p: T -> bool)
    ensures Filter([a, b, c, d, e], p)
         == (if p(a) then [a] else []) + ((if p(b) then [b] else []) + ((if p(c) then [c] else [])
          + ((if p(d) then [d] else []) + (if p(e) then [e] else []))))
  {
    FilterFour(b, c, d, e, p);
    assert [a, b, c, d, e][1..] == [b, c, d, e];
    assert Filter([a, b, c, d, e], p) == (if p(a) then [a] else []) + Filter([b, c, d, e], p);
  }

  /** Filters by two predicates commute. */
  lemma {:induction false} FilterCommutes<T>(s: seq<T>, p: T -> bool, q: T -> bool)
    ensures Filter(Filter(s, p), q) == Filter(Filter(s, q), p)
  {
    if s != [] {
      var x, t := s[0], s[1..];
      FilterCommutes(t, p, q);
      FilterAppend(if p(x) then [x] else [], Filter(t, p), q);
      FilterAppend(if q(x) then [x] else [], Filter(t, q), p);
      assert Filter([x], p) == (if p(x) then [x] else []) + Filter([x][1..], p);
      assert Filter([x], q) == (if q(x) then [x] else []) + Filter([x][1..], q);
    }
  }

  /** `a` is `b` with some elements deleted, the rest kept in order. */
  predicate IsSubseq<T(==)>(a: seq<T>, b: seq<T>)
    decreases |b|
  {
    if a == [] then true
    else if b == [] then false
    else if a[0] == b[0] then IsSubseq(a[1..], b[1..])
    else IsSubseq(a, b[1..])
  }

  lemma {:induction false} FilterIsSubseq<T>(s: seq<T>, p: T -> bool)
    ensures IsSubseq(Filter(s, p), s)
  {
    if s != [] {
      FilterIsSubseq(s[1..], p);
      var f := Filter(s, p);
      if p(s[0]) {
        assert f[0] == s[0] && f[1..] == Filter(s[1..], p);
      } else {
        assert f == Filter(s[1..], p);
        if f != [] {
          assert f[0] in f;
          assert p(f[0]);
          assert f[0] != s[0];
        }
      }
    }
  }

  /** A filter keeps every occurrence of an element that satisfies `p` and none of the others. */
  lemma {:induction false} FilterCount<T>(s: seq<T>, p: T -> bool, x: T)
    ensures multiset(Filter(s, p))[x] == if p(x) then multiset(s)[x] else 0
  {
    if s != [] {
      FilterCount(s[1..], p, x);
      assert s == [s[0]] + s[1..];
      assert multiset(s) == multiset([s[0]]) + multiset(s[1..]);
    }
  }

  /** No element occurs twice. */
  predicate NoDup<T(==)>(s: seq<T>) {
    forall i, j :: 0 <= i < j < |s| ==> s[i] != s[j]
  }

  /**
   * The distinct elements of `s` in order of first appearance, as
   * `Array.from(new Set(s))` gives them.
   */
  function Distinct<T(==)>(s: seq<T>): (r: seq<T>)
    ensures forall i :: 0 <= i < |r| ==> r[i] in s
    ensures forall i :: 0 <= i < |s| ==> s[i] in r
    ensures NoDup(r)
  {
    if s == [] then []
    else
      var d := Distinct(s[..|s| - 1]);
      var x := s[|s| - 1];
      assert s == s[..|s| - 1] + [x];
      if x in d then d else d + [x]
  }

  lemma DistinctSnoc<T>(s: seq<T>, x: T)
    ensures Distinct(s + [x]) == if x in s then Distinct(s) else Distinct(s) + [x]
  {
    assert (s + [x])[..|s|] == s;
  }

  /** The position of the first occurrence of `x` in `s`. */
  function FirstIndex<T(==)>(s: seq<T>, x: T): (i: nat)
    requires x in s
    ensures i < |s| && s[i] == x && x !in s[..i]
  {
    if s[0] == x then 0 else 1 + FirstIndex(s[1..], x)
  }

  lemma {:induction false} FirstIndexSnoc<T>(s: seq<T>, x: T, y: T)
    requires y in s + [x]
    ensures FirstIndex(s + [x], y) == if y in s then FirstIndex(s, y) else |s|
  {
    if y in s {
      var j := FirstIndex(s, y);
      assert (s + [x])[j] == y;
      assert (s + [x])[..j] == s[..j];
    }
  }

  /** Distinct lists the elements in the order in which they first occur. */
  lemma {:induction false} DistinctFirstSeenOrder<T>(s: seq<T>, i: nat, j: nat)
    requires i < j < |Distinct(s)|
    ensures FirstIndex(s, Distinct(s)[i]) < FirstIndex(s, Distinct(s)[j])
  {
    var t, x := s[..|s| - 1], s[|s| - 1];
    assert s == t + [x];
    DistinctSnoc(t, x);
    var d := Distinct(t);
    var a, b := Distinct(s)[i], Distinct(s)[j];
    assert a == d[i] && a in t;
    FirstIndexSnoc(t, x, a);
    if j < |d| {
      assert b == d[j] && b in t;
      DistinctFirstSeenOrder(t, i, j);
      FirstIndexSnoc(t, x, b);
    } else {
      assert b == x && x !in t;
      FirstIndexSnoc(t, x, b);
    }
  }

  /** The first `n` elements, or all of them when there are fewer (`slice(0, n)`). */
  function Take<T>(s: seq<T>, n: nat): (r: seq<T>)
    ensures |r| == if n < |s| then n else |s|
    ensures r == s[..|r|]
  {
    if n < |s| then s[..n] else s
  }

  /** Sum of `f` over the elements of `s` (a `reduce` starting at 0). */
  function SumBy<T>(s: seq<T>, f: T -> real): real {
    if s == [] then 0.0 else f(s[0]) + SumBy(s[1..], f)
  }

  lemma {:induction false} SumByAppend<T>(a: seq<T>, b: seq<T>, f: T -> real)
    ensures SumBy(a + b, f) == SumBy(a, f) + SumBy(b, f)
  {
    if a == [] {
      assert a + b == b;
    } else {
      assert (a + b)[0] == a[0];
      assert (a + b)[1..] == a[1..] + b;
      SumByAppend(a[1..], b, f);
    }
  }

  /** Every element's key is at least that of every later element. */
  ghost predicate NonIncreasing<T>(s: seq<T>, key: T -> real) {
    forall i, j :: 0 <= i < j < |s| ==> key(s[i]) >= key(s[j])
  }

  /** The first `n` of a non-increasing sequence are at least as large as every element after them. */
  lemma TakeNonIncreasing<T>(s: seq<T>, n: nat, key: T -> real)
    requires NonIncreasing(s, key)
    ensures forall i, j :: 0 <= i < |Take(s, n)| <= j < |s| ==> key(Take(s, n)[i]) >= key(s[j])
  {
    var t := Take(s, n);
    forall i, j | 0 <= i < |t| <= j < |s| ensures key(t[i]) >= key(s[j]) {
      assert t[i] == s[i];
    }
  }

  /** Insert `x` before the first element whose key does not exceed its own. */
  function InsertDesc<T>(x: T, s: seq<T>, key: T -> real): (r: seq<T>)
    ensures |r| == |s| + 1
    ensures forall i :: 0 <= i < |r| ==> r[i] == x || r[i] in s
  {
    if s == [] || key(s[0]) <= key(x) then [x] + s
    else [s[0]] + InsertDesc(x, s[1..], key)
  }

  /**
   * Stable sort by non-increasing key: the model of `sort((a, b) => key(b) - key(a))`,
   * which since ECMAScript 2019 keeps elements with equal keys in their input order.
   */
  function SortDesc<T>(s: seq<T>, key: T -> real): (r: seq<T>)
    ensures |r| == |s|
  {
    if s == [] then [] else InsertDesc(s[0], SortDesc(s[1..], key), key)
  }

  lemma {:induction false} InsertDescMultiset<T>(x: T, s: seq<T>, key: T -> real)
    ensures multiset(InsertDesc(x, s, key)) == multiset(s) + multiset{x}
  {
    if !(s == [] || key(s[0]) <= key(x)) {
      InsertDescMultiset(x, s[1..], key);
      assert s == [s[0]] + s[1..];
    }
  }

  lemma {:induction false} InsertDescSorted<T>(x: T, s: seq<T>, key: T -> real)
    requires NonIncreasing(s, key)
    ensures NonIncreasing(InsertDesc(x, s, key), key)
  {
    if !(s == [] || key(s[0]) <= key(x)) {
      var t := InsertDesc(x, s[1..], key);
      InsertDescSorted(x, s[1..], key);
      assert forall k :: 0 <= k < |t| ==> key(t[k]) <= key(s[0]) by {
        forall k | 0 <= k < |t| ensures key(t[k]) <= key(s[0]) {
          if t[k] != x {
            var m :| 0 <= m < |s[1..]| && s[1..][m] == t[k];
            assert s[m + 1] == t[k];
          }
        }
      }
      assert InsertDesc(x, s, key) == [s[0]] + t;
    }
  }

  lemma {:induction false} SortDescSorted<T>(s: seq<T>, key: T -> real)
    ensures NonIncreasing(SortDesc(s, key), key)
  {
    if s != [] {
      SortDescSorted(s[1..], key);
      InsertDescSorted(s[0], SortDesc(s[1..], key), key);
    }
  }

  /** Sorting rearranges the elements and neither adds nor loses any. */
  lemma {:induction false} SortDescPermutes<T>(s: seq<T>, key: T -> real)
    ensures multiset(SortDesc(s, key)) == multiset(s)
  {
    if s != [] {
      SortDescPermutes(s[1..], key);
      InsertDescMultiset(s[0], SortDesc(s[1..], key), key);
      assert s == [s[0]] + s[1..];
    }
  }

  /** Sorting keeps exactly the elements it was given. */
  lemma SortDescElements<T>(s: seq<T>, key: T -> real)
    ensures forall x :: x in SortDesc(s, key) <==> x in s
  {
    SortDescPermutes(s, key);
    forall x ensures x in SortDesc(s, key) <==> x in s {
      assert x in SortDesc(s, key) <==> x in multiset(SortDesc(s, key));
      assert x in s <==> x in multiset(s);
    }
  }

  /** The predicate "has key `v`" (used to state stability). */
  function KeyIs<T>(key: T -> real, v: real): T -> bool {
    x => key(x) == v
  }

  lemma {:induction false} InsertDescStable<T>(x: T, s: seq<T>, key: T -> real, v: real)
    ensures Filter(InsertDesc(x, s, key), KeyIs(key, v))
         == (if key(x) == v then [x] else []) + Filter(s, KeyIs(key, v))
  {
    var p := KeyIs(key, v);
    if s == [] || key(s[0]) <= key(x) {
      assert ([x] + s)[0] == x && ([x] + s)[1..] == s;
    } else {
      InsertDescStable(x, s[1..], key, v);
      var r := [s[0]] + InsertDesc(x, s[1..], key);
      assert r[0] == s[0] && r[1..] == InsertDesc(x, s[1..], key);
      var head, mid := if p(s[0]) then [s[0]] else [], if p(x) then [x] else [];
      assert Filter(r, p) == head + (mid + Filter(s[1..], p));
      assert Filter(s, p) == head + Filter(s[1..], p);
      // `s[0]` outranks `x`, so at most one of them has the key `v`.
      assert head == [] || mid == [];
    }
  }

  /** Elements with equal keys come out in the order in which they went in. */
  lemma {:induction false} SortDescStable<T>(s: seq<T>, key: T -> real, v: real)
    ensures Filter(SortDesc(s, key), KeyIs(key, v)) == Filter(s, KeyIs(key, v))
  {
    if s != [] {
      SortDescStable(s[1..], key, v);
      InsertDescStable(s[0], SortDesc(s[1..], key), key, v);
    }
  }

  lemma {:induction false} SumByInsertDesc<T>(x: T, s: seq<T>, key: T -> real, f: T -> real)
    ensures SumBy(InsertDesc(x, s, key), f) == f(x) + SumBy(s, f)
  {
    if s == [] || key(s[0]) <= key(x) {
      assert ([x] + s)[0] == x && ([x] + s)[1..] == s;
    } else {
      SumByInsertDesc(x, s[1..], key, f);
      var r := [s[0]] + InsertDesc(x, s[1..], key);
      assert r[0] == s[0] && r[1..] == InsertDesc(x, s[1..], key);
    }
  }

  /** Sorting does not change a sum over the elements. */
  lemma {:induction false} SumBySortDesc<T>(s: seq<T>, key: T -> real, f: T -> real)
    ensures SumBy(SortDesc(s, key), f) == SumBy(s, f)
  {
    if s != [] {
      SumBySortDesc(s[1..], key, f);
      SumByInsertDesc(s[0], SortDesc(s[1..], key), key, f);
    }
  }
}
