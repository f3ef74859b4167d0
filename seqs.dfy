/** Generic sequence operations that stand for the array methods the pages
    use: reduce to a sum, filter by index, find, the indexOf-based
    de-duplication, and Array.prototype.sort with a comparator. */
module Seqs {
  import opened Js

  /** A `reduce` that adds f(x) over s, from left to right. */
  function Sum<T>(s: seq<T>, f: T -> real): real {
    if s == [] then 0.0 else Sum(s[..|s| - 1], f) + f(s[|s| - 1])
  }

  lemma {:induction false} SumConcat<T>(a: seq<T>, b: seq<T>, f: T -> real)
    ensures Sum(a + b, f) == Sum(a, f) + Sum(b, f)
    decreases |b|
  {
    if b == [] {
      assert a + b == a;
    } else {
      var b' := b[..|b| - 1];
      assert (a + b)[..|a + b| - 1] == a + b';
      SumConcat(a, b', f);
    }
  }

  lemma SumSingle<T>(x: T, f: T -> real)
    ensures Sum([x], f) == f(x)
  {
    assert [x][..0] == [];
  }

  lemma SumSnoc<T>(s: seq<T>, x: T, f: T -> real)
    ensures Sum(s + [x], f) == Sum(s, f) + f(x)
  {
    assert (s + [x])[..|s + [x]| - 1] == s;
  }

  /** Summing the elements of a prefix that pass a test, one element more. */
  lemma SumFilterStep<T>(s: seq<T>, i: nat, p: T -> bool, f: T -> real)
    requires i < |s|
    ensures Sum(Filter(s[..i + 1], p), f) == Sum(Filter(s[..i], p), f) + (if p(s[i]) then f(s[i]) else 0.0)
  {
    assert s[..i + 1][..i] == s[..i];
    if p(s[i]) {
      SumSnoc(Filter(s[..i], p), s[i], f);
    } else {
      assert Filter(s[..i + 1], p) == Filter(s[..i], p) + [];
      assert Filter(s[..i], p) + [] == Filter(s[..i], p);
    }
  }

  /** A sum that counts f(x) for the elements passing p and -f(x) for
      those passing q, where no element passes both, is the sum over the first
      filter less the sum over the second. */
  lemma {:induction false} SumSigned<T>(s: seq<T>, p: T -> bool, q: T -> bool, f: T -> real, h: T -> real)
    requires forall x :: !(p(x) && q(x))
    requires forall x :: h(x) == if p(x) then f(x) else if q(x) then -f(x) else 0.0
    ensures Sum(s, h) == Sum(Filter(s, p), f) - Sum(Filter(s, q), f)
  {
    if s != [] {
      var n := |s| - 1;
      SumSigned(s[..n], p, q, f, h);
      SumFilterStep(s, n, p, f);
      SumFilterStep(s, n, q, f);
      assert s[..n + 1] == s;
    }
  }

  /** Summing from the front gives the same as the left-to-right reduce. */
  lemma SumFront<T>(s: seq<T>, f: T -> real)
    requires s != []
    ensures Sum(s, f) == f(s[0]) + Sum(s[1..], f)
  {
    assert s == [s[0]] + s[1..];
    SumConcat([s[0]], s[1..], f);
    SumSingle(s[0], f);
  }

  /** A sum does not depend on the order of its terms. */
  lemma {:induction false} SumPermutation<T>(a: seq<T>, b: seq<T>, f: T -> real)
    requires multiset(a) == multiset(b)
    ensures Sum(a, f) == Sum(b, f)
    decreases |a|
  {
    if a == [] {
      assert |b| == |multiset(b)| == 0;
    } else {
      var x := a[0];
      assert x in multiset(b);
      var i :| 0 <= i < |b| && b[i] == x;
      var b' := b[..i] + b[i + 1..];
      assert b == b[..i] + [x] + b[i + 1..];
      assert multiset(b) == multiset(b[..i]) + multiset{x} + multiset(b[i + 1..]);
      assert a == [x] + a[1..];
      assert multiset(b') == multiset(b[..i]) + multiset(b[i + 1..]);
      assert multiset(a) == multiset{x} + multiset(a[1..]);
      assert multiset(a[1..]) == multiset(a) - multiset{x};
      assert multiset(b') == multiset(b) - multiset{x};
      SumPermutation(a[1..], b', f);
      SumFront(a, f);
      SumConcat(b[..i] + [x], b[i + 1..], f);
      SumConcat(b[..i], [x], f);
      SumConcat(b[..i], b[i + 1..], f);
      SumSingle(x, f);
    }
  }

  /** Number of elements satisfying p (a `filter(p).length`). */
  function Count<T>(s: seq<T>, p: T -> bool): (n: nat)
    ensures n <= |s|
  {
    if s == [] then 0 else Count(s[..|s| - 1], p) + (if p(s[|s| - 1]) then 1 else 0)
  }

  lemma {:induction false} CountConcat<T>(a: seq<T>, b: seq<T>, p: T -> bool)
    ensures Count(a + b, p) == Count(a, p) + Count(b, p)
    decreases |b|
  {
    if b == [] {
      assert a + b == a;
    } else {
      assert (a + b)[..|a + b| - 1] == a + b[..|b| - 1];
      CountConcat(a, b[..|b| - 1], p);
    }
  }

  /** When exactly one of p and q holds of every element, the two counts
      add up to the length. */
  lemma {:induction false} CountSplit<T>(s: seq<T>, p: T -> bool, q: T -> bool)
    requires forall i :: 0 <= i < |s| ==> (p(s[i]) <==> !q(s[i]))
    ensures Count(s, p) + Count(s, q) == |s|
  {
    if s != [] {
      CountSplit(s[..|s| - 1], p, q);
    }
  }

  /** Adding 1 per element counts the elements. */
  lemma {:induction false} SumOnes<T>(s: seq<T>, f: T -> real)
    requires forall i :: 0 <= i < |s| ==> f(s[i]) == 1.0
    ensures Sum(s, f) == |s| as real
  {
    if s != [] {
      SumOnes(s[..|s| - 1], f);
    }
  }

  /** `filter(p)`. */
  function Filter<T>(s: seq<T>, p: T -> bool): (r: seq<T>)
    ensures |r| == Count(s, p)
    ensures forall i :: 0 <= i < |r| ==> r[i] in s && p(r[i])
    ensures forall i :: 0 <= i < |s| && p(s[i]) ==> s[i] in r
  {
    if s == [] then [] else Filter(s[..|s| - 1], p) + (if p(s[|s| - 1]) then [s[|s| - 1]] else [])
  }

  /** `map(f)`. */
  function Map<T, U>(s: seq<T>, f: T -> U): (r: seq<U>)
    ensures |r| == |s|
    ensures forall i :: 0 <= i < |s| ==> r[i] == f(s[i])
  {
    if s == [] then [] else Map(s[..|s| - 1], f) + [f(s[|s| - 1])]
  }

  predicate Distinct<T(==)>(s: seq<T>) {
    forall i, j :: 0 <= i < j < |s| ==> s[i] != s[j]
  }

  /** The elements of s in the order of their first occurrence, each once. */
  function Dedupe<T(==)>(s: seq<T>): (d: seq<T>)
    ensures forall i :: 0 <= i < |d| ==> d[i] in s
    ensures forall i :: 0 <= i < |s| ==> s[i] in d
    ensures Distinct(d)
    ensures |d| <= |s|
  {
    if s == [] then []
    else
      var d := Dedupe(s[..|s| - 1]);
      if s[|s| - 1] in d then d else d + [s[|s| - 1]]
  }

  /** `indexOf`: the first position of x, or -1. */
  function IndexOf<T(==)>(s: seq<T>, x: T): (i: int)
    ensures -1 <= i < |s|
    ensures i == -1 <==> x !in s
    ensures 0 <= i ==> s[i] == x && x !in s[..i]
  {
    if s == [] then -1
    else if s[0] == x then 0
    else
      var j := IndexOf(s[1..], x);
      assert j >= 0 ==> s[1..][..j] == s[1..j + 1];
      if j == -1 then -1 else j + 1
  }

  /** `s.filter((v, i, self) => self.indexOf(v) === i)` over the first n positions. */
  function KeepFirst<T(==)>(s: seq<T>, n: nat): seq<T>
    requires n <= |s|
  {
    if n == 0 then []
    else KeepFirst(s, n - 1) + (if IndexOf(s, s[n - 1]) == n - 1 then [s[n - 1]] else [])
  }

  /** The indexOf filter keeps exactly the first occurrence of every element:
      it is the de-duplication of s, in first-occurrence order. */
  lemma {:induction false} KeepFirstIsDedupe<T>(s: seq<T>, n: nat)
    requires n <= |s|
    ensures KeepFirst(s, n) == Dedupe(s[..n])
  {
    if n > 0 {
      KeepFirstIsDedupe(s, n - 1);
      var x := s[n - 1];
      var pre := s[..n - 1];
      var t := s[..n];
      assert t[..|t| - 1] == pre && t[|t| - 1] == x;
      DedupeMember(pre, x);
      IndexOfAt(s, x, n - 1);
    }
  }

  lemma DedupeMember<T>(s: seq<T>, x: T)
    ensures x in Dedupe(s) <==> x in s
  {
    var d := Dedupe(s);
    if x in d {
      var j :| 0 <= j < |d| && d[j] == x;
    }
    if x in s {
      var k :| 0 <= k < |s| && s[k] == x;
    }
  }

  /** The distinct f-images of the elements that pass p are exactly the
      images of the passing elements. */
  lemma DedupeFilterMap<T, U>(s: seq<T>, p: T -> bool, f: T -> U)
    ensures forall i :: 0 <= i < |s| && p(s[i]) ==> f(s[i]) in Dedupe(Map(Filter(s, p), f))
    ensures forall y :: y in Dedupe(Map(Filter(s, p), f)) ==> exists i :: 0 <= i < |s| && p(s[i]) && f(s[i]) == y
  {
    var r := Filter(s, p);
    var m := Map(r, f);
    forall i | 0 <= i < |s| && p(s[i]) ensures f(s[i]) in Dedupe(m) {
      var j :| 0 <= j < |r| && r[j] == s[i];
      assert m[j] == f(s[i]);
    }
    forall y | y in Dedupe(m) ensures exists i :: 0 <= i < |s| && p(s[i]) && f(s[i]) == y {
      var j :| 0 <= j < |m| && m[j] == y;
      assert r[j] in s && p(r[j]);
      var i :| 0 <= i < |s| && s[i] == r[j];
      assert f(s[i]) == y;
    }
  }

  /** indexOf finds position k of x exactly when x does not occur before k. */
  lemma {:induction false} IndexOfAt<T>(s: seq<T>, x: T, k: nat)
    requires k < |s| && s[k] == x
    ensures IndexOf(s, x) == k <==> x !in s[..k]
  {
    if k > 0 {
      if s[0] == x {
        assert s[..k][0] == x;
      } else {
        IndexOfAt(s[1..], x, k - 1);
        assert s[1..][k - 1] == x;
        assert s[..k] == [s[0]] + s[1..][..k - 1];
      }
    }
  }

  /** `filter((_, j) => j !== i)`: every element but the one at i, in order. */
  function Without<T>(s: seq<T>, i: int): (r: seq<T>)
    ensures 0 <= i < |s| ==> |r| == |s| - 1
    ensures 0 <= i < |s| ==> forall j :: 0 <= j < |r| ==> r[j] == if j < i then s[j] else s[j + 1]
    ensures !(0 <= i < |s|) ==> r == s
  {
    if 0 <= i < |s| then s[..i] + s[i + 1..] else s
  }

  /** Removing one element takes exactly its share off a sum. */
  lemma SumWithout<T>(s: seq<T>, i: int, f: T -> real)
    requires 0 <= i < |s|
    ensures Sum(Without(s, i), f) == Sum(s, f) - f(s[i])
  {
    var a := s[..i];
    var b := s[i + 1..];
    assert Without(s, i) == a + b;
    assert a + [s[i]] + b == s;
    SumAround(a, s[i], b, f);
    SumConcat(a, b, f);
  }

  /** The sum around one element. */
  lemma SumAround<T>(a: seq<T>, x: T, b: seq<T>, f: T -> real)
    ensures Sum(a + [x] + b, f) == Sum(a, f) + f(x) + Sum(b, f)
  {
    SumConcat(a + [x], b, f);
    SumSnoc(a, x, f);
  }

  /** Replacing one element changes a sum by the difference of the two shares. */
  lemma SumUpdate<T>(s: seq<T>, i: int, x: T, f: T -> real)
    requires 0 <= i < |s|
    ensures Sum(s[i := x], f) == Sum(s, f) - f(s[i]) + f(x)
  {
    var a := s[..i];
    var b := s[i + 1..];
    assert a + [s[i]] + b == s;
    assert a + [x] + b == s[i := x];
    SumAround(a, s[i], b, f);
    SumAround(a, x, b, f);
  }

  /** `find(p)`: the position of the first element satisfying p. */
  function FindFirst<T>(s: seq<T>, p: T -> bool): (r: Option<nat>)
    ensures r.Some? ==> r.value < |s| && p(s[r.value]) && forall j :: 0 <= j < r.value ==> !p(s[j])
    ensures r.None? ==> forall j :: 0 <= j < |s| ==> !p(s[j])
  {
    if s == [] then None
    else if p(s[0]) then Some(0)
    else match FindFirst(s[1..], p)
         case None => None
         case Some(j) => Some(j + 1)
  }

  // -----------------------------------------------------------------------
  // Sorting with a comparator; `le(a, b)` holds when a may precede b.

  ghost predicate TotalPreorder<T(!new)>(le: (T, T) -> bool) {
    && (forall a, b :: le(a, b) || le(b, a))
    && (forall a, b, c :: le(a, b) && le(b, c) ==> le(a, c))
  }

  predicate SortedBy<T>(s: seq<T>, le: (T, T) -> bool) {
    forall i, j :: 0 <= i < j < |s| ==> le(s[i], s[j])
  }

  /** Put x before the first element that it may precede. */
  function Insert<T>(x: T, s: seq<T>, le: (T, T) -> bool): (r: seq<T>)
    ensures multiset(r) == multiset(s) + multiset{x}
    ensures |r| == |s| + 1
  {
    if s == [] then [x]
    else if le(x, s[0]) then [x] + s
    else
      assert s == [s[0]] + s[1..];
      [s[0]] + Insert(x, s[1..], le)
  }

  /** A stable insertion sort: elements that compare equal keep their order. */
  function SortBy<T>(s: seq<T>, le: (T, T) -> bool): (r: seq<T>)
    ensures multiset(r) == multiset(s)
    ensures |r| == |s|
  {
    if s == [] then []
    else
      assert s == [s[0]] + s[1..];
      Insert(s[0], SortBy(s[1..], le), le)
  }

  lemma {:induction false} InsertSorted<T(!new)>(x: T, s: seq<T>, le: (T, T) -> bool)
    requires TotalPreorder(le)
    requires SortedBy(s, le)
    ensures SortedBy(Insert(x, s, le), le)
    decreases |s|
  {
    if s == [] {
    } else if le(x, s[0]) {
      forall y | y in s ensures le(x, y) {
        var k :| 0 <= k < |s| && s[k] == y;
        if k > 0 {
          assert le(s[0], s[k]);
        }
      }
      SortedCons(x, s, le);
    } else {
      InsertSorted(x, s[1..], le);
      var r := Insert(x, s[1..], le);
      forall y | y in r ensures le(s[0], y) {
        assert y in multiset(r);
        if y != x {
          assert y in multiset(s[1..]);
          var k :| 0 <= k < |s[1..]| && s[1..][k] == y;
          assert s[k + 1] == y;
        }
      }
      SortedCons(s[0], r, le);
    }
  }

  /** An element that may precede every element of a sorted sequence can
      go in front of it. */
  lemma SortedCons<T>(x: T, s: seq<T>, le: (T, T) -> bool)
    requires SortedBy(s, le)
    requires forall y :: y in s ==> le(x, y)
    ensures SortedBy([x] + s, le)
  {
    var r := [x] + s;
    forall i, j | 0 <= i < j < |r| ensures le(r[i], r[j]) {
      assert r[j] == s[j - 1];
      if i == 0 {
        assert s[j - 1] in s;
      } else {
        assert r[i] == s[i - 1];
      }
    }
  }

  /** The sort under a total preorder yields a sorted permutation of its input. */
  lemma {:induction false} SortBySpec<T(!new)>(s: seq<T>, le: (T, T) -> bool)
    requires TotalPreorder(le)
    ensures SortedBy(SortBy(s, le), le)
    ensures multiset(SortBy(s, le)) == multiset(s)
  {
    if s != [] {
      SortBySpec(s[1..], le);
      InsertSorted(s[0], SortBy(s[1..], le), le);
    }
  }

  lemma MapFront<T, U>(x: T, s: seq<T>, f: T -> U)
    ensures Map([x] + s, f) == [f(x)] + Map(s, f)
  {
  }

  /** Inserting an image into a mapped sequence, under an order on images
      that mirrors the order on the originals, is mapping the insertion. */
  lemma {:induction false} InsertMap<T, U>(x: T, s: seq<T>, f: T -> U, le: (T, T) -> bool, leU: (U, U) -> bool)
    requires forall a, b :: leU(f(a), f(b)) == le(a, b)
    ensures Insert(f(x), Map(s, f), leU) == Map(Insert(x, s, le), f)
    decreases |s|
  {
    if s != [] {
      assert s == [s[0]] + s[1..];
      MapFront(s[0], s[1..], f);
      if le(x, s[0]) {
        MapFront(x, s, f);
      } else {
        InsertMap(x, s[1..], f, le, leU);
        MapFront(s[0], Insert(x, s[1..], le), f);
      }
    }
  }

  /** Sorting the images is mapping the sorted originals. */
  lemma {:induction false} SortMap<T, U>(s: seq<T>, f: T -> U, le: (T, T) -> bool, leU: (U, U) -> bool)
    requires forall a, b :: leU(f(a), f(b)) == le(a, b)
    ensures SortBy(Map(s, f), leU) == Map(SortBy(s, le), f)
  {
    if s != [] {
      assert s == [s[0]] + s[1..];
      MapFront(s[0], s[1..], f);
      assert Map(s, f)[1..] == Map(s[1..], f);
      SortMap(s[1..], f, le, leU);
      InsertMap(s[0], SortBy(s[1..], le), f, le, leU);
    }
  }

  /** Summing the images is summing the composed amount. */
  lemma {:induction false} SumMap<T, U>(s: seq<T>, g: T -> U, h: U -> real, c: T -> real)
    requires forall x :: c(x) == h(g(x))
    ensures Sum(Map(s, g), h) == Sum(s, c)
  {
    if s != [] {
      SumMap(s[..|s| - 1], g, h, c);
      MapSnoc(s[..|s| - 1], s[|s| - 1], g);
      assert s == s[..|s| - 1] + [s[|s| - 1]];
      SumSnoc(Map(s[..|s| - 1], g), g(s[|s| - 1]), h);
    }
  }

  lemma {:induction false} MapConcat<T, U>(a: seq<T>, b: seq<T>, f: T -> U)
    ensures Map(a + b, f) == Map(a, f) + Map(b, f)
  {
  }

  /** A sequence is distinct exactly when no element occurs twice in its multiset. */
  lemma {:induction false} DistinctMultiset<T>(s: seq<T>)
    ensures Distinct(s) <==> forall x :: multiset(s)[x] <= 1
  {
    if s != [] {
      var last := s[|s| - 1];
      var init := s[..|s| - 1];
      DistinctMultiset(init);
      assert s == init + [last];
      assert multiset(s) == multiset(init) + multiset{last};
      if Distinct(s) {
        assert Distinct(init);
        assert last !in init;
        assert multiset(init)[last] == 0;
      }
      if forall x :: multiset(s)[x] <= 1 {
        assert forall x :: multiset(init)[x] <= multiset(s)[x];
        assert multiset(init)[last] == 0;
        forall i, j | 0 <= i < j < |s| ensures s[i] != s[j] {
          if j < |s| - 1 {
            assert s[i] == init[i] && s[j] == init[j];
          } else {
            assert s[i] in init;
          }
        }
      }
    }
  }

  /** A permutation of a sequence without repeats has no repeats. */
  lemma DistinctPermutation<T>(a: seq<T>, b: seq<T>)
    requires multiset(a) == multiset(b)
    requires Distinct(a)
    ensures Distinct(b)
  {
    DistinctMultiset(a);
    DistinctMultiset(b);
  }

  /** A permutation of a sequence whose elements have pairwise different
      keys also has pairwise different keys. */
  lemma DistinctByPermutation<T, K>(a: seq<T>, b: seq<T>, f: T -> K)
    requires multiset(a) == multiset(b)
    requires forall i, j :: 0 <= i < j < |a| ==> f(a[i]) != f(a[j])
    ensures forall i, j :: 0 <= i < j < |b| ==> f(b[i]) != f(b[j])
  {
    assert Distinct(a);
    DistinctPermutation(a, b);
    forall i, j | 0 <= i < j < |b| ensures f(b[i]) != f(b[j]) {
      assert b[i] in multiset(a) && b[j] in multiset(a);
      var p :| 0 <= p < |a| && a[p] == b[i];
      var q :| 0 <= q < |a| && a[q] == b[j];
      assert p != q;
    }
  }

  /** Two positions with one key in a sequence are two positions with that
      key in any permutation of it. */
  lemma RepeatedKey<T, K>(a: seq<T>, b: seq<T>, f: T -> K, p: nat, q: nat)
    requires multiset(a) == multiset(b)
    requires p < q < |a| && f(a[p]) == f(a[q])
    ensures exists i, j :: 0 <= i < j < |b| && f(b[i]) == f(a[p]) && f(b[j]) == f(a[p])
  {
    assert a[p] in multiset(b);
    var i0 :| 0 <= i0 < |b| && b[i0] == a[p];
    var j0: nat;
    if a[p] != a[q] {
      assert a[q] in multiset(b);
      j0 :| 0 <= j0 < |b| && b[j0] == a[q];
    } else {
      var x := a[p];
      assert a == a[..q] + a[q..];
      assert a[..q][p] == x && a[q..][0] == x;
      assert multiset(a)[x] == multiset(a[..q])[x] + multiset(a[q..])[x];
      var r := b[..i0] + b[i0 + 1..];
      assert b == b[..i0] + [b[i0]] + b[i0 + 1..];
      assert multiset(b)[x] == multiset(r)[x] + 1;
      assert x in multiset(r);
      var k :| 0 <= k < |r| && r[k] == x;
      j0 := if k < i0 then k else k + 1;
      assert b[j0] == r[k];
    }
    if i0 < j0 {
      assert f(b[i0]) == f(a[p]) && f(b[j0]) == f(a[p]);
    } else {
      assert f(b[j0]) == f(a[p]) && f(b[i0]) == f(a[p]);
    }
  }

  // -----------------------------------------------------------------------
  // Partition by a key, as the grouping `reduce` into a dictionary does.

  /** The elements whose key is k, in their original order. */
  function Having<T, K(==)>(s: seq<T>, key: T -> K, k: K): (r: seq<T>)
    ensures forall i :: 0 <= i < |r| ==> key(r[i]) == k
  {
    if s == [] then []
    else Having(s[..|s| - 1], key, k) + (if key(s[|s| - 1]) == k then [s[|s| - 1]] else [])
  }

  lemma HavingSnoc<T, K>(s: seq<T>, x: T, key: T -> K, k: K)
    ensures Having(s + [x], key, k) == Having(s, key, k) + (if key(x) == k then [x] else [])
  {
    assert (s + [x])[..|s + [x]| - 1] == s;
  }

  /** Every element is among the elements of its own key. */
  lemma {:induction false} HavingMember<T, K>(s: seq<T>, key: T -> K, n: nat)
    requires n < |s|
    ensures s[n] in Having(s, key, key(s[n]))
  {
    var init := s[..|s| - 1];
    if n < |s| - 1 {
      HavingMember(init, key, n);
      assert init[n] == s[n];
    }
  }

  lemma HavingAbsent<T, K>(s: seq<T>, key: T -> K, k: K)
    requires k !in Map(s, key)
    ensures Having(s, key, k) == []
  {
    if s != [] {
      assert Map(s, key)[|s| - 1] == key(s[|s| - 1]);
      assert Map(s[..|s| - 1], key) == Map(s, key)[..|s| - 1];
      HavingAbsent(s[..|s| - 1], key, k);
    }
  }

  lemma HavingPresent<T, K>(s: seq<T>, key: T -> K, k: K)
    requires k in Map(s, key)
    ensures Having(s, key, k) != []
  {
    var last := s[|s| - 1];
    if key(last) != k {
      assert Map(s, key) == Map(s[..|s| - 1], key) + [key(last)];
      HavingPresent(s[..|s| - 1], key, k);
    }
  }

  /** The sum of f over the members of each listed key. */
  function SumPer<T, K(==)>(s: seq<T>, key: T -> K, ks: seq<K>, f: T -> real): real {
    if ks == [] then 0.0 else SumPer(s, key, ks[..|ks| - 1], f) + Sum(Having(s, key, ks[|ks| - 1]), f)
  }

  lemma {:induction false} SumPerStep<T, K>(s: seq<T>, x: T, key: T -> K, ks: seq<K>, f: T -> real)
    requires Distinct(ks)
    ensures SumPer(s + [x], key, ks, f) == SumPer(s, key, ks, f) + (if key(x) in ks then f(x) else 0.0)
  {
    if ks != [] {
      var init := ks[..|ks| - 1];
      var k := ks[|ks| - 1];
      assert Distinct(init);
      SumPerStep(s, x, key, init, f);
      assert (s + [x])[..|s + [x]| - 1] == s;
      var h := Having(s, key, k);
      assert Having(s + [x], key, k) == h + (if key(x) == k then [x] else []);
      SumConcat(h, if key(x) == k then [x] else [], f);
      if key(x) == k {
        SumSingle(x, f);
        assert key(x) !in init;
      }
      assert key(x) in ks <==> key(x) in init || key(x) == k;
    }
  }

  /** The per-key sums are a sum over the keys of any per-key amount that
      equals the key's sum. */
  lemma {:induction false} SumPerBy<T, K>(s: seq<T>, key: T -> K, ks: seq<K>, f: T -> real, c: K -> real)
    requires forall k :: c(k) == Sum(Having(s, key, k), f)
    ensures SumPer(s, key, ks, f) == Sum(ks, c)
  {
    if ks != [] {
      SumPerBy(s, key, ks[..|ks| - 1], f, c);
    }
  }

  lemma MapSnoc<T, U>(s: seq<T>, x: T, f: T -> U)
    ensures Map(s + [x], f) == Map(s, f) + [f(x)]
  {
    assert (s + [x])[..|s + [x]| - 1] == s;
  }

  lemma FilterPrefix<T>(s: seq<T>, i: nat, p: T -> bool)
    requires i < |s|
    ensures Filter(s[..i + 1], p) == Filter(s[..i], p) + (if p(s[i]) then [s[i]] else [])
  {
    assert s[..i + 1][..i] == s[..i];
  }

  /** `filter` keeps the order and the multiplicity of what it keeps: the
      kept elements of a concatenation are those of its first part followed
      by those of its second. */
  lemma {:induction false} FilterConcat<T>(a: seq<T>, b: seq<T>, p: T -> bool)
    ensures Filter(a + b, p) == Filter(a, p) + Filter(b, p)
    decreases |b|
  {
    if b == [] {
      assert a + b == a;
    } else {
      var init, x := b[..|b| - 1], b[|b| - 1];
      var kept := if p(x) then [x] else [];
      assert b == init + [x];
      assert a + b == (a + init) + [x];
      FilterConcat(a, init, p);
      FilterSnoc(a + init, x, p);
      FilterSnoc(init, x, p);
      ConcatAssoc(Filter(a, p), Filter(init, p), kept);
    }
  }

  /** Appending one element keeps it exactly when it passes. */
  lemma FilterSnoc<T>(s: seq<T>, x: T, p: T -> bool)
    ensures Filter(s + [x], p) == Filter(s, p) + (if p(x) then [x] else [])
  {
    assert (s + [x])[..|s + [x]| - 1] == s;
  }

  /** One element is kept exactly when it passes. */
  lemma FilterSingle<T>(x: T, p: T -> bool)
    ensures Filter([x], p) == if p(x) then [x] else []
  {
    assert [x][..0] == [];
  }

  /** Two tests that agree on every element keep the same elements. */
  lemma {:induction false} FilterSame<T>(s: seq<T>, p: T -> bool, q: T -> bool)
    requires forall i :: 0 <= i < |s| ==> p(s[i]) == q(s[i])
    ensures Filter(s, p) == Filter(s, q)
  {
    if s != [] {
      FilterSame(s[..|s| - 1], p, q);
    }
  }

  /** Keeping some elements of a duplicate-free sequence leaves it duplicate-free. */
  lemma {:induction false} FilterDistinct<T>(s: seq<T>, p: T -> bool)
    requires Distinct(s)
    ensures Distinct(Filter(s, p))
  {
    if s != [] {
      var init := s[..|s| - 1];
      assert Distinct(init);
      FilterDistinct(init, p);
      var r := Filter(init, p);
      assert forall i :: 0 <= i < |r| ==> r[i] in init;
      assert s[|s| - 1] !in init;
    }
  }

  /** Two duplicate-free sequences with no element in common concatenate to one. */
  lemma DistinctConcat<T>(a: seq<T>, b: seq<T>)
    requires Distinct(a) && Distinct(b)
    requires forall i, j :: 0 <= i < |a| && 0 <= j < |b| ==> a[i] != b[j]
    ensures Distinct(a + b)
  {
    var c := a + b;
    forall i, j | 0 <= i < j < |c| ensures c[i] != c[j] {
      if j < |a| {
        assert c[i] == a[i] && c[j] == a[j];
      } else if i < |a| {
        assert c[i] == a[i] && c[j] == b[j - |a|];
      } else {
        assert c[i] == b[i - |a|] && c[j] == b[j - |a|];
      }
    }
  }

  /** A sequence has at most as many different elements as positions. */
  lemma {:induction false} SeqSetCard<T>(s: seq<T>)
    ensures |(set x | x in s)| <= |s|
  {
    if s != [] {
      var init := s[..|s| - 1];
      SeqSetCard(init);
      assert (set x | x in s) == (set x | x in init) + {s[|s| - 1]};
    }
  }

  lemma {:induction false} SubsetCard<T>(a: set<T>, b: set<T>)
    requires a <= b
    ensures |a| <= |b|
  {
    assert b == a + (b - a);
  }

  /** In a duplicate-free sequence, counting the elements that satisfy p is
      counting the set of them. */
  /** The elements of s that satisfy p, as a set. */
  function SetWhere<T>(s: seq<T>, p: T -> bool): set<T> {
    set x | x in s && p(x)
  }

  lemma {:induction false} DistinctCountSet<T>(s: seq<T>, p: T -> bool)
    requires Distinct(s)
    ensures |SetWhere(s, p)| == Count(s, p)
  {
    if s != [] {
      var init := s[..|s| - 1];
      var x := s[|s| - 1];
      assert Distinct(init);
      DistinctCountSet(init, p);
      assert x !in init;
      if p(x) {
        assert SetWhere(s, p) == SetWhere(init, p) + {x};
      } else {
        assert SetWhere(s, p) == SetWhere(init, p);
      }
    }
  }

  lemma ConcatAssoc<T>(a: seq<T>, b: seq<T>, c: seq<T>)
    ensures (a + b) + c == a + (b + c)
  {
  }

  lemma SnocAssoc<T>(a: seq<T>, b: seq<T>, x: T)
    ensures (a + b) + [x] == a + (b + [x])
  {
  }

  /** Mapping a permutation of t reaches the image of every element of t. */
  lemma MapCovers<T, U>(s: seq<T>, t: seq<T>, f: T -> U)
    requires multiset(s) == multiset(t)
    ensures forall x :: x in t ==> f(x) in Map(s, f)
  {
    forall x | x in t ensures f(x) in Map(s, f) {
      assert x in multiset(s);
      var j :| 0 <= j < |s| && s[j] == x;
      assert Map(s, f)[j] == f(x);
    }
  }

  /** A filter every element passes keeps the whole sequence. */
  lemma {:induction false} FilterKeepsAll<T>(s: seq<T>, p: T -> bool)
    requires forall x :: p(x)
    ensures Filter(s, p) == s
  {
    if s != [] {
      FilterKeepsAll(s[..|s| - 1], p);
      assert s[..|s| - 1] + [s[|s| - 1]] == s;
    }
  }

  /** Two permutations have the same members. */
  lemma SameMembers<U>(a: seq<U>, b: seq<U>, y: U)
    requires multiset(a) == multiset(b)
    ensures y in a <==> y in b
  {
    assert y in a <==> y in multiset(a);
    assert y in b <==> y in multiset(b);
  }

  lemma MapPrefix<T, U>(s: seq<T>, i: nat, f: T -> U)
    requires i < |s|
    ensures Map(s[..i + 1], f) == Map(s[..i], f) + [f(s[i])]
  {
    assert s[..i + 1] == s[..i] + [s[i]];
    MapSnoc(s[..i], s[i], f);
  }

  lemma DedupeSnoc<T>(s: seq<T>, x: T)
    ensures x in Dedupe(s) <==> x in s
    ensures Dedupe(s + [x]) == if x in s then Dedupe(s) else Dedupe(s) + [x]
  {
    assert (s + [x])[..|s + [x]| - 1] == s;
    if x in s {
      var j :| 0 <= j < |s| && s[j] == x;
    }
    if x in Dedupe(s) {
      var j :| 0 <= j < |Dedupe(s)| && Dedupe(s)[j] == x;
    }
  }

  /** Splitting a sequence into the groups of its distinct keys loses and
      duplicates nothing: the group sums add up to the whole sum. */
  lemma {:induction false} PartitionSum<T, K>(s: seq<T>, key: T -> K, f: T -> real)
    ensures SumPer(s, key, Dedupe(Map(s, key)), f) == Sum(s, f)
  {
    if s != [] {
      var init := s[..|s| - 1];
      assert s == init + [s[|s| - 1]];
      PartitionSum(init, key, f);
      PartitionSnoc(init, s[|s| - 1], key, f);
    }
  }

  lemma PartitionSnoc<T, K>(init: seq<T>, x: T, key: T -> K, f: T -> real)
    requires SumPer(init, key, Dedupe(Map(init, key)), f) == Sum(init, f)
    ensures SumPer(init + [x], key, Dedupe(Map(init + [x], key)), f) == Sum(init + [x], f)
  {
    var keys := Map(init, key);
    var d := Dedupe(keys);
    MapSnoc(init, x, key);
    DedupeSnoc(keys, key(x));
    if key(x) in keys {
      PartitionOldKey(init, x, key, d, f);
    } else {
      HavingAbsent(init, key, key(x));
      PartitionNewKey(init, x, key, d, f);
    }
  }

  lemma PartitionOldKey<T, K>(init: seq<T>, x: T, key: T -> K, d: seq<K>, f: T -> real)
    requires Distinct(d) && key(x) in d
    requires SumPer(init, key, d, f) == Sum(init, f)
    ensures SumPer(init + [x], key, d, f) == Sum(init + [x], f)
  {
    SumSnoc(init, x, f);
    SumPerStep(init, x, key, d, f);
  }

  lemma PartitionNewKey<T, K>(init: seq<T>, x: T, key: T -> K, d: seq<K>, f: T -> real)
    requires Distinct(d) && key(x) !in d
    requires Having(init, key, key(x)) == []
    requires SumPer(init, key, d, f) == Sum(init, f)
    ensures SumPer(init + [x], key, d + [key(x)], f) == Sum(init + [x], f)
  {
    var d' := d + [key(x)];
    assert d'[..|d'| - 1] == d;
    assert (init + [x])[..|init + [x]| - 1] == init;
    assert Having(init + [x], key, key(x)) == [x];
    SumSingle(x, f);
    SumSnoc(init, x, f);
    SumPerStep(init, x, key, d, f);
  }
}
