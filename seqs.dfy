/**
 * Order-preserving filtering and a stable sort on sequences: the semantics
 * of `Array.prototype.filter`, of the (stable) `Array.prototype.sort`, and of
 * the store's `.eq(...)` / `.order(...)` query modifiers.
 */
module Seqs {

  /** The elements of `s` that satisfy `p`, in their original order. */
  function Filter<T>(s: seq<T>, p: T -> bool): (r: seq<T>)
    ensures |r| <= |s|
  {
    if s == [] then []
    else if p(s[0]) then [s[0]] + Filter(s[1..], p)
    else Filter(s[1..], p)
  }

  /** Filtering keeps exactly the satisfying elements, with their multiplicity. */
  lemma {:induction false} FilterExactly<T>(s: seq<T>, p: T -> bool)
    ensures forall x :: x in Filter(s, p) <==> x in s && p(x)
    ensures forall x :: multiset(Filter(s, p))[x] == if p(x) then multiset(s)[x] else 0
  {
    if s != [] {
      FilterExactly(s[1..], p);
      assert s == [s[0]] + s[1..];
    }
  }

  /** Filtering a sequence extended by one element extends the filtered sequence by at most that element. */
  lemma {:induction false} FilterAppend<T>(s: seq<T>, x: T, p: T -> bool)
    ensures Filter(s + [x], p) == Filter(s, p) + (if p(x) then [x] else [])
  {
    if s != [] {
      assert (s + [x])[1..] == s[1..] + [x];
      FilterAppend(s[1..], x, p);
    }
  }

  /** Every element of `s` satisfies `p` exactly when filtering removes nothing. */
  lemma {:induction false} FilterKeepsAll<T>(s: seq<T>, p: T -> bool)
    ensures Filter(s, p) == s <==> forall i :: 0 <= i < |s| ==> p(s[i])
  {
    if s != [] {
      FilterKeepsAll(s[1..], p);
      if !p(s[0]) {
        assert |Filter(s, p)| < |s|;
      }
      if forall i :: 0 <= i < |s| ==> p(s[i]) {
        assert forall i :: 0 <= i < |s[1..]| ==> p(s[1..][i]);
      } else if p(s[0]) {
        var i :| 0 <= i < |s| && !p(s[i]);
        assert !p(s[1..][i - 1]);
      }
    }
  }

  /** `f` applied to every element of `s`, in order. */
  function Map<T, U>(s: seq<T>, f: T -> U): (r: seq<U>)
    ensures |r| == |s|
    ensures forall i :: 0 <= i < |s| ==> r[i] == f(s[i])
  {
    seq(|s|, i requires 0 <= i < |s| => f(s[i]))
  }

  /** Filtering twice is filtering once by the conjunction. */
  lemma {:induction false} FilterTwice<T>(s: seq<T>, p: T -> bool, q: T -> bool, both: T -> bool)
    requires forall x :: x in s ==> (both(x) <==> p(x) && q(x))
    ensures Filter(Filter(s, p), q) == Filter(s, both)
  {
    if s != [] {
      assert forall x :: x in s[1..] ==> x in s;
      FilterTwice(s[1..], p, q, both);
      if p(s[0]) {
        assert Filter([s[0]] + Filter(s[1..], p), q) == Filter(Filter(s, p), q);
        assert ([s[0]] + Filter(s[1..], p))[1..] == Filter(s[1..], p);
      }
    }
  }

  /** Filtering the images is mapping the elements whose images pass. */
  lemma {:induction false} FilterMap<T, U>(s: seq<T>, f: T -> U, p: T -> bool, q: U -> bool)
    requires forall x :: x in s ==> (q(f(x)) <==> p(x))
    ensures Filter(Map(s, f), q) == Map(Filter(s, p), f)
  {
    if s != [] {
      var rest := s[1..];
      assert forall x :: x in rest ==> x in s;
      FilterMap(rest, f, p, q);
      var images := Map(s, f);
      assert images[1..] == Map(rest, f);
      assert q(images[0]) <==> p(s[0]);
      if p(s[0]) {
        MapCons(s[0], Filter(rest, p), f);
      }
    }
  }

  /** Mapping over a sequence with a new head maps the head first. */
  lemma MapCons<T, U>(x: T, s: seq<T>, f: T -> U)
    ensures Map([x] + s, f) == [f(x)] + Map(s, f)
  {
    var xs := [x] + s;
    var lhs := Map(xs, f);
    var rhs := [f(x)] + Map(s, f);
    forall i | 0 <= i < |lhs| ensures lhs[i] == rhs[i] {
      if i > 0 {
        assert xs[i] == s[i - 1];
      }
    }
  }

  /**
   * Two sequences that agree wherever either element passes `p` filter to
   * the same sequence.
   */
  lemma {:induction false} FilterAgreeing<T>(a: seq<T>, b: seq<T>, p: T -> bool)
    requires |a| == |b|
    requires forall i :: 0 <= i < |a| && (p(a[i]) || p(b[i])) ==> a[i] == b[i]
    ensures Filter(a, p) == Filter(b, p)
  {
    if a != [] {
      assert forall i :: 0 <= i < |a[1..]| ==> a[1..][i] == a[i + 1] && b[1..][i] == b[i + 1];
      FilterAgreeing(a[1..], b[1..], p);
    }
  }

  /** `s` is ordered by ascending `key`. */
  ghost predicate SortedBy<T>(s: seq<T>, key: T -> int) {
    forall i, j :: 0 <= i < j < |s| ==> key(s[i]) <= key(s[j])
  }

  /** Places `x` before the first element whose key is not smaller than its own. */
  function Insert<T>(x: T, s: seq<T>, key: T -> int): (r: seq<T>)
    ensures multiset(r) == multiset(s) + multiset{x}
    ensures |r| == |s| + 1
  {
    if s == [] || key(x) <= key(s[0]) then [x] + s
    else
      assert s == [s[0]] + s[1..];
      [s[0]] + Insert(x, s[1..], key)
  }

  /**
   * Stable sort by ascending `key`: an element taken earlier from `s` is
   * inserted in front of every later element with an equal key.
   */
  function SortBy<T>(s: seq<T>, key: T -> int): (r: seq<T>)
    ensures multiset(r) == multiset(s)
    ensures |r| == |s|
  {
    if s == [] then []
    else
      assert s == [s[0]] + s[1..];
      Insert(s[0], SortBy(s[1..], key), key)
  }

  lemma {:induction false} InsertSorted<T>(x: T, s: seq<T>, key: T -> int)
    requires SortedBy(s, key)
    ensures SortedBy(Insert(x, s, key), key)
  {
    if s != [] && key(x) > key(s[0]) {
      InsertSorted(x, s[1..], key);
      var t := Insert(x, s[1..], key);
      assert forall k :: 0 <= k < |t| ==> key(s[0]) <= key(t[k]) by {
        forall k | 0 <= k < |t| ensures key(s[0]) <= key(t[k]) {
          assert t[k] in multiset(t);
          assert t[k] == x || t[k] in multiset(s[1..]);
          if t[k] != x {
            var m :| 0 <= m < |s[1..]| && s[1..][m] == t[k];
            assert s[1..][m] == s[m + 1];
          }
        }
      }
    }
  }

  /** The sort yields an ascending permutation of its input. */
  lemma {:induction false} SortBySorted<T>(s: seq<T>, key: T -> int)
    ensures SortedBy(SortBy(s, key), key)
    ensures multiset(SortBy(s, key)) == multiset(s)
  {
    if s != [] {
      SortBySorted(s[1..], key);
      InsertSorted(s[0], SortBy(s[1..], key), key);
    }
  }

  /**
   * `s[i]` is the first element satisfying `p` whose key is least among all
   * elements satisfying `p`.
   */
  ghost predicate IsFirstLeast<T>(s: seq<T>, p: T -> bool, key: T -> int, i: int) {
    && 0 <= i < |s|
    && p(s[i])
    && (forall j :: 0 <= j < |s| && p(s[j]) ==> key(s[i]) <= key(s[j]))
    && (forall j :: 0 <= j < i && p(s[j]) ==> key(s[i]) < key(s[j]))
  }

  /** The filter is empty exactly when no element satisfies `p`. */
  lemma FilterEmpty<T>(s: seq<T>, p: T -> bool)
    ensures Filter(s, p) == [] <==> forall j :: 0 <= j < |s| ==> !p(s[j])
  {
    FilterExactly(s, p);
    if Filter(s, p) != [] {
      assert Filter(s, p)[0] in Filter(s, p);
    }
  }

  /** A head that fails `p` moves the first least index by one. */
  lemma SkipHead<T>(s: seq<T>, p: T -> bool, key: T -> int, i: int)
    requires s != [] && !p(s[0]) && IsFirstLeast(s[1..], p, key, i)
    ensures IsFirstLeast(s, p, key, i + 1)
  {
    assert forall j :: 1 <= j < |s| ==> s[j] == s[1..][j - 1];
  }

  /** A head whose key does not exceed the least of the rest is the first least. */
  lemma HeadIsLeast<T>(s: seq<T>, p: T -> bool, key: T -> int, i: int)
    requires s != [] && p(s[0]) && IsFirstLeast(s[1..], p, key, i)
    requires key(s[0]) <= key(s[1..][i])
    ensures IsFirstLeast(s, p, key, 0)
  {
    assert forall j :: 1 <= j < |s| ==> s[j] == s[1..][j - 1];
  }

  /** A head with a larger key than the least of the rest leaves that one first. */
  lemma HeadIsNotLeast<T>(s: seq<T>, p: T -> bool, key: T -> int, i: int)
    requires s != [] && p(s[0]) && IsFirstLeast(s[1..], p, key, i)
    requires key(s[0]) > key(s[1..][i])
    ensures IsFirstLeast(s, p, key, i + 1)
  {
    assert forall j :: 1 <= j < |s| ==> s[j] == s[1..][j - 1];
  }

  /**
   * Sorting the filtered elements and taking the head selects the first
   * least element of the ORIGINAL sequence: the stability of the sort turns
   * ties into "first in the original order".
   */
  lemma {:induction false} SortedFilterHead<T>(s: seq<T>, p: T -> bool, key: T -> int)
    requires Filter(s, p) != []
    ensures exists i :: IsFirstLeast(s, p, key, i) && SortBy(Filter(s, p), key)[0] == s[i]
  {
    var tail := s[1..];
    var ft := Filter(tail, p);
    if p(s[0]) {
      assert Filter(s, p) == [s[0]] + ft;
      assert ([s[0]] + ft)[1..] == ft;
      var sorted := SortBy(Filter(s, p), key);
      assert sorted == Insert(s[0], SortBy(ft, key), key);
      if ft == [] {
        FilterEmpty(tail, p);
        assert forall j :: 1 <= j < |s| ==> s[j] == tail[j - 1];
        assert IsFirstLeast(s, p, key, 0);
      } else {
        SortedFilterHead(tail, p, key);
        var i' :| IsFirstLeast(tail, p, key, i') && SortBy(ft, key)[0] == tail[i'];
        if key(s[0]) <= key(tail[i']) {
          HeadIsLeast(s, p, key, i');
        } else {
          HeadIsNotLeast(s, p, key, i');
        }
      }
    } else {
      assert Filter(s, p) == ft;
      SortedFilterHead(tail, p, key);
      var i' :| IsFirstLeast(tail, p, key, i') && SortBy(ft, key)[0] == tail[i'];
      SkipHead(s, p, key, i');
    }
  }

  /** The head of a non-empty filter is the first element of `s` satisfying `p`. */
  lemma {:induction false} FilterHead<T>(s: seq<T>, p: T -> bool)
    ensures Filter(s, p) != [] ==>
      exists i :: 0 <= i < |s| && Filter(s, p)[0] == s[i] && p(s[i]) && (forall j :: 0 <= j < i ==> !p(s[j]))
  {
    if s != [] && !p(s[0]) && Filter(s, p) != [] {
      assert Filter(s, p) == Filter(s[1..], p);
      FilterHead(s[1..], p);
      var i :| 0 <= i < |s[1..]| && Filter(s[1..], p)[0] == s[1..][i] && p(s[1..][i]) &&
               forall j :: 0 <= j < i ==> !p(s[1..][j]);
      assert forall j :: 1 <= j < i + 1 ==> s[j] == s[1..][j - 1];
      assert Filter(s, p)[0] == s[i + 1];
    }
  }
}
