/**
 * The `Array.prototype` operations the application uses: `filter`, a numeric
 * `reduce` and the stable `sort` (section 22.1.3.27 of ECMA-262, 2019 edition).
 */
module JsArray {

  /** `s.filter(p)`: the elements satisfying `p`, in their original order. */
  function Filter<T(==)>(s: seq<T>, p: T -> bool): (r: seq<T>)
    ensures |r| <= |s|
    ensures forall x | x in r :: x in s && p(x)
    ensures forall x | x in s && p(x) :: x in r
  {
    if s == [] then []
    else (if p(s[0]) then [s[0]] else []) + Filter(s[1..], p)
  }

  /** Filtering distributes over concatenation, so the kept elements stay in order. */
  lemma {:induction false} FilterConcat<T>(a: seq<T>, b: seq<T>, p: T -> bool)
    ensures Filter(a + b, p) == Filter(a, p) + Filter(b, p)
  {
    if a == [] {
      assert a + b == b;
    } else {
      assert (a + b)[0] == a[0];
      assert (a + b)[1..] == a[1..] + b;
      FilterConcat(a[1..], b, p);
    }
  }

  /** When every element passes, filtering changes nothing. */
  lemma {:induction false} FilterAll<T>(s: seq<T>, p: T -> bool)
    requires forall i :: 0 <= i < |s| ==> p(s[i])
    ensures Filter(s, p) == s
  {
    if s != [] {
      FilterAll(s[1..], p);
    }
  }

  /** When no element passes, the result is empty. */
  lemma {:induction false} FilterNone<T>(s: seq<T>, p: T -> bool)
    requires forall i :: 0 <= i < |s| ==> !p(s[i])
    ensures Filter(s, p) == []
  {
    if s != [] {
      FilterNone(s[1..], p);
    }
  }

  /** `s.reduce((acc, x) => acc + f(x), 0)`, folded from the left. */
  function Sum<T>(s: seq<T>, f: T -> real): real
  {
    if s == [] then 0.0 else Sum(s[..|s| - 1], f) + f(s[|s| - 1])
  }

  /** The sum of a concatenation is the sum of its parts. */
  lemma {:induction false} SumConcat<T>(a: seq<T>, b: seq<T>, f: T -> real)
    ensures Sum(a + b, f) == Sum(a, f) + Sum(b, f)
    decreases |b|
  {
    if b == [] {
      assert a + b == a;
    } else {
      assert (a + b)[..|a + b| - 1] == a + b[..|b| - 1];
      SumConcat(a, b[..|b| - 1], f);
    }
  }

  /** A sum of terms that are all at least `lo` is at least |s| * lo. */
  lemma {:induction false} SumAtLeast<T>(s: seq<T>, f: T -> real, lo: real)
    requires forall i :: 0 <= i < |s| ==> lo <= f(s[i])
    ensures |s| as real * lo <= Sum(s, f)
  {
    if s != [] {
      SumAtLeast(s[..|s| - 1], f, lo);
    }
  }

  /** A sum of terms that are all at most `hi` is at most |s| * hi. */
  lemma {:induction false} SumAtMost<T>(s: seq<T>, f: T -> real, hi: real)
    requires forall i :: 0 <= i < |s| ==> f(s[i]) <= hi
    ensures Sum(s, f) <= |s| as real * hi
  {
    if s != [] {
      SumAtMost(s[..|s| - 1], f, hi);
    }
  }

  // ---------------------------------------------------------------------------
  // Stable sort in descending order of a numeric key.
  //
  // A stable sort with comparator `(a, b) => key(b) - key(a)` puts element `a`
  // before element `b` exactly when `a` has the larger key, or the keys are
  // equal and `a` came first. That order is total on positions, so the sorted
  // result is determined by it; it is computed here on positions, by insertion.
  // ---------------------------------------------------------------------------

  /** Position `a` precedes position `b` in the stably sorted output. */
  predicate Before(keys: seq<real>, a: nat, b: nat)
    requires a < |keys| && b < |keys|
  {
    keys[a] > keys[b] || (keys[a] == keys[b] && a < b)
  }

  /** `r` lists positions of `keys`, each one before every later one. */
  predicate RankedBy(keys: seq<real>, r: seq<nat>)
  {
    && (forall k :: 0 <= k < |r| ==> r[k] < |keys|)
    && (forall k, l :: 0 <= k < l < |r| ==> Before(keys, r[k], r[l]))
  }

  lemma BeforeTransitive(keys: seq<real>, a: nat, b: nat, c: nat)
    requires a < |keys| && b < |keys| && c < |keys|
    requires Before(keys, a, b) && Before(keys, b, c)
    ensures Before(keys, a, c)
  {
  }

  /** Inserts position `i` into a ranked list that does not hold it yet. */
  function Insert(keys: seq<real>, i: nat, s: seq<nat>): (r: seq<nat>)
    requires i < |keys|
    ensures |r| == |s| + 1
    ensures multiset(r) == multiset(s) + multiset{i}
  {
    if s == [] then [i]
    else if s[0] < |keys| && Before(keys, i, s[0]) then [i] + s
    else
      assert s == [s[0]] + s[1..];
      [s[0]] + Insert(keys, i, s[1..])
  }

  /** Insertion keeps a list ranked. */
  lemma {:induction false} InsertRanked(keys: seq<real>, i: nat, s: seq<nat>)
    requires i < |keys| && i !in s && RankedBy(keys, s)
    ensures RankedBy(keys, Insert(keys, i, s))
  {
    if s == [] {
    } else if Before(keys, i, s[0]) {
      var r := [i] + s;
      forall k, l | 0 <= k < l < |r| ensures Before(keys, r[k], r[l]) {
        if k == 0 && l > 1 { BeforeTransitive(keys, i, s[0], s[l - 1]); }
      }
    } else {
      var t := Insert(keys, i, s[1..]);
      InsertRanked(keys, i, s[1..]);
      var r := [s[0]] + t;
      forall l | 0 <= l < |t| ensures Before(keys, s[0], t[l]) {
        assert t[l] in multiset(t);
        if t[l] != i {
          assert t[l] in s[1..];
          var m :| 0 <= m < |s[1..]| && s[1..][m] == t[l];
          assert Before(keys, s[0], s[m + 1]);
        }
      }
      forall k, l | 0 <= k < l < |r| ensures Before(keys, r[k], r[l]) {
        if k > 0 { assert r[k] == t[k - 1] && r[l] == t[l - 1]; }
      }
      forall k | 0 <= k < |r| ensures r[k] < |keys| {
        if k > 0 { assert r[k] == t[k - 1]; }
      }
    }
  }

  lemma InsertMembers(keys: seq<real>, i: nat, s: seq<nat>)
    requires i < |keys|
    ensures forall x :: x in Insert(keys, i, s) <==> x == i || x in s
  {
    var r := Insert(keys, i, s);
    forall x ensures x in r <==> x == i || x in s {
      assert x in r <==> x in multiset(r);
      assert x in s <==> x in multiset(s);
    }
  }

  /** The positions `0 .. n-1` of `keys`, in stably sorted order. */
  function StableOrder(keys: seq<real>, n: nat): (r: seq<nat>)
    requires n <= |keys|
    ensures |r| == n
    ensures RankedBy(keys, r)
    ensures forall x :: x in r <==> 0 <= x < n
  {
    if n == 0 then []
    else
      var t := StableOrder(keys, n - 1);
      var i: nat := n - 1;
      InsertRanked(keys, i, t);
      InsertMembers(keys, i, t);
      Insert(keys, i, t)
  }

  /** In a ranked list the keys never increase, and equal keys keep their original order. */
  lemma RankedKeysDescend(keys: seq<real>, r: seq<nat>, k: nat, l: nat)
    requires RankedBy(keys, r) && k < l < |r|
    ensures keys[r[k]] >= keys[r[l]]
    ensures keys[r[k]] == keys[r[l]] ==> r[k] < r[l]
  {
    assert Before(keys, r[k], r[l]);
  }

  /**
   * Two ranked lists holding the same positions are equal. In particular any
   * stable sort of the positions `0 .. n-1` yields StableOrder(keys, n).
   */
  lemma {:induction false} RankedUnique(keys: seq<real>, r: seq<nat>, s: seq<nat>)
    requires RankedBy(keys, r) && RankedBy(keys, s) && |r| == |s|
    requires forall x :: x in r <==> x in s
    ensures r == s
  {
    if r != [] {
      assert r[0] in s && s[0] in r;
      var j :| 0 <= j < |s| && s[j] == r[0];
      var i :| 0 <= i < |r| && r[i] == s[0];
      if r[0] != s[0] {
        assert false;
      }
      forall x ensures x in r[1..] <==> x in s[1..] {
        TailMembers(keys, r, x);
        TailMembers(keys, s, x);
      }
      RankedUnique(keys, r[1..], s[1..]);
      assert r == [r[0]] + r[1..] && s == [s[0]] + s[1..];
    }
  }

  /** The tail of a ranked list holds every element except its head. */
  lemma TailMembers(keys: seq<real>, r: seq<nat>, x: nat)
    requires RankedBy(keys, r) && r != []
    ensures x in r[1..] <==> x in r && x != r[0]
  {
    if x in r[1..] {
      var m :| 0 <= m < |r[1..]| && r[1..][m] == x;
      assert Before(keys, r[0], r[m + 1]);
    }
    if x in r && x != r[0] {
      var m :| 0 <= m < |r| && r[m] == x;
      assert r[1..][m - 1] == x;
    }
  }
}
