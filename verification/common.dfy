/** Small generic building blocks shared by every module of the model:
    optional values, results, and the array operations the application
    leans on (`filter`, `find`, de-duplication through a `Set`, `reduce`). */
module Common {

  /** JavaScript's `undefined`-or-value, as the usual Some/None datatype. */
  datatype Option<+T> = None | Some(value: T) {
    function GetOr(default: T): T {
      match this
      case Some(v) => v
      case None => default
    }
  }

  /** A success value or an error value. */
  datatype Result<+T, +E> = Ok(value: T) | Err(error: E)

  /** `s.filter(p)`: the elements of `s` satisfying `p`, in their original order. */
  function Filter<T(!new)>(p: T -> bool, s: seq<T>): (r: seq<T>)
    ensures |r| <= |s|
    ensures forall x :: x in r <==> x in s && p(x)
    ensures forall i :: 0 <= i < |r| ==> p(r[i])
    ensures forall x :: multiset(r)[x] == if p(x) then multiset(s)[x] else 0
    decreases |s|
  {
    if |s| == 0 then []
    else
      assert s == [s[0]] + s[1..];
      if p(s[0]) then [s[0]] + Filter(p, s[1..])
      else Filter(p, s[1..])
  }

  /** `a` can be obtained from `b` by deleting elements: the order of `a` is the order of `b`. */
  ghost predicate SubsequenceOf<T>(a: seq<T>, b: seq<T>)
    decreases |b|
  {
    |a| == 0 || (|b| > 0 && ((a[0] == b[0] && SubsequenceOf(a[1..], b[1..])) || SubsequenceOf(a, b[1..])))
  }

  /** Filtering never reorders: its result is a subsequence of its input. */
  lemma {:induction false} FilterIsSubsequence<T(!new)>(p: T -> bool, s: seq<T>)
    ensures SubsequenceOf(Filter(p, s), s)
    decreases |s|
  {
    if |s| > 0 {
      FilterIsSubsequence(p, s[1..]);
      if p(s[0]) {
        assert Filter(p, s)[1..] == Filter(p, s[1..]);
      }
    }
  }

  /** Filtering distributes over concatenation, so filtering an appended store
      is the old filtered store followed by the filtered new part. */
  lemma {:induction false} FilterAppend<T(!new)>(p: T -> bool, a: seq<T>, b: seq<T>)
    ensures Filter(p, a + b) == Filter(p, a) + Filter(p, b)
    decreases |a|
  {
    if |a| > 0 {
      assert (a + b)[0] == a[0];
      assert (a + b)[1..] == a[1..] + b;
      FilterAppend(p, a[1..], b);
    } else {
      assert a + b == b;
    }
  }

  /** A predicate true of every element keeps the whole sequence. */
  lemma {:induction false} FilterAll<T(!new)>(p: T -> bool, s: seq<T>)
    requires forall i :: 0 <= i < |s| ==> p(s[i])
    ensures Filter(p, s) == s
    decreases |s|
  {
    if |s| > 0 {
      FilterAll(p, s[1..]);
    }
  }

  /** Two predicates that agree on every element filter alike. */
  lemma {:induction false} FilterCongruent<T(!new)>(p: T -> bool, q: T -> bool, s: seq<T>)
    requires forall i :: 0 <= i < |s| ==> p(s[i]) == q(s[i])
    ensures Filter(p, s) == Filter(q, s)
    decreases |s|
  {
    if |s| > 0 {
      FilterCongruent(p, q, s[1..]);
    }
  }

  /** `s.findIndex(p)` made total: the index of the first element satisfying `p`, if any. */
  function FindFirst<T>(p: T -> bool, s: seq<T>): (r: Option<nat>)
    ensures r.Some? ==> r.value < |s| && p(s[r.value]) && forall j :: 0 <= j < r.value ==> !p(s[j])
    ensures r.None? <==> forall j :: 0 <= j < |s| ==> !p(s[j])
    decreases |s|
  {
    if |s| == 0 then None
    else if p(s[0]) then Some(0)
    else match FindFirst(p, s[1..])
      case None => None
      case Some(k) => Some(k + 1)
  }

  /** Appending elements after the first match does not change which element is found first. */
  lemma FindFirstAppend<T>(p: T -> bool, s: seq<T>, t: seq<T>)
    requires FindFirst(p, s).Some?
    ensures FindFirst(p, s + t) == FindFirst(p, s)
  {
    var k := FindFirst(p, s).value;
    assert (s + t)[k] == s[k];
    assert forall j :: 0 <= j < k ==> (s + t)[j] == s[j];
  }

  /** Index of the first occurrence of `x` in `s`. */
  function FirstIndex<T(==)>(s: seq<T>, x: T): (k: nat)
    requires x in s
    ensures k < |s| && s[k] == x
    ensures forall j :: 0 <= j < k ==> s[j] != x
    decreases |s|
  {
    if s[0] == x then 0 else 1 + FirstIndex(s[1..], x)
  }

  /** The first occurrence of `x` in a prefix is its first occurrence in the whole sequence. */
  lemma FirstIndexPrefix<T>(s: seq<T>, n: nat, x: T)
    requires n <= |s| && x in s[..n]
    ensures x in s && FirstIndex(s, x) == FirstIndex(s[..n], x)
  {
    var k := FirstIndex(s[..n], x);
    assert s[k] == x;
    assert forall j :: 0 <= j < k ==> s[j] == s[..n][j];
  }

  predicate NoDuplicates<T(==)>(s: seq<T>) {
    forall i, j :: 0 <= i < j < |s| ==> s[i] != s[j]
  }

  /** `[...new Set(s)]`: the distinct elements of `s`, each at the position of its first occurrence. */
  function Distinct<T(==,!new)>(s: seq<T>): (r: seq<T>)
    ensures forall x :: x in r <==> x in s
    ensures NoDuplicates(r)
    ensures forall i, j :: 0 <= i < j < |r| ==> FirstIndex(s, r[i]) < FirstIndex(s, r[j])
    decreases |s|
  {
    if |s| == 0 then []
    else
      var init := Distinct(s[..|s| - 1]);
      var last := s[|s| - 1];
      assert s == s[..|s| - 1] + [last];
      forall y | y in init
        ensures FirstIndex(s, y) == FirstIndex(s[..|s| - 1], y)
      {
        FirstIndexPrefix(s, |s| - 1, y);
      }
      if last in init then init
      else
        assert FirstIndex(s, last) == |s| - 1;
        init + [last]
  }

  /** `['all', ...new Set(s.map(key))]`, the entries of a category selector:
      `'all'`, then every key of `s` once, in order of first appearance. */
  function SelectorEntries<T>(key: T -> string, s: seq<T>): (r: seq<string>)
    ensures |r| >= 1 && r[0] == "all"
    ensures forall c :: c in r[1..] <==> exists i :: 0 <= i < |s| && key(s[i]) == c
    ensures NoDuplicates(r[1..])
    ensures forall i, j :: 1 <= i < j < |r| ==>
      var keys := Map(key, s);
      r[i] in keys && r[j] in keys && FirstIndex(keys, r[i]) < FirstIndex(keys, r[j])
  {
    var keys := Map(key, s);
    var d := Distinct(keys);
    var r := ["all"] + d;
    assert r[1..] == d;
    forall c ensures c in d <==> exists i :: 0 <= i < |s| && key(s[i]) == c {
      if c in d {
        var i :| 0 <= i < |keys| && keys[i] == c;
        assert key(s[i]) == c;
      }
    }
    r
  }

  /** JavaScript truthiness of an optional string: present and non-empty. */
  predicate Truthy(s: Option<string>) {
    s.Some? && s.value != ""
  }

  /** `s.map(f)`. */
  function Map<T, U>(f: T -> U, s: seq<T>): (r: seq<U>)
    ensures |r| == |s| && forall i :: 0 <= i < |s| ==> r[i] == f(s[i])
  {
    seq(|s|, i requires 0 <= i < |s| => f(s[i]))
  }

  /** `s.reduce((sum, x) => sum + f(x), 0)`. */
  function Sum<T>(f: T -> int, s: seq<T>): int
    decreases |s|
  {
    if |s| == 0 then 0 else f(s[0]) + Sum(f, s[1..])
  }

  /** `reduce` accumulates from the left: the sum of a non-empty sequence is
      the sum of all but its last element plus that last element's value. */
  lemma SumLast<T>(f: T -> int, s: seq<T>)
    requires |s| > 0
    ensures Sum(f, s) == Sum(f, s[..|s| - 1]) + f(s[|s| - 1])
  {
    assert s == s[..|s| - 1] + [s[|s| - 1]];
    SumAppend(f, s[..|s| - 1], [s[|s| - 1]]);
  }

  /** A sum of non-negative terms is non-negative. */
  lemma {:induction false} SumNonNegative<T>(f: T -> int, s: seq<T>)
    ensures (forall i :: 0 <= i < |s| ==> f(s[i]) >= 0) ==> Sum(f, s) >= 0
    decreases |s|
  {
    if |s| > 0 {
      SumNonNegative(f, s[1..]);
    }
  }

  /** A sum of terms that are each at least one is at least the number of terms. */
  lemma {:induction false} SumAtLeastLength<T>(f: T -> int, s: seq<T>)
    ensures (forall i :: 0 <= i < |s| ==> f(s[i]) >= 1) ==> Sum(f, s) >= |s|
    decreases |s|
  {
    if |s| > 0 {
      SumAtLeastLength(f, s[1..]);
    }
  }

  /** Summing distributes over concatenation. */
  lemma {:induction false} SumAppend<T>(f: T -> int, a: seq<T>, b: seq<T>)
    ensures Sum(f, a + b) == Sum(f, a) + Sum(f, b)
    decreases |a|
  {
    if |a| > 0 {
      assert (a + b)[0] == a[0];
      assert (a + b)[1..] == a[1..] + b;
      SumAppend(f, a[1..], b);
    } else {
      assert a + b == b;
    }
  }

  /** Summing is linear: the sum of a pointwise sum is the sum of the sums. */
  lemma {:induction false} SumAdd<T>(f: T -> int, g: T -> int, h: T -> int, s: seq<T>)
    requires forall i :: 0 <= i < |s| ==> h(s[i]) == f(s[i]) + g(s[i])
    ensures Sum(h, s) == Sum(f, s) + Sum(g, s)
    decreases |s|
  {
    if |s| > 0 {
      SumAdd(f, g, h, s[1..]);
    }
  }

  /** Summing `f` over the elements satisfying `p` is summing `f` masked by `p` over all elements. */
  lemma {:induction false} SumFilter<T(!new)>(p: T -> bool, f: T -> int, g: T -> int, s: seq<T>)
    requires forall i :: 0 <= i < |s| ==> g(s[i]) == (if p(s[i]) then f(s[i]) else 0)
    ensures Sum(f, Filter(p, s)) == Sum(g, s)
    decreases |s|
  {
    if |s| > 0 {
      SumFilter(p, f, g, s[1..]);
    }
  }

  /** Sums of pointwise-equal functions agree. */
  lemma {:induction false} SumCongruent<T>(f: T -> int, g: T -> int, s: seq<T>)
    requires forall i :: 0 <= i < |s| ==> f(s[i]) == g(s[i])
    ensures Sum(f, s) == Sum(g, s)
    decreases |s|
  {
    if |s| > 0 {
      SumCongruent(f, g, s[1..]);
    }
  }

  /** A sum whose terms all vanish but the one at `k` is that term. */
  lemma {:induction false} SumSingle<T>(f: T -> int, s: seq<T>, k: nat)
    requires k < |s|
    requires forall j :: 0 <= j < |s| && j != k ==> f(s[j]) == 0
    ensures Sum(f, s) == f(s[k])
    decreases |s|
  {
    if k == 0 {
      SumZero(f, s[1..]);
    } else {
      SumSingle(f, s[1..], k - 1);
    }
  }

  /** A sum of vanishing terms is zero. */
  lemma {:induction false} SumZero<T>(f: T -> int, s: seq<T>)
    requires forall j :: 0 <= j < |s| ==> f(s[j]) == 0
    ensures Sum(f, s) == 0
    decreases |s|
  {
    if |s| > 0 {
      SumZero(f, s[1..]);
    }
  }
}
