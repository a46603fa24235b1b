/**
 * Sequence operations that the JavaScript source uses through its array
 * library: `slice(0, n)`, `filter`, `[...new Set(xs)]` and a stable
 * `sort` with a numeric comparator (stable since ECMAScript 2019).
 */
module Seqs {

  /** `s.slice(0, n)`: the first `n` elements, or all of them when there are fewer. */
  function Take<T>(s: seq<T>, n: nat): (r: seq<T>)
    ensures |r| == if |s| <= n then |s| else n
    ensures r == s[..|r|]
  {
    if |s| <= n then s else s[..n]
  }

  /** `s.filter(p)`. */
  function Filter<T>(p: T -> bool, s: seq<T>): (r: seq<T>)
    ensures |r| <= |s|
    ensures forall i :: 0 <= i < |r| ==> r[i] in s && p(r[i])
    ensures forall i :: 0 <= i < |s| && p(s[i]) ==> s[i] in r
  {
    if s == [] then [] else (if p(s[0]) then [s[0]] else []) + Filter(p, s[1..])
  }

  lemma {:induction false} FilterConcat<T>(p: T -> bool, s: seq<T>, t: seq<T>)
    ensures Filter(p, s + t) == Filter(p, s) + Filter(p, t)
  {
    if s == [] {
      assert s + t == t;
    } else {
      assert (s + t)[1..] == s[1..] + t;
      FilterConcat(p, s[1..], t);
    }
  }

  lemma {:induction false} FilterAllPass<T>(p: T -> bool, s: seq<T>)
    requires forall i :: 0 <= i < |s| ==> p(s[i])
    ensures Filter(p, s) == s
  {
    if s != [] {
      FilterAllPass(p, s[1..]);
    }
  }

  /** No element occurs twice. */
  predicate NoDups<T(==)>(s: seq<T>)
  {
    forall i, j :: 0 <= i < j < |s| ==> s[i] != s[j]
  }

  /** Filtering keeps a sequence free of repetitions. */
  lemma {:induction false} FilterNoDups<T>(p: T -> bool, s: seq<T>)
    requires NoDups(s)
    ensures NoDups(Filter(p, s))
  {
    if s != [] {
      assert NoDups(s[1..]);
      FilterNoDups(p, s[1..]);
      assert s[0] !in s[1..];
      assert s[0] !in Filter(p, s[1..]);
    }
  }

  /** The elements of a sequence, as a set. */
  function Elements<T>(s: seq<T>): set<T>
  {
    set i | 0 <= i < |s| :: s[i]
  }

  /** A sequence without repetitions has as many elements as its set. */
  lemma {:induction false} NoDupsSize<T>(s: seq<T>)
    requires NoDups(s)
    ensures |Elements(s)| == |s|
  {
    if s != [] {
      var init := s[..|s| - 1];
      assert NoDups(init);
      NoDupsSize(init);
      assert Elements(s) == Elements(init) + {s[|s| - 1]};
      assert s[|s| - 1] !in Elements(init);
    }
  }

  lemma SubsetSize<T>(x: set<T>, y: set<T>)
    requires x <= y
    ensures |x| <= |y|
  {
    assert y == x + (y - x);
    assert x * (y - x) == {};
  }

  /** A sequence without repetitions whose elements all occur in `t` is no longer than `t`. */
  lemma NoDupsWithin<T>(s: seq<T>, t: seq<T>)
    requires NoDups(s)
    requires forall i :: 0 <= i < |s| ==> s[i] in t
    ensures |s| <= |t|
  {
    NoDupsSize(s);
    SubsetSize(Elements(s), Elements(t));
    ElementsSize(t);
  }

  lemma {:induction false} ElementsSize<T>(s: seq<T>)
    ensures |Elements(s)| <= |s|
  {
    if s != [] {
      var init := s[..|s| - 1];
      ElementsSize(init);
      assert Elements(s) == Elements(init) + {s[|s| - 1]};
    }
  }

  /**
   * `[...new Set(s)]`: the elements of `s` in the order of their first
   * occurrence, each once (a JavaScript Set iterates in insertion order).
   */
  function Dedup<T(==)>(s: seq<T>): (r: seq<T>)
    ensures NoDups(r)
    ensures forall i :: 0 <= i < |r| ==> r[i] in s
    ensures forall i :: 0 <= i < |s| ==> s[i] in r
    ensures |r| <= |s|
  {
    if s == [] then []
    else
      var init := Dedup(s[..|s| - 1]);
      if s[|s| - 1] in s[..|s| - 1] then init else init + [s[|s| - 1]]
  }

  /** Filtering one more element appends it exactly when it passes. */
  lemma FilterSnoc<T>(p: T -> bool, s: seq<T>, x: T)
    ensures Filter(p, s + [x]) == Filter(p, s) + (if p(x) then [x] else [])
  {
    FilterConcat(p, s, [x]);
    assert [x][1..] == [];
  }

  /** Deduplicating one more element appends it exactly when it is new. */
  lemma DedupSnoc<T>(s: seq<T>, x: T)
    ensures Dedup(s + [x]) == if x in s then Dedup(s) else Dedup(s) + [x]
  {
    assert (s + [x])[..|s|] == s;
  }

  /** The deduplication is as long as the set of the sequence's elements. */
  lemma DedupSize<T>(s: seq<T>)
    ensures |Dedup(s)| == |Elements(s)|
  {
    NoDupsSize(Dedup(s));
    assert Elements(Dedup(s)) == Elements(s);
  }

  /** A sequence without repetitions is its own deduplication. */
  lemma {:induction false} DedupOfNoDups<T>(s: seq<T>)
    requires NoDups(s)
    ensures Dedup(s) == s
  {
    if s != [] {
      var init := s[..|s| - 1];
      assert NoDups(init);
      DedupOfNoDups(init);
      assert s[|s| - 1] !in init;
      assert init + [s[|s| - 1]] == s;
    }
  }

  /** `s.indexOf(x)`: the first position of `x`, or -1. */
  function IndexOf<T(==)>(s: seq<T>, x: T): (r: int)
    ensures -1 <= r < |s|
    ensures r == -1 <==> x !in s
    ensures 0 <= r ==> s[r] == x && forall k :: 0 <= k < r ==> s[k] != x
  {
    if s == [] then -1
    else if s[0] == x then 0
    else
      var r := IndexOf(s[1..], x);
      if r == -1 then -1 else r + 1
  }

  /** In a sequence without repetitions, the position of an element is its index. */
  lemma IndexOfNoDups<T>(s: seq<T>, j: nat)
    requires NoDups(s) && j < |s|
    ensures IndexOf(s, s[j]) == j
  {
  }

  // ----- A stable sort, largest key first -----

  /** The elements of `s` whose key is `k`, in their order in `s`. */
  function WithKey<T>(s: seq<T>, key: T -> real, k: real): (r: seq<T>)
    ensures |r| <= |s|
  {
    if s == [] then [] else (if key(s[0]) == k then [s[0]] else []) + WithKey(s[1..], key, k)
  }

  /** Every element's key is at least that of every later element. */
  predicate NonIncreasing<T>(s: seq<T>, key: T -> real)
  {
    forall i, j :: 0 <= i < j < |s| ==> key(s[i]) >= key(s[j])
  }

  /** Puts `x` in front of the first element whose key is not larger than its own. */
  function InsertDesc<T>(x: T, s: seq<T>, key: T -> real): (r: seq<T>)
    ensures |r| == |s| + 1
  {
    if s == [] || key(s[0]) <= key(x) then [x] + s else [s[0]] + InsertDesc(x, s[1..], key)
  }

  /**
   * `s.sort((a, b) => key(b) - key(a))` as ECMAScript 2019 defines it: a stable
   * sort, that is, elements with equal keys keep their relative order.
   */
  function SortDesc<T>(s: seq<T>, key: T -> real): (r: seq<T>)
    ensures |r| == |s|
  {
    if s == [] then [] else InsertDesc(s[0], SortDesc(s[1..], key), key)
  }

  /** The sort neither loses nor invents an element. */
  lemma SortDescMembers<T>(s: seq<T>, key: T -> real)
    ensures forall i :: 0 <= i < |s| ==> s[i] in SortDesc(s, key)
    ensures forall i :: 0 <= i < |SortDesc(s, key)| ==> SortDesc(s, key)[i] in s
  {
    SortDescPermutes(s, key);
    var r := SortDesc(s, key);
    forall i | 0 <= i < |s|
      ensures s[i] in r
    {
      assert s[i] in multiset(s);
    }
    forall i | 0 <= i < |r|
      ensures r[i] in s
    {
      assert r[i] in multiset(r);
    }
  }

  lemma {:induction false} InsertDescPermutes<T>(x: T, s: seq<T>, key: T -> real)
    ensures multiset(InsertDesc(x, s, key)) == multiset(s) + multiset{x}
  {
    if s != [] && key(s[0]) > key(x) {
      InsertDescPermutes(x, s[1..], key);
      assert s == [s[0]] + s[1..];
    }
  }

  /** Insertion adds `x` and nothing else. */
  lemma InsertDescMembers<T>(x: T, s: seq<T>, key: T -> real)
    ensures forall i :: 0 <= i < |InsertDesc(x, s, key)| ==> InsertDesc(x, s, key)[i] == x || InsertDesc(x, s, key)[i] in s
  {
    InsertDescPermutes(x, s, key);
    var r := InsertDesc(x, s, key);
    forall i | 0 <= i < |r|
      ensures r[i] == x || r[i] in s
    {
      assert r[i] in multiset(r);
    }
  }

  lemma {:induction false} InsertDescOrders<T>(x: T, s: seq<T>, key: T -> real)
    requires NonIncreasing(s, key)
    ensures NonIncreasing(InsertDesc(x, s, key), key)
  {
    if s != [] && key(s[0]) > key(x) {
      InsertDescOrders(x, s[1..], key);
      var r := InsertDesc(x, s, key);
      assert r == [s[0]] + InsertDesc(x, s[1..], key);
      InsertDescMembers(x, s[1..], key);
      forall i, j | 0 <= i < j < |r| ensures key(r[i]) >= key(r[j]) {
        if i == 0 {
          assert r[j] in InsertDesc(x, s[1..], key);
          assert r[j] == x || r[j] in s[1..];
        }
      }
    }
  }

  lemma WithKeyCons<T>(y: T, t: seq<T>, key: T -> real, k: real)
    ensures WithKey([y] + t, key, k) == (if key(y) == k then [y] else []) + WithKey(t, key, k)
  {
    assert ([y] + t)[1..] == t;
  }

  lemma {:induction false} InsertDescKeepsKeyOrder<T>(x: T, s: seq<T>, key: T -> real, k: real)
    ensures WithKey(InsertDesc(x, s, key), key, k)
         == (if key(x) == k then [x] else []) + WithKey(s, key, k)
  {
    if s == [] || key(s[0]) <= key(x) {
      WithKeyCons(x, s, key, k);
    } else {
      var t := s[1..];
      var r := InsertDesc(x, t, key);
      assert InsertDesc(x, s, key) == [s[0]] + r;
      assert s == [s[0]] + t;
      InsertDescKeepsKeyOrder(x, t, key, k);
      WithKeyCons(s[0], r, key, k);
      WithKeyCons(s[0], t, key, k);
      if key(x) == k {
        assert key(s[0]) != k;
        assert WithKey(InsertDesc(x, s, key), key, k) == [x] + WithKey(t, key, k);
      } else {
        assert WithKey(r, key, k) == WithKey(t, key, k);
      }
    }
  }

  /** The sort's result is ordered by key, largest first. */
  lemma {:induction false} SortDescOrders<T>(s: seq<T>, key: T -> real)
    ensures NonIncreasing(SortDesc(s, key), key)
  {
    if s != [] {
      SortDescOrders(s[1..], key);
      InsertDescOrders(s[0], SortDesc(s[1..], key), key);
    }
  }

  /** The sort's result is a permutation of its input. */
  lemma {:induction false} SortDescPermutes<T>(s: seq<T>, key: T -> real)
    ensures multiset(SortDesc(s, key)) == multiset(s)
  {
    if s != [] {
      var rest := SortDesc(s[1..], key);
      assert SortDesc(s, key) == InsertDesc(s[0], rest, key);
      SortDescPermutes(s[1..], key);
      InsertDescPermutes(s[0], rest, key);
      assert s == [s[0]] + s[1..];
    }
  }

  /** Stability: for every key value, the elements carrying it keep their input order. */
  lemma {:induction false} SortDescStable<T>(s: seq<T>, key: T -> real, k: real)
    ensures WithKey(SortDesc(s, key), key, k) == WithKey(s, key, k)
  {
    if s != [] {
      SortDescStable(s[1..], key, k);
      InsertDescKeepsKeyOrder(s[0], SortDesc(s[1..], key), key, k);
    }
  }

  lemma {:induction false} WithKeyConcat<T>(s: seq<T>, t: seq<T>, key: T -> real, k: real)
    ensures WithKey(s + t, key, k) == WithKey(s, key, k) + WithKey(t, key, k)
  {
    if s == [] {
      assert s + t == t;
    } else {
      var head := if key(s[0]) == k then [s[0]] else [];
      calc {
        WithKey(s + t, key, k);
        { assert (s + t)[0] == s[0] && (s + t)[1..] == s[1..] + t; }
        head + WithKey(s[1..] + t, key, k);
        { WithKeyConcat(s[1..], t, key, k); }
        head + (WithKey(s[1..], key, k) + WithKey(t, key, k));
        head + WithKey(s[1..], key, k) + WithKey(t, key, k);
      }
    }
  }

  lemma {:induction false} WithKeyAll<T>(s: seq<T>, key: T -> real, k: real)
    requires forall i :: 0 <= i < |s| ==> key(s[i]) == k
    ensures WithKey(s, key, k) == s
  {
    if s != [] {
      WithKeyAll(s[1..], key, k);
    }
  }

  lemma {:induction false} WithKeyNone<T>(s: seq<T>, key: T -> real, k: real)
    requires forall i :: 0 <= i < |s| ==> key(s[i]) != k
    ensures WithKey(s, key, k) == []
  {
    if s != [] {
      WithKeyNone(s[1..], key, k);
    }
  }

  /**
   * An ordered sequence whose keys take only the values `a > b` is its
   * `a`-elements followed by its `b`-elements.
   */
  lemma {:induction false} SplitTwoKeys<T>(s: seq<T>, key: T -> real, a: real, b: real)
    requires a > b && NonIncreasing(s, key)
    requires TwoKeyed(s, key, a, b)
    ensures s == WithKey(s, key, a) + WithKey(s, key, b)
    decreases |s|, 1
  {
    if s != [] {
      if key(s[0]) == a {
        HighRun(s, key, a, b);
      } else {
        assert key(s[0]) == b;
        LowRun(s, key, a, b);
      }
    }
  }

  /** The step of `SplitTwoKeys` for a sequence that starts with an `a`. */
  lemma {:induction false} HighRun<T>(s: seq<T>, key: T -> real, a: real, b: real)
    requires a > b && NonIncreasing(s, key) && TwoKeyed(s, key, a, b)
    requires s != [] && key(s[0]) == a
    ensures s == WithKey(s, key, a) + WithKey(s, key, b)
    decreases |s|, 0
  {
    var t := s[1..];
    TailTwoKeyed(s, key, a, b);
    SplitTwoKeys(t, key, a, b);
    var high, low := WithKey(t, key, a), WithKey(t, key, b);
    WithKeyCons(s[0], t, key, a);
    WithKeyCons(s[0], t, key, b);
    assert s == [s[0]] + t;
    ConcatAssoc([s[0]], high, low);
  }

  /** The tail of an ordered sequence with keys `a` and `b` is one too. */
  lemma TailTwoKeyed<T>(s: seq<T>, key: T -> real, a: real, b: real)
    requires s != [] && NonIncreasing(s, key)
    requires TwoKeyed(s, key, a, b)
    ensures NonIncreasing(s[1..], key)
    ensures TwoKeyed(s[1..], key, a, b)
  {
    var t := s[1..];
    assert forall i :: 0 <= i < |t| ==> t[i] == s[i + 1];
  }

  /** An ordered sequence of keys `a > b` that starts with `b` holds only `b`s. */
  lemma LowRun<T>(s: seq<T>, key: T -> real, a: real, b: real)
    requires a > b && NonIncreasing(s, key) && s != [] && key(s[0]) == b
    requires TwoKeyed(s, key, a, b)
    ensures WithKey(s, key, a) == [] && WithKey(s, key, b) == s
  {
    WithKeyAll(s, key, b);
    WithKeyNone(s, key, a);
  }

  lemma ConcatAssoc<T>(x: seq<T>, y: seq<T>, z: seq<T>)
    ensures x + (y + z) == (x + y) + z
  {
  }

  /** Every key of `s` is `a` or `b`. */
  predicate TwoKeyed<T>(s: seq<T>, key: T -> real, a: real, b: real)
  {
    forall i :: 0 <= i < |s| ==> key(s[i]) == a || key(s[i]) == b
  }

  /** All keys of `s` are `k`. */
  predicate AllKeyed<T>(s: seq<T>, key: T -> real, k: real)
  {
    forall i :: 0 <= i < |s| ==> key(s[i]) == k
  }

  lemma RunsWithKey<T>(a: seq<T>, b: seq<T>, c: seq<T>, d: seq<T>, key: T -> real, hi: real, lo: real)
    requires hi != lo
    requires AllKeyed(a, key, hi) && AllKeyed(b, key, lo) && AllKeyed(c, key, lo) && AllKeyed(d, key, hi)
    ensures WithKey(a + b + c + d, key, hi) == a + d
  {
    WithKeyAll(a, key, hi);
    WithKeyNone(b, key, hi);
    WithKeyNone(c, key, hi);
    WithKeyAll(d, key, hi);
    WithKeyConcat(a, b, key, hi);
    assert WithKey(a + b, key, hi) == a;
    WithKeyConcat(a + b, c, key, hi);
    assert WithKey(a + b + c, key, hi) == a;
    WithKeyConcat(a + b + c, d, key, hi);
  }

  lemma RunsWithOtherKey<T>(a: seq<T>, b: seq<T>, c: seq<T>, d: seq<T>, key: T -> real, hi: real, lo: real)
    requires hi != lo
    requires AllKeyed(a, key, hi) && AllKeyed(b, key, lo) && AllKeyed(c, key, lo) && AllKeyed(d, key, hi)
    ensures WithKey(a + b + c + d, key, lo) == b + c
  {
    WithKeyNone(a, key, lo);
    WithKeyAll(b, key, lo);
    WithKeyAll(c, key, lo);
    WithKeyNone(d, key, lo);
    WithKeyConcat(a, b, key, lo);
    assert WithKey(a + b, key, lo) == b;
    WithKeyConcat(a + b, c, key, lo);
    assert WithKey(a + b + c, key, lo) == b + c;
    WithKeyConcat(a + b + c, d, key, lo);
  }

  /**
   * Sorting four runs, where the first and last have key `hi` and the middle
   * two key `lo < hi`, moves the last run up behind the first and keeps the
   * order inside every run.
   */
  lemma SortTwoKeyRuns<T>(a: seq<T>, b: seq<T>, c: seq<T>, d: seq<T>, key: T -> real, hi: real, lo: real)
    requires hi > lo
    requires AllKeyed(a, key, hi) && AllKeyed(b, key, lo) && AllKeyed(c, key, lo) && AllKeyed(d, key, hi)
    ensures SortDesc(a + b + c + d, key) == a + d + b + c
  {
    var s := a + b + c + d;
    RunsWithKey(a, b, c, d, key, hi, lo);
    RunsWithOtherKey(a, b, c, d, key, hi, lo);
    var sorted := SortDesc(s, key);
    SortDescOrders(s, key);
    SortDescStable(s, key, hi);
    SortDescStable(s, key, lo);
    RunsTwoKeyed(a, b, c, d, key, hi, lo);
    SortKeepsTwoKeys(s, key, hi, lo);
    SplitTwoKeys(sorted, key, hi, lo);
  }

  /** When every key is `hi` or `lo`, so is every key of the sorted sequence. */
  lemma SortKeepsTwoKeys<T>(s: seq<T>, key: T -> real, hi: real, lo: real)
    requires TwoKeyed(s, key, hi, lo)
    ensures TwoKeyed(SortDesc(s, key), key, hi, lo)
  {
    var sorted := SortDesc(s, key);
    SortDescMembers(s, key);
    forall i | 0 <= i < |sorted| ensures key(sorted[i]) == hi || key(sorted[i]) == lo {
      var j :| 0 <= j < |s| && s[j] == sorted[i];
    }
  }

  /** Every key of the four runs is `hi` or `lo`. */
  lemma RunsTwoKeyed<T>(a: seq<T>, b: seq<T>, c: seq<T>, d: seq<T>, key: T -> real, hi: real, lo: real)
    requires AllKeyed(a, key, hi) && AllKeyed(b, key, lo) && AllKeyed(c, key, lo) && AllKeyed(d, key, hi)
    ensures TwoKeyed(a + b + c + d, key, hi, lo)
  {
    var s := a + b + c + d;
    forall i | 0 <= i < |s| ensures key(s[i]) == hi || key(s[i]) == lo {
      if i < |a| {
        assert s[i] == a[i];
      } else if i < |a| + |b| {
        assert s[i] == b[i - |a|];
      } else if i < |a| + |b| + |c| {
        assert s[i] == c[i - |a| - |b|];
      } else {
        assert s[i] == d[i - |a| - |b| - |c|];
      }
    }
  }

  lemma {:induction false} FilterNone<T>(p: T -> bool, s: seq<T>)
    requires forall i :: 0 <= i < |s| ==> !p(s[i])
    ensures Filter(p, s) == []
  {
    if s != [] {
      FilterNone(p, s[1..]);
    }
  }

  /** An input already ordered by key is left exactly as it is. */
  lemma {:induction false} SortDescOfOrdered<T>(s: seq<T>, key: T -> real)
    requires NonIncreasing(s, key)
    ensures SortDesc(s, key) == s
  {
    if s != [] {
      assert NonIncreasing(s[1..], key);
      SortDescOfOrdered(s[1..], key);
      if |s| > 1 {
        assert key(s[0]) >= key(s[1]);
      }
    }
  }
}
