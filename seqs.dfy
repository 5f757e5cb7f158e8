/**
 * Sequence operations shared by the catalog pipelines: `Array.prototype.filter`,
 * `Array.prototype.sort` with a comparator (a stable insertion sort), and
 * counting.
 */
module Seqs {
  import opened Js

  /** `s.filter(keep)`. */
  function Filter<T(==)>(s: seq<T>, keep: T -> bool): (r: seq<T>)
    ensures |r| <= |s|
    ensures forall i :: 0 <= i < |r| ==> keep(r[i]) && r[i] in s
    ensures forall i :: 0 <= i < |s| && keep(s[i]) ==> s[i] in r
  {
    if s == [] then []
    else if keep(s[0]) then [s[0]] + Filter(s[1..], keep)
    else Filter(s[1..], keep)
  }

  /** `r` is obtained from `s` by deleting elements, keeping the order of the others. */
  ghost predicate SubseqOf<T>(r: seq<T>, s: seq<T>)
    decreases |s|
  {
    r == [] || (s != [] && ((r[0] == s[0] && SubseqOf(r[1..], s[1..])) || SubseqOf(r, s[1..])))
  }

  lemma {:induction false} FilterIsSubseq<T>(s: seq<T>, keep: T -> bool)
    ensures SubseqOf(Filter(s, keep), s)
    decreases |s|
  {
    if s != [] {
      FilterIsSubseq(s[1..], keep);
      var t := Filter(s[1..], keep);
      if keep(s[0]) {
        assert Filter(s, keep) == [s[0]] + t;
        assert ([s[0]] + t)[1..] == t;
      }
    }
  }

  /** Filtering twice is filtering once by both conditions. */
  lemma {:induction false} FilterTwice<T>(s: seq<T>, f: T -> bool, g: T -> bool, both: T -> bool)
    requires forall x :: both(x) == (f(x) && g(x))
    ensures Filter(Filter(s, f), g) == Filter(s, both)
    decreases |s|
  {
    if s != [] {
      FilterTwice(s[1..], f, g, both);
      if f(s[0]) {
        assert Filter(s, f) == [s[0]] + Filter(s[1..], f);
        assert ([s[0]] + Filter(s[1..], f))[1..] == Filter(s[1..], f);
      }
    }
  }

  lemma {:induction false} FilterAll<T>(s: seq<T>, f: T -> bool)
    requires forall x :: f(x)
    ensures Filter(s, f) == s
    decreases |s|
  {
    if s != [] {
      FilterAll(s[1..], f);
    }
  }

  lemma {:induction false} FilterSame<T>(s: seq<T>, f: T -> bool, g: T -> bool)
    requires forall x :: f(x) == g(x)
    ensures Filter(s, f) == Filter(s, g)
    decreases |s|
  {
    if s != [] {
      FilterSame(s[1..], f, g);
    }
  }

  /** Filtering keeps the elements with their multiplicities. */
  lemma {:induction false} FilterMultiset<T>(s: seq<T>, keep: T -> bool)
    ensures multiset(Filter(s, keep)) <= multiset(s)
    ensures forall x :: keep(x) ==> multiset(Filter(s, keep))[x] == multiset(s)[x]
    decreases |s|
  {
    if s != [] {
      var f := Filter(s[1..], keep);
      FilterMultiset(s[1..], keep);
      assert s == [s[0]] + s[1..];
      assert multiset(s) == multiset{s[0]} + multiset(s[1..]);
      if keep(s[0]) {
        assert Filter(s, keep) == [s[0]] + f;
        assert multiset(Filter(s, keep)) == multiset{s[0]} + multiset(f);
      } else {
        assert Filter(s, keep) == f;
      }
    }
  }

  /** Number of elements with `keep`: `s.filter(keep).length`. */
  function CountWhere<T(==)>(s: seq<T>, keep: T -> bool): (n: nat)
    ensures n == |Filter(s, keep)|
    ensures n <= |s|
  {
    if s == [] then 0 else (if keep(s[0]) then 1 else 0) + CountWhere(s[1..], keep)
  }

  lemma {:induction false} CountWhereAppend<T>(a: seq<T>, b: seq<T>, keep: T -> bool)
    ensures CountWhere(a + b, keep) == CountWhere(a, keep) + CountWhere(b, keep)
    decreases |a|
  {
    if a == [] {
      assert a + b == b;
    } else {
      assert (a + b)[1..] == a[1..] + b;
      CountWhereAppend(a[1..], b, keep);
    }
  }

  /** Positions of `s` whose element has `keep`. */
  ghost function Positions<T>(s: seq<T>, keep: T -> bool): set<int> {
    set i | 0 <= i < |s| && keep(s[i])
  }

  lemma PositionsSnoc<T>(s: seq<T>, keep: T -> bool)
    requires s != []
    ensures Positions(s, keep) == Positions(s[..|s| - 1], keep) + (if keep(s[|s| - 1]) then {|s| - 1} else {})
  {
    var n := |s| - 1;
    forall i ensures i in Positions(s, keep) <==> i in Positions(s[..n], keep) + (if keep(s[n]) then {n} else {}) {
      if 0 <= i < n {
        assert s[..n][i] == s[i];
      }
    }
  }

  /** The count is the number of positions whose element has `keep`. */
  lemma {:induction false} CountWhereIndices<T>(s: seq<T>, keep: T -> bool)
    ensures CountWhere(s, keep) == |Positions(s, keep)|
    decreases |s|
  {
    if s == [] {
      assert Positions(s, keep) == {};
    } else {
      var n := |s| - 1;
      var init := s[..n];
      CountWhereIndices(init, keep);
      assert s == init + [s[n]];
      CountWhereAppend(init, [s[n]], keep);
      assert [s[n]][1..] == [];
      assert CountWhere([s[n]], keep) == if keep(s[n]) then 1 else 0;
      PositionsSnoc(s, keep);
      assert n !in Positions(init, keep);
    }
  }

  /** The first element with `found`: `s.find(found)`. */
  function Find<T>(s: seq<T>, found: T -> bool): (r: Option<T>)
    ensures r.Some? <==> exists i | 0 <= i < |s| :: found(s[i])
    ensures r.Some? ==> exists i | 0 <= i < |s| :: s[i] == r.value && found(s[i]) && forall j | 0 <= j < i :: !found(s[j])
  {
    if s == [] then None
    else if found(s[0]) then Some(s[0])
    else
      var r := Find(s[1..], found);
      assert forall i | 1 <= i < |s| :: s[i] == s[1..][i - 1];
      r
  }

  /** `a` then `b` is in `le`'s order: `le(a, b)` means the comparator does not put `b` first. */
  predicate Sorted<T>(s: seq<T>, le: (T, T) -> bool) {
    forall i :: 0 <= i < |s| - 1 ==> le(s[i], s[i + 1])
  }

  ghost predicate Total<T(!new)>(le: (T, T) -> bool) {
    forall a: T, b: T :: le(a, b) || le(b, a)
  }

  /** Inserts `x` before the first element it may precede. */
  function Insert<T>(x: T, t: seq<T>, le: (T, T) -> bool): (r: seq<T>)
    ensures |r| == |t| + 1
    ensures multiset(r) == multiset(t) + multiset{x}
    ensures r[0] == x || (t != [] && r[0] == t[0])
  {
    if t == [] then [x]
    else if le(x, t[0]) then [x] + t
    else
      var u := Insert(x, t[1..], le);
      assert t == [t[0]] + t[1..];
      [t[0]] + u
  }

  /**
   * `s.sort(cmp)` where `le(a, b)` is `cmp(a, b) <= 0`: an insertion sort in
   * which an element is put before every later element it may precede, so
   * equal elements keep their order.
   */
  function Sort<T>(s: seq<T>, le: (T, T) -> bool): (r: seq<T>)
    ensures |r| == |s|
    ensures multiset(r) == multiset(s)
  {
    if s == [] then []
    else
      var r := Insert(s[0], Sort(s[1..], le), le);
      assert s == [s[0]] + s[1..];
      r
  }

  lemma {:induction false} InsertSorted<T(!new)>(x: T, t: seq<T>, le: (T, T) -> bool)
    requires Total(le) && Sorted(t, le)
    ensures Sorted(Insert(x, t, le), le)
    decreases |t|
  {
    if t != [] && !le(x, t[0]) {
      var u := Insert(x, t[1..], le);
      assert Sorted(t[1..], le) by {
        forall i | 0 <= i < |t| - 2 ensures le(t[1..][i], t[1..][i + 1]) {
          assert t[1..][i] == t[i + 1] && t[1..][i + 1] == t[i + 2];
        }
      }
      InsertSorted(x, t[1..], le);
      assert le(t[0], u[0]) by {
        assert le(x, t[0]) || le(t[0], x);
        if u[0] != x {
          assert u[0] == t[1];
        }
      }
      var r := [t[0]] + u;
      forall i | 0 <= i < |r| - 1 ensures le(r[i], r[i + 1]) {
        if i > 0 {
          assert r[i] == u[i - 1] && r[i + 1] == u[i];
        }
      }
    }
  }

  /** With a total order, the sort's result is ordered. */
  lemma {:induction false} SortSorted<T(!new)>(s: seq<T>, le: (T, T) -> bool)
    requires Total(le)
    ensures Sorted(Sort(s, le), le)
    decreases |s|
  {
    if s != [] {
      SortSorted(s[1..], le);
      InsertSorted(s[0], Sort(s[1..], le), le);
    }
  }

  /** For an order on an integer key, adjacent order gives order between any two positions. */
  lemma {:induction false} SortedByKey<T>(s: seq<T>, key: T -> int, i: int, j: int)
    requires Sorted(s, (a, b) => key(a) <= key(b))
    requires 0 <= i <= j < |s|
    ensures key(s[i]) <= key(s[j])
    decreases j - i
  {
    if i < j {
      SortedByKey(s, key, i + 1, j);
      assert key(s[i]) <= key(s[i + 1]);
    }
  }

  /** Sum of `f` over the elements: `s.reduce((t, x) => t + f(x), 0)`. */
  function SumOf<T>(s: seq<T>, f: T -> int): int {
    if s == [] then 0 else f(s[0]) + SumOf(s[1..], f)
  }

  lemma {:induction false} SumOfAppend<T>(a: seq<T>, b: seq<T>, f: T -> int)
    ensures SumOf(a + b, f) == SumOf(a, f) + SumOf(b, f)
    decreases |a|
  {
    if a != [] {
      assert (a + b)[1..] == a[1..] + b;
      SumOfAppend(a[1..], b, f);
    } else {
      assert a + b == b;
    }
  }

  /** Replacing one element changes the sum by the difference of the two values. */
  lemma {:induction false} SumOfUpdate<T>(s: seq<T>, k: int, x: T, f: T -> int)
    requires 0 <= k < |s|
    ensures SumOf(s[k := x], f) == SumOf(s, f) - f(s[k]) + f(x)
    decreases |s|
  {
    if k > 0 {
      SumOfUpdate(s[1..], k - 1, x, f);
      assert s[k := x][1..] == s[1..][k - 1 := x];
    } else {
      assert s[k := x][1..] == s[1..];
    }
  }

  /** The elements kept and the elements dropped by a filter add up to the whole. */
  lemma {:induction false} SumOfFilterSplit<T>(s: seq<T>, keep: T -> bool, drop: T -> bool, f: T -> int)
    requires forall x :: drop(x) == !keep(x)
    ensures SumOf(Filter(s, keep), f) + SumOf(Filter(s, drop), f) == SumOf(s, f)
    decreases |s|
  {
    if s != [] {
      SumOfFilterSplit(s[1..], keep, drop, f);
      if keep(s[0]) {
        assert Filter(s, keep) == [s[0]] + Filter(s[1..], keep);
      } else {
        assert Filter(s, drop) == [s[0]] + Filter(s[1..], drop);
      }
    }
  }
}
