/** Sequence helpers with JavaScript's array meaning: `filter`, `reduce` into a sum,
    the stable `sort`, `slice(0, n)` and `[...new Set(xs)]`. */
module Seqs {

  /** `s.filter(p)`: the elements satisfying p, in their original order. */
  function Filter<T>(p: T -> bool, s: seq<T>): (r: seq<T>)
    ensures |r| <= |s|
    ensures forall i :: 0 <= i < |r| ==> p(r[i])
    ensures forall i :: 0 <= i < |r| ==> r[i] in s
    ensures forall i :: 0 <= i < |s| && p(s[i]) ==> s[i] in r
    ensures multiset(r) <= multiset(s)
    decreases |s|
  {
    if s == [] then []
    else
      assert s == [s[0]] + s[1..];
      if p(s[0]) then [s[0]] + Filter(p, s[1..]) else Filter(p, s[1..])
  }

  /** r is s with some elements left out: an order-preserving sub-list. */
  predicate SubseqOf<T(==)>(r: seq<T>, s: seq<T>)
    decreases |s|
  {
    if r == [] then true
    else if s == [] then false
    else (r[0] == s[0] && SubseqOf(r[1..], s[1..])) || SubseqOf(r, s[1..])
  }

  /** A filter keeps the selected elements in their original order. */
  lemma {:induction false} FilterSubseq<T>(p: T -> bool, s: seq<T>)
    ensures SubseqOf(Filter(p, s), s)
    decreases |s|
  {
    if s != [] {
      FilterSubseq(p, s[1..]);
    }
  }

  /** Every list is a sub-list of itself. */
  lemma {:induction false} SubseqRefl<T>(s: seq<T>)
    ensures SubseqOf(s, s)
    decreases |s|
  {
    if s != [] {
      SubseqRefl(s[1..]);
    }
  }

  /** The number of elements satisfying p. */
  function Count<T>(p: T -> bool, s: seq<T>): nat {
    |Filter(p, s)|
  }

  lemma {:induction false} FilterAppend<T>(p: T -> bool, a: seq<T>, b: seq<T>)
    ensures Filter(p, a + b) == Filter(p, a) + Filter(p, b)
    decreases |a|
  {
    if a == [] {
      assert a + b == b;
    } else {
      assert (a + b)[1..] == a[1..] + b;
      FilterAppend(p, a[1..], b);
    }
  }

  /** Filtering keeps every occurrence of a selected element and none of the others. */
  lemma {:induction false} FilterMultiset<T>(p: T -> bool, s: seq<T>, x: T)
    ensures multiset(Filter(p, s))[x] == if p(x) then multiset(s)[x] else 0
    decreases |s|
  {
    if s != [] {
      FilterMultiset(p, s[1..], x);
      assert s == [s[0]] + s[1..];
    }
  }

  /** A filter that selects everything is the identity. */
  lemma {:induction false} FilterAll<T>(p: T -> bool, s: seq<T>)
    requires forall i :: 0 <= i < |s| ==> p(s[i])
    ensures Filter(p, s) == s
    decreases |s|
  {
    if s != [] {
      FilterAll(p, s[1..]);
    }
  }

  /** Filters by predicates that agree everywhere select the same elements. */
  lemma {:induction false} FilterExt<T>(p: T -> bool, q: T -> bool, s: seq<T>)
    requires forall x :: p(x) == q(x)
    ensures Filter(p, s) == Filter(q, s)
    decreases |s|
  {
    if s != [] {
      FilterExt(p, q, s[1..]);
    }
  }

  /** Two successive filters are one filter by the conjunction. */
  lemma {:induction false} FilterCompose<T>(p: T -> bool, q: T -> bool, pq: T -> bool, s: seq<T>)
    requires forall x :: pq(x) == (p(x) && q(x))
    ensures Filter(q, Filter(p, s)) == Filter(pq, s)
    decreases |s|
  {
    if s != [] {
      FilterCompose(p, q, pq, s[1..]);
    }
  }

  /** Counting over one more element. */
  lemma CountSnoc<T>(p: T -> bool, s: seq<T>, x: T)
    ensures Count(p, s + [x]) == Count(p, s) + if p(x) then 1 else 0
  {
    FilterAppend(p, s, [x]);
    assert Filter(p, [x]) == if p(x) then [x] else [];
  }

  /** Disjoint selections together count no more than the whole. */
  lemma {:induction false} CountDisjoint<T>(p: T -> bool, q: T -> bool, s: seq<T>)
    requires forall x :: !(p(x) && q(x))
    ensures Count(p, s) + Count(q, s) <= |s|
    decreases |s|
  {
    if s != [] {
      CountDisjoint(p, q, s[1..]);
    }
  }

  /** A selection and its complement together count exactly the whole. */
  lemma {:induction false} CountComplement<T>(p: T -> bool, q: T -> bool, s: seq<T>)
    requires forall x :: q(x) == !p(x)
    ensures Count(p, s) + Count(q, s) == |s|
    decreases |s|
  {
    if s != [] {
      CountComplement(p, q, s[1..]);
    }
  }

  /** Two selections counted separately count their union once and their
      overlap twice. */
  lemma {:induction false} CountUnion<T>(p: T -> bool, q: T -> bool, pOrQ: T -> bool, pAndQ: T -> bool, s: seq<T>)
    requires forall x :: pOrQ(x) == (p(x) || q(x)) && pAndQ(x) == (p(x) && q(x))
    ensures Count(p, s) + Count(q, s) == Count(pOrQ, s) + Count(pAndQ, s)
    decreases |s|
  {
    if s != [] {
      CountUnion(p, q, pOrQ, pAndQ, s[1..]);
    }
  }

  /** A weaker selection counts at least as many. */
  lemma {:induction false} CountMonotone<T>(p: T -> bool, q: T -> bool, s: seq<T>)
    requires forall x :: p(x) ==> q(x)
    ensures Count(p, s) <= Count(q, s)
    decreases |s|
  {
    if s != [] {
      CountMonotone(p, q, s[1..]);
    }
  }

  /** `s.reduce((acc, x) => acc + f(x), 0)` */
  function Sum<T>(f: T -> int, s: seq<T>): int
    decreases |s|
  {
    if s == [] then 0 else f(s[0]) + Sum(f, s[1..])
  }

  lemma {:induction false} SumAppend<T>(f: T -> int, a: seq<T>, b: seq<T>)
    ensures Sum(f, a + b) == Sum(f, a) + Sum(f, b)
    decreases |a|
  {
    if a == [] {
      assert a + b == b;
    } else {
      assert (a + b)[1..] == a[1..] + b;
      SumAppend(f, a[1..], b);
    }
  }

  /** Replacing one element changes the sum by the difference of the two. */
  lemma {:induction false} SumUpdate<T>(f: T -> int, s: seq<T>, i: nat, x: T)
    requires i < |s|
    ensures Sum(f, s[i := x]) == Sum(f, s) - f(s[i]) + f(x)
    decreases |s|
  {
    if i > 0 {
      assert s[i := x][1..] == s[1..][i - 1 := x];
      SumUpdate(f, s[1..], i - 1, x);
    }
  }

  /** Removing one element (`splice(i, 1)`) subtracts it from the sum. */
  lemma SumRemove<T>(f: T -> int, s: seq<T>, i: nat)
    requires i < |s|
    ensures Sum(f, s[..i] + s[i + 1..]) == Sum(f, s) - f(s[i])
  {
    var a, m, b := s[..i], [s[i]], s[i + 1..];
    calc {
      Sum(f, s);
      { assert s == (a + m) + b; SumAppend(f, a + m, b); }
      Sum(f, a + m) + Sum(f, b);
      { SumAppend(f, a, m); assert m[1..] == []; }
      Sum(f, a) + f(s[i]) + Sum(f, b);
      { SumAppend(f, a, b); }
      Sum(f, a + b) + f(s[i]);
    }
  }

  /** A selection and its complement split a sum in two. */
  lemma {:induction false} SumSplit<T>(f: T -> int, p: T -> bool, q: T -> bool, s: seq<T>)
    requires forall x :: q(x) == !p(x)
    ensures Sum(f, s) == Sum(f, Filter(p, s)) + Sum(f, Filter(q, s))
    decreases |s|
  {
    if s != [] {
      SumSplit(f, p, q, s[1..]);
    }
  }

  /** Neighbouring elements are in the order given by `le` (`cmp(a, b) <= 0`). */
  predicate SortedBy<T>(le: (T, T) -> bool, s: seq<T>) {
    forall i :: 0 < i < |s| ==> le(s[i - 1], s[i])
  }

  /** Any two values are comparable one way or the other. */
  ghost predicate Connected<T(!new)>(le: (T, T) -> bool) {
    forall x, y :: le(x, y) || le(y, x)
  }

  /** Inserts x before the first element it may precede. */
  function Insert<T>(le: (T, T) -> bool, x: T, s: seq<T>): (r: seq<T>)
    ensures multiset(r) == multiset(s) + multiset{x}
    decreases |s|
  {
    if s == [] then [x]
    else if le(x, s[0]) then [x] + s
    else
      assert s == [s[0]] + s[1..];
      [s[0]] + Insert(le, x, s[1..])
  }

  /** The stable sort `Array.prototype.sort` performs, as an insertion sort: an earlier
      element is placed before every later element it may precede. */
  function Sort<T>(le: (T, T) -> bool, s: seq<T>): (r: seq<T>)
    ensures multiset(r) == multiset(s)
    ensures |r| == |s|
    decreases |s|
  {
    if s == [] then []
    else
      assert s == [s[0]] + s[1..];
      Insert(le, s[0], Sort(le, s[1..]))
  }

  lemma {:induction false} InsertSorted<T(!new)>(le: (T, T) -> bool, x: T, s: seq<T>)
    requires Connected(le) && SortedBy(le, s)
    ensures SortedBy(le, Insert(le, x, s))
    ensures Insert(le, x, s) != [] && (Insert(le, x, s)[0] == x || (s != [] && Insert(le, x, s)[0] == s[0]))
    decreases |s|
  {
    if s != [] && !le(x, s[0]) {
      InsertSorted(le, x, s[1..]);
      assert le(s[0], x);
    }
  }

  /** Under a comparator that orders any two values, the result is sorted. */
  lemma {:induction false} SortSorted<T(!new)>(le: (T, T) -> bool, s: seq<T>)
    requires Connected(le)
    ensures SortedBy(le, Sort(le, s))
    decreases |s|
  {
    if s != [] {
      SortSorted(le, s[1..]);
      InsertSorted(le, s[0], Sort(le, s[1..]));
    }
  }

  /** Filtering and then sorting yields, in order, exactly the selected elements,
      each as often as in the input. */
  lemma SortedSelection<T(!new)>(le: (T, T) -> bool, p: T -> bool, s: seq<T>)
    requires Connected(le)
    ensures SortedBy(le, Sort(le, Filter(p, s)))
    ensures multiset(Sort(le, Filter(p, s))) == multiset(Filter(p, s))
    ensures forall x :: x in Sort(le, Filter(p, s)) <==> x in s && p(x)
  {
    SortSorted(le, Filter(p, s));
    forall x ensures x in Sort(le, Filter(p, s)) <==> x in s && p(x) {
      FilterMultiset(p, s, x);
      assert x in Sort(le, Filter(p, s)) <==> x in multiset(Sort(le, Filter(p, s)));
    }
  }

  /** A comparator that always returns 0 leaves the order unchanged. */
  lemma {:induction false} SortTrivial<T>(le: (T, T) -> bool, s: seq<T>)
    requires forall i, j :: 0 <= i < |s| && 0 <= j < |s| ==> le(s[i], s[j])
    ensures Sort(le, s) == s
    decreases |s|
  {
    if s != [] {
      SortTrivial(le, s[1..]);
      assert Sort(le, s[1..]) == s[1..];
    }
  }

  /** `s.slice(0, n)` */
  function Take<T>(s: seq<T>, n: nat): (r: seq<T>)
    ensures |r| == if n < |s| then n else |s|
    ensures r == s[..|r|]
  {
    if n < |s| then s[..n] else s
  }

  /** `[...new Set(s)]`: the distinct values, each at its first occurrence. */
  function Dedup<T(==)>(s: seq<T>): (r: seq<T>)
    ensures forall i :: 0 <= i < |r| ==> r[i] in s
    ensures forall i :: 0 <= i < |s| ==> s[i] in r
    ensures forall i, j :: 0 <= i < j < |r| ==> r[i] != r[j]
    decreases |s|
  {
    if s == [] then []
    else
      var r := Dedup(s[..|s| - 1]);
      assert s == s[..|s| - 1] + [s[|s| - 1]];
      if s[|s| - 1] in r then r else r + [s[|s| - 1]]
  }

  /** Some element of a non-empty set: the next entry an iteration over a
      repository visits, in an order the model leaves open. */
  method Pick<T>(s: set<T>) returns (x: T)
    requires s != {}
    ensures x in s
  {
    x :| x in s;
  }

  /** A subset is no larger than its superset. */
  lemma CardinalityMonotone<T>(a: set<T>, b: set<T>)
    requires a <= b
    ensures |a| <= |b|
  {
    assert b == a + (b - a);
  }
}
