/**
  Generic list operations shared by every page: `Array.prototype.filter`
  (the derived views), the order-preserving subsequence relation that those
  views satisfy, and `reduce` with `+` over a list of numbers.
 */
module Lists {

  /** `sub` can be obtained from `s` by deleting elements, keeping the order. */
  ghost predicate Subsequence<T>(sub: seq<T>, s: seq<T>)
    decreases |s|
  {
    if sub == [] then true
    else if s == [] then false
    else if sub[0] == s[0] then Subsequence(sub[1..], s[1..])
    else Subsequence(sub, s[1..])
  }

  /** `s.filter(p)`: the elements of `s` satisfying `p`, in their original order. */
  function Filter<T(!new)>(p: T -> bool, s: seq<T>): (r: seq<T>)
    ensures |r| <= |s|
    ensures forall x :: x in r <==> x in s && p(x)
    ensures Subsequence(r, s)
    decreases |s|
  {
    if s == [] then []
    else if p(s[0]) then [s[0]] + Filter(p, s[1..])
    else Filter(p, s[1..])
  }

  /** `s.reduce((sum, x) => sum + x, 0)`. */
  function Sum(s: seq<int>): (r: int)
    ensures (forall i :: 0 <= i < |s| ==> s[i] >= 0) ==> r >= 0
  {
    if s == [] then 0 else s[0] + Sum(s[1..])
  }

  /** The sum of a concatenation is the sum of the sums. */
  lemma {:induction false} SumAppend(a: seq<int>, b: seq<int>)
    ensures Sum(a + b) == Sum(a) + Sum(b)
    decreases |a|
  {
    if a == [] {
      assert a + b == b;
    } else {
      assert (a + b)[1..] == a[1..] + b;
      SumAppend(a[1..], b);
    }
  }

  lemma SumSingle(s: seq<int>)
    requires |s| == 1
    ensures Sum(s) == s[0]
  {
    assert s[1..] == [];
  }

  lemma SumOfFour(a: int, b: int, c: int, d: int)
    ensures Sum([a, b, c, d]) == a + b + c + d
  {
    assert [d][1..] == [];
    assert Sum([d]) == d;
    assert [c, d][1..] == [d];
    assert Sum([c, d]) == c + d;
    assert [b, c, d][1..] == [c, d];
    assert Sum([b, c, d]) == b + c + d;
    assert [a, b, c, d][1..] == [b, c, d];
  }

  lemma {:induction false} SubsequenceRefl<T>(s: seq<T>)
    ensures Subsequence(s, s)
    decreases |s|
  {
    if s != [] {
      SubsequenceRefl(s[1..]);
    }
  }

  /** A subsequence is also a subsequence of any longer list that starts with extra elements. */
  lemma {:induction false} SubsequenceCons<T>(sub: seq<T>, x: T, s: seq<T>)
    requires Subsequence(sub, s)
    ensures Subsequence(sub, [x] + s)
    decreases |s|, 1
  {
    var xs := [x] + s;
    assert xs[1..] == s;
    if sub != [] && sub[0] == x {
      // sub[0] == xs[0] makes the greedy match consume x; sub[1..] is still a subsequence of s.
      SubsequenceTail(sub, s);
    }
  }

  /** A subsequence is never longer than the list it is taken from. */
  lemma {:induction false} SubsequenceLength<T>(sub: seq<T>, s: seq<T>)
    requires Subsequence(sub, s)
    ensures |sub| <= |s|
    decreases |s|
  {
    if sub != [] {
      if sub[0] == s[0] {
        SubsequenceLength(sub[1..], s[1..]);
      } else {
        SubsequenceLength(sub, s[1..]);
      }
    }
  }

  /** Dropping the first element of a subsequence keeps it a subsequence. */
  lemma {:induction false} SubsequenceTail<T>(sub: seq<T>, s: seq<T>)
    requires sub != []
    requires Subsequence(sub, s)
    ensures Subsequence(sub[1..], s)
    decreases |s|, 0
  {
    if sub[0] == s[0] {
      SubsequenceCons(sub[1..], s[0], s[1..]);
      assert [s[0]] + s[1..] == s;
    } else {
      SubsequenceTail(sub, s[1..]);
      SubsequenceCons(sub[1..], s[0], s[1..]);
      assert [s[0]] + s[1..] == s;
    }
  }

  /** Keeping every element is the identity. */
  lemma {:induction false} FilterKeepsAll<T(!new)>(p: T -> bool, s: seq<T>)
    requires forall x :: x in s ==> p(x)
    ensures Filter(p, s) == s
    decreases |s|
  {
    if s != [] {
      FilterKeepsAll(p, s[1..]);
      assert [s[0]] + s[1..] == s;
    }
  }

  /** Filtering a concatenation filters each part. */
  lemma {:induction false} FilterAppend<T(!new)>(p: T -> bool, a: seq<T>, b: seq<T>)
    ensures Filter(p, a + b) == Filter(p, a) + Filter(p, b)
    decreases |a|
  {
    if a == [] {
      assert a + b == b;
    } else {
      assert (a + b)[1..] == a[1..] + b;
      FilterAppend(p, a[1..], b);
    }
  }

  /** A weaker predicate keeps a superset of the elements, in the same order. */
  lemma {:induction false} FilterMonotone<T(!new)>(p: T -> bool, q: T -> bool, s: seq<T>)
    requires forall x :: p(x) ==> q(x)
    ensures Subsequence(Filter(p, s), Filter(q, s))
    decreases |s|
  {
    if s != [] {
      FilterMonotone(p, q, s[1..]);
      var fp, fq := Filter(p, s[1..]), Filter(q, s[1..]);
      if p(s[0]) {
        assert ([s[0]] + fp)[1..] == fp;
        assert ([s[0]] + fq)[1..] == fq;
      } else if q(s[0]) {
        SubsequenceCons(fp, s[0], fq);
      }
    }
  }

  /** The positions of `s` whose element satisfies `p`. */
  ghost function Positions<T>(p: T -> bool, s: seq<T>): set<int>
  {
    set i | 0 <= i < |s| && p(s[i])
  }

  /** Appending one element adds its position if it passes. */
  lemma PositionsSnoc<T>(p: T -> bool, init: seq<T>, last: T)
    ensures Positions(p, init + [last]) == Positions(p, init) + (if p(last) then {|init|} else {})
  {
    var s := init + [last];
    forall i ensures i in Positions(p, s) <==> i in Positions(p, init) + (if p(last) then {|init|} else {}) {
      if 0 <= i < |init| {
        assert s[i] == init[i];
      }
    }
  }

  /** The filter's length is the number of positions whose element satisfies `p`. */
  lemma {:induction false} FilterCountsPositions<T(!new)>(p: T -> bool, s: seq<T>)
    ensures |Filter(p, s)| == |Positions(p, s)|
    decreases |s|
  {
    if s == [] {
      assert Positions(p, s) == {};
    } else {
      var n := |s| - 1;
      var init, last := s[..n], s[n];
      FilterCountsPositions(p, init);
      assert s == init + [last];
      FilterAppend(p, init, [last]);
      assert [last][1..] == [];
      PositionsSnoc(p, init, last);
      assert n !in Positions(p, init);
    }
  }

  /** If whatever `p` accepts in `a` it also accepts at the same position in
      `b`, then `b` has at least as many accepted elements. */
  lemma {:induction false} FilterCountPointwise<T(!new)>(p: T -> bool, a: seq<T>, b: seq<T>)
    requires |a| == |b|
    requires forall i :: 0 <= i < |a| && p(a[i]) ==> p(b[i])
    ensures |Filter(p, a)| <= |Filter(p, b)|
    decreases |a|
  {
    if a != [] {
      assert forall i :: 0 <= i < |a[1..]| ==> a[1..][i] == a[i + 1] && b[1..][i] == b[i + 1];
      FilterCountPointwise(p, a[1..], b[1..]);
    }
  }

  /** Filtering first by `q` can only lower the number of elements `p` keeps. */
  lemma {:induction false} FilterOfFilterCount<T(!new)>(p: T -> bool, q: T -> bool, s: seq<T>)
    ensures |Filter(p, Filter(q, s))| <= |Filter(p, s)|
    decreases |s|
  {
    if s != [] {
      FilterOfFilterCount(p, q, s[1..]);
      var rest := Filter(q, s[1..]);
      if q(s[0]) {
        assert Filter(q, s) == [s[0]] + rest;
        assert ([s[0]] + rest)[1..] == rest;
      }
    }
  }

  /** A predicate and its negation split the list between them. */
  lemma {:induction false} FilterComplement<T(!new)>(p: T -> bool, q: T -> bool, s: seq<T>)
    requires forall x :: q(x) == !p(x)
    ensures |Filter(p, s)| + |Filter(q, s)| == |s|
    decreases |s|
  {
    if s != [] {
      FilterComplement(p, q, s[1..]);
    }
  }

  /** Two predicates that agree everywhere keep the same elements. */
  lemma {:induction false} FilterExtensional<T(!new)>(p: T -> bool, q: T -> bool, s: seq<T>)
    requires forall x :: p(x) == q(x)
    ensures Filter(p, s) == Filter(q, s)
    decreases |s|
  {
    if s != [] {
      FilterExtensional(p, q, s[1..]);
    }
  }
}
