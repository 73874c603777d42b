/** The JavaScript array operations the planner's pages are built from:
    `filter`, `reduce` into a sum, `map` that replaces matching records,
    and `[...new Set(xs)]`. Each is defined once here, by recursion, and
    characterised by its contract; the page modules instantiate them. */
module Lists {

  datatype Option<T> = None | Some(value: T)

  /** `r` can be obtained from `s` by deleting elements (order kept). */
  ghost predicate IsSubsequence<T>(r: seq<T>, s: seq<T>) {
    if r == [] then true
    else if s == [] then false
    else if r[0] == s[0] then IsSubsequence(r[1..], s[1..])
    else IsSubsequence(r, s[1..])
  }

  ghost predicate NoDuplicates<T>(s: seq<T>) {
    forall i, j :: 0 <= i < j < |s| ==> s[i] != s[j]
  }

  /** `Array.prototype.filter`: the elements that satisfy `keep`. Its
      order and multiplicities are stated by `FilterCounts` and
      `FilterIsSubsequence`. */
  function Filter<T(!new)>(s: seq<T>, keep: T -> bool): (r: seq<T>)
    ensures |r| <= |s|
    ensures forall x :: x in r <==> x in s && keep(x)
  {
    if s == [] then []
    else
      var rest := Filter(s[1..], keep);
      if keep(s[0]) then [s[0]] + rest else rest
  }

  /** A filter select's value as its "all" entry was evidently meant to
      work: "all" counts as no restriction, like the empty value. */
  function Unrestricted(field: string): (r: string)
    ensures r == "" <==> field == "" || field == "all"
    ensures field != "all" ==> r == field
  {
    if field == "all" then "" else field
  }

  /** Every element that passes keeps its multiplicity; the others vanish. */
  lemma {:induction false} FilterCounts<T(!new)>(s: seq<T>, keep: T -> bool)
    ensures forall x :: multiset(Filter(s, keep))[x] == if keep(x) then multiset(s)[x] else 0
  {
    if s != [] {
      FilterCounts(s[1..], keep);
      assert s == [s[0]] + s[1..];
    }
  }

  /** The filtered elements appear in `s` in the same order. */
  lemma {:induction false} FilterIsSubsequence<T(!new)>(s: seq<T>, keep: T -> bool)
    ensures IsSubsequence(Filter(s, keep), s)
  {
    if s != [] {
      FilterIsSubsequence(s[1..], keep);
      if !keep(s[0]) {
        SubsequenceOfTail(Filter(s[1..], keep), s[1..], s[0]);
        assert [s[0]] + s[1..] == s;
      }
    }
  }

  /** A filter whose predicate holds of every element returns its input. */
  lemma {:induction false} FilterKeepsAll<T(!new)>(s: seq<T>, keep: T -> bool)
    requires forall x :: x in s ==> keep(x)
    ensures Filter(s, keep) == s
  {
    if s != [] {
      FilterKeepsAll(s[1..], keep);
    }
  }

  /** A filter whose predicate holds of no element returns nothing. */
  lemma FilterKeepsNone<T(!new)>(s: seq<T>, keep: T -> bool)
    requires forall x :: x in s ==> !keep(x)
    ensures Filter(s, keep) == []
  {
  }

  /** Filtering a concatenation filters each part. */
  lemma {:induction false} FilterConcat<T(!new)>(a: seq<T>, b: seq<T>, keep: T -> bool)
    ensures Filter(a + b, keep) == Filter(a, keep) + Filter(b, keep)
  {
    if a == [] {
      assert a + b == b;
    } else {
      assert (a + b)[0] == a[0] && (a + b)[1..] == a[1..] + b;
      FilterConcat(a[1..], b, keep);
    }
  }

  /** Filters whose predicates agree on the elements of `s` agree. */
  lemma {:induction false} FilterCongruent<T(!new)>(s: seq<T>, p: T -> bool, q: T -> bool)
    requires forall x :: x in s ==> p(x) == q(x)
    ensures Filter(s, p) == Filter(s, q)
  {
    if s != [] {
      FilterCongruent(s[1..], p, q);
    }
  }

  /** Filtering twice is filtering once by the conjunction `both`. */
  lemma {:induction false} FilterFilter<T(!new)>(s: seq<T>, p: T -> bool, q: T -> bool, both: T -> bool)
    requires forall x :: both(x) == (p(x) && q(x))
    ensures Filter(Filter(s, p), q) == Filter(s, both)
  {
    if s != [] {
      FilterFilter(s[1..], p, q, both);
      if p(s[0]) {
        var rest := Filter(s[1..], p);
        assert ([s[0]] + rest)[0] == s[0] && ([s[0]] + rest)[1..] == rest;
      }
    }
  }

  /** A weaker predicate keeps a super-sequence: every element the
      stronger one keeps, in the same order. */
  lemma {:induction false} FilterWeaker<T(!new)>(s: seq<T>, strong: T -> bool, weak: T -> bool)
    requires forall x :: strong(x) ==> weak(x)
    ensures IsSubsequence(Filter(s, strong), Filter(s, weak))
  {
    if s != [] {
      FilterWeaker(s[1..], strong, weak);
      var rs, rw := Filter(s[1..], strong), Filter(s[1..], weak);
      if strong(s[0]) {
        assert Filter(s, strong) == [s[0]] + rs;
        assert Filter(s, weak) == [s[0]] + rw;
      } else if weak(s[0]) {
        SubsequenceOfTail(rs, rw, s[0]);
      }
    }
  }

  lemma {:induction false} SubsequenceOfTail<T>(r: seq<T>, s: seq<T>, x: T)
    requires IsSubsequence(r, s)
    ensures IsSubsequence(r, [x] + s)
    decreases |s|, 1
  {
    if r != [] && r[0] == x {
      assert ([x] + s)[1..] == s;
      SubsequenceDropFirst(r, s);
    }
  }

  lemma {:induction false} SubsequenceDropFirst<T>(r: seq<T>, s: seq<T>)
    requires r != [] && IsSubsequence(r, s)
    ensures IsSubsequence(r[1..], s)
    decreases |s|, 0
  {
    if s != [] && r[0] != s[0] {
      SubsequenceDropFirst(r, s[1..]);
      SubsequenceOfTail(r[1..], s[1..], s[0]);
      assert [s[0]] + s[1..] == s;
    } else if s != [] {
      SubsequenceOfTail(r[1..], s[1..], s[0]);
      assert [s[0]] + s[1..] == s;
    }
  }

  /** `reduce((sum, x) => sum + f(x), 0)`: integer addition, so the order
      of the fold does not matter. */
  function Sum<T>(s: seq<T>, f: T -> int): (total: int)
    ensures (forall x :: x in s ==> f(x) >= 0) ==> total >= 0
    ensures (forall x :: x in s ==> f(x) == 0) ==> total == 0
  {
    if s == [] then 0 else f(s[0]) + Sum(s[1..], f)
  }

  lemma {:induction false} SumConcat<T>(a: seq<T>, b: seq<T>, f: T -> int)
    ensures Sum(a + b, f) == Sum(a, f) + Sum(b, f)
  {
    if a != [] {
      assert (a + b)[0] == a[0] && (a + b)[1..] == a[1..] + b;
      SumConcat(a[1..], b, f);
    } else {
      assert a + b == b;
    }
  }

  /** Appending one element adds its value to the sum. */
  lemma SumAppend<T>(s: seq<T>, x: T, f: T -> int)
    ensures Sum(s + [x], f) == Sum(s, f) + f(x)
  {
    SumConcat(s, [x], f);
  }

  /** With non-negative values, each element's value is at most the sum. */
  lemma {:induction false} SumAtLeastEach<T>(s: seq<T>, f: T -> int)
    ensures (forall x :: x in s ==> f(x) >= 0) ==> forall x :: x in s ==> f(x) <= Sum(s, f)
  {
    if s != [] && forall x :: x in s ==> f(x) >= 0 {
      SumAtLeastEach(s[1..], f);
      assert forall x :: x in s ==> x == s[0] || x in s[1..];
    }
  }

  /** With non-negative values, the sum over a filtered sequence is at
      most the sum over the whole. */
  lemma {:induction false} FilterSumAtMost<T(!new)>(s: seq<T>, keep: T -> bool, f: T -> int)
    ensures (forall x :: x in s ==> f(x) >= 0) ==> 0 <= Sum(Filter(s, keep), f) <= Sum(s, f)
  {
    if s != [] && forall x :: x in s ==> f(x) >= 0 {
      FilterSumAtMost(s[1..], keep, f);
    }
  }

  /** Splitting a sum by a predicate: the part that passes plus the part
      that fails (`drop` is the negation of `keep`) is the whole. */
  lemma {:induction false} SumSplit<T(!new)>(s: seq<T>, keep: T -> bool, drop: T -> bool, f: T -> int)
    requires forall x :: drop(x) == !keep(x)
    ensures Sum(Filter(s, keep), f) + Sum(Filter(s, drop), f) == Sum(s, f)
  {
    if s != [] {
      SumSplit(s[1..], keep, drop, f);
    }
  }

  /** `map(f)`. */
  function Map<T, U>(s: seq<T>, f: T -> U): (r: seq<U>)
    ensures |r| == |s|
    ensures forall i :: 0 <= i < |s| ==> r[i] == f(s[i])
  {
    if s == [] then [] else [f(s[0])] + Map(s[1..], f)
  }

  /** `map(e => hit(e) ? x : e)`: every element for which `hit` holds is
      replaced by `x`; the others, the length and the order are kept. */
  function ReplaceWhere<T>(s: seq<T>, hit: T -> bool, x: T): (r: seq<T>)
    ensures |r| == |s|
    ensures forall i :: 0 <= i < |s| ==> r[i] == if hit(s[i]) then x else s[i]
    ensures (forall y :: y in s ==> !hit(y)) ==> r == s
  {
    if s == [] then []
    else [if hit(s[0]) then x else s[0]] + ReplaceWhere(s[1..], hit, x)
  }

  /** `map(e => hit(e) ? change(e) : e)`: every element for which `hit`
      holds is transformed by `change`; the others are kept. */
  function MapWhere<T>(s: seq<T>, hit: T -> bool, change: T -> T): (r: seq<T>)
    ensures |r| == |s|
    ensures forall i :: 0 <= i < |s| ==> r[i] == if hit(s[i]) then change(s[i]) else s[i]
  {
    if s == [] then []
    else [if hit(s[0]) then change(s[0]) else s[0]] + MapWhere(s[1..], hit, change)
  }

  /** Position of the first occurrence of `x` in `s`. */
  function IndexOf<T(==)>(s: seq<T>, x: T): (i: nat)
    requires x in s
    ensures i < |s| && s[i] == x
    ensures forall j :: 0 <= j < i ==> s[j] != x
  {
    if s[0] == x then 0 else 1 + IndexOf(s[1..], x)
  }

  /** `[...new Set(s)]`: the distinct elements of `s` in order of first
      occurrence. */
  function Distinct<T(==,!new)>(s: seq<T>): (r: seq<T>)
    ensures NoDuplicates(r)
    ensures forall x :: x in r <==> x in s
    ensures forall i, j :: 0 <= i < j < |r| ==> IndexOf(s, r[i]) < IndexOf(s, r[j])
  {
    if s == [] then []
    else
      var init := s[..|s| - 1];
      var last := s[|s| - 1];
      var d := Distinct(init);
      assert s == init + [last];
      assert forall x :: x in init ==> IndexOf(s, x) == IndexOf(init, x) by {
        forall x | x in init ensures IndexOf(s, x) == IndexOf(init, x) {
          IndexOfPrefix(init, [last], x);
        }
      }
      if last in d then d
      else
        assert IndexOf(s, last) == |s| - 1;
        d + [last]
  }

  lemma {:induction false} IndexOfPrefix<T>(a: seq<T>, b: seq<T>, x: T)
    requires x in a
    ensures IndexOf(a + b, x) == IndexOf(a, x)
  {
    if a[0] != x {
      assert (a + b)[1..] == a[1..] + b;
      IndexOfPrefix(a[1..], b, x);
    }
  }
}
