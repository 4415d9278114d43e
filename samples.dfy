/**
 * Statistics over a sequence of accepted samples: the running sum, the least and
 * greatest sample, the arithmetic mean, and the ascending rearrangement that
 * `[...values].sort((a, b) => a - b)` produces.
 */
module Samples {

  /** `values.reduce((a, b) => a + b, 0)`, folded from the left. */
  function Sum(s: seq<real>): real
  {
    if s == [] then 0.0 else Sum(s[..|s| - 1]) + s[|s| - 1]
  }

  lemma {:induction false} SumAppend(s: seq<real>, x: real)
    ensures Sum(s + [x]) == Sum(s) + x
  {
    assert (s + [x])[..|s|] == s;
  }

  lemma {:induction false} SumConcat(a: seq<real>, b: seq<real>)
    ensures Sum(a + b) == Sum(a) + Sum(b)
  {
    if b == [] {
      assert a + b == a;
    } else {
      var init := b[..|b| - 1];
      assert a + b == (a + init) + [b[|b| - 1]];
      SumAppend(a + init, b[|b| - 1]);
      SumConcat(a, init);
      assert b == init + [b[|b| - 1]];
      SumAppend(init, b[|b| - 1]);
    }
  }

  /** The least sample, as the running `Math.min` leaves it. */
  function Least(s: seq<real>): (m: real)
    requires s != []
    ensures m in s
    ensures forall i :: 0 <= i < |s| ==> m <= s[i]
  {
    if |s| == 1 then s[0]
    else
      var m := Least(s[..|s| - 1]);
      if s[|s| - 1] < m then s[|s| - 1] else m
  }

  /** The greatest sample, as the running `Math.max` leaves it. */
  function Greatest(s: seq<real>): (m: real)
    requires s != []
    ensures m in s
    ensures forall i :: 0 <= i < |s| ==> s[i] <= m
  {
    if |s| == 1 then s[0]
    else
      var m := Greatest(s[..|s| - 1]);
      if m < s[|s| - 1] then s[|s| - 1] else m
  }

  /** `n` copies of `x` added up. */
  function Repeat(n: nat, x: real): (r: real)
    ensures r == (n as real) * x
  {
    if n == 0 then 0.0 else Repeat(n - 1, x) + x
  }

  lemma {:induction false} SumWithin(s: seq<real>, lo: real, hi: real)
    requires forall i :: 0 <= i < |s| ==> lo <= s[i] <= hi
    ensures Repeat(|s|, lo) <= Sum(s) <= Repeat(|s|, hi)
  {
    if s != [] {
      SumWithin(s[..|s| - 1], lo, hi);
    }
  }

  lemma DivideBounds(a: real, b: real, c: real, n: real)
    requires n > 0.0
    requires n * a <= b <= n * c
    ensures a <= b / n <= c
  {
  }

  /** A mean of samples lying within [lo, hi] lies within [lo, hi] too. */
  lemma MeanBetween(s: seq<real>, lo: real, hi: real)
    requires s != []
    requires forall i :: 0 <= i < |s| ==> lo <= s[i] <= hi
    ensures lo <= Sum(s) / (|s| as real) <= hi
  {
    var total, n := Sum(s), |s| as real;
    SumWithin(s, lo, hi);
    DivideBounds(lo, total, hi, n);
  }

  /** The arithmetic mean `sum / count` lies between the least and the greatest sample. */
  function Mean(s: seq<real>): (r: real)
    requires s != []
    ensures Least(s) <= r <= Greatest(s)
  {
    MeanBetween(s, Least(s), Greatest(s));
    Sum(s) / (|s| as real)
  }

  ghost predicate Ascending(s: seq<real>) {
    forall i, j :: 0 <= i < j < |s| ==> s[i] <= s[j]
  }

  function Insert(x: real, s: seq<real>): (r: seq<real>)
    requires Ascending(s)
    ensures Ascending(r)
    ensures multiset(r) == multiset(s) + multiset{x}
    ensures |r| == |s| + 1
  {
    if s == [] then [x]
    else if x <= s[0] then [x] + s
    else
      var rest := Insert(x, s[1..]);
      InsertBehindHead(s, x, rest);
      [s[0]] + rest
  }

  /** Putting a head no greater than x in front of an ascending insertion of x into the tail keeps it ascending. */
  lemma InsertBehindHead(s: seq<real>, x: real, rest: seq<real>)
    requires s != [] && Ascending(s) && s[0] < x
    requires Ascending(rest) && multiset(rest) == multiset(s[1..]) + multiset{x}
    ensures Ascending([s[0]] + rest)
    ensures multiset([s[0]] + rest) == multiset(s) + multiset{x}
  {
    assert s == [s[0]] + s[1..];
    forall k | 0 <= k < |rest|
      ensures s[0] <= rest[k]
    {
      assert rest[k] in multiset(rest);
      if rest[k] != x {
        assert rest[k] in multiset(s[1..]);
        var j :| 0 <= j < |s[1..]| && s[1..][j] == rest[k];
        assert s[j + 1] == rest[k];
      }
    }
  }

  /** The ascending rearrangement of the samples: sorted, and a permutation of them. */
  function SortAscending(s: seq<real>): (r: seq<real>)
    ensures Ascending(r)
    ensures multiset(r) == multiset(s)
    ensures |r| == |s|
  {
    if s == [] then []
    else
      assert s == [s[0]] + s[1..];
      Insert(s[0], SortAscending(s[1..]))
  }

  /** In an ascending permutation of the samples, the first element is the least sample. */
  lemma AscendingFirst(s: seq<real>, t: seq<real>)
    requires s != [] && |t| == |s| && Ascending(t) && multiset(t) == multiset(s)
    ensures t[0] == Least(s)
  {
    assert t[0] in multiset(t);
    assert Least(s) in multiset(s);
    var i :| 0 <= i < |t| && t[i] == Least(s);
    assert t[0] <= t[i];
  }

  /** In an ascending permutation of the samples, the last element is the greatest sample. */
  lemma AscendingLast(s: seq<real>, t: seq<real>)
    requires s != [] && |t| == |s| && Ascending(t) && multiset(t) == multiset(s)
    ensures t[|t| - 1] == Greatest(s)
  {
    assert t[|t| - 1] in multiset(t);
    assert Greatest(s) in multiset(s);
    var j :| 0 <= j < |t| && t[j] == Greatest(s);
    assert t[j] <= t[|t| - 1];
  }

  /** The first and last elements of the ascending rearrangement are the least and greatest sample. */
  lemma SortedEnds(s: seq<real>)
    requires s != []
    ensures SortAscending(s)[0] == Least(s)
    ensures SortAscending(s)[|s| - 1] == Greatest(s)
  {
    var t := SortAscending(s);
    AscendingFirst(s, t);
    AscendingLast(s, t);
  }
}
