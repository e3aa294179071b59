/** `Array.prototype.filter` and `Array.prototype.find`, the two list
    operations the screens use to select rows. */
module Lists {
  import opened Wrappers

  /** `a` is `b` with some elements left out, the rest in their order. */
  ghost predicate IsSubsequence<T>(a: seq<T>, b: seq<T>)
    decreases |b|
  {
    a == [] || (b != [] && ((a[0] == b[0] && IsSubsequence(a[1..], b[1..])) || IsSubsequence(a, b[1..])))
  }

  /** The number of elements of `xs` that satisfy `p`. */
  function Count<T>(xs: seq<T>, p: T -> bool): nat {
    if xs == [] then 0 else (if p(xs[0]) then 1 else 0) + Count(xs[1..], p)
  }

  /** `xs.filter(p)`: the elements that satisfy `p`, every one of them, in
      their original order. */
  function Filter<T>(xs: seq<T>, p: T -> bool): (r: seq<T>)
    ensures forall k :: 0 <= k < |r| ==> r[k] in xs && p(r[k])
    ensures forall i :: 0 <= i < |xs| && p(xs[i]) ==> xs[i] in r
    ensures IsSubsequence(r, xs)
    ensures |r| == Count(xs, p)
  {
    if xs == [] then []
    else
      var rest := Filter(xs[1..], p);
      if p(xs[0]) then
        assert ([xs[0]] + rest)[1..] == rest;
        [xs[0]] + rest
      else
        rest
  }

  /** Keeping everything keeps the list as it is. */
  lemma {:induction false} FilterAll<T>(xs: seq<T>, p: T -> bool)
    requires forall i :: 0 <= i < |xs| ==> p(xs[i])
    ensures Filter(xs, p) == xs
  {
    if xs != [] {
      FilterAll(xs[1..], p);
    }
  }

  /** Filtering depends on the predicate only through its values on the list. */
  lemma {:induction false} FilterCongruent<T>(xs: seq<T>, p: T -> bool, q: T -> bool)
    requires forall i :: 0 <= i < |xs| ==> p(xs[i]) == q(xs[i])
    ensures Filter(xs, p) == Filter(xs, q)
  {
    if xs != [] {
      FilterCongruent(xs[1..], p, q);
    }
  }

  /** Position `i` holds the first element of `xs` that satisfies `p`. */
  ghost predicate IsFirstMatch<T>(xs: seq<T>, p: T -> bool, i: int) {
    0 <= i < |xs| && p(xs[i]) && forall j :: 0 <= j < i ==> !p(xs[j])
  }

  /** `xs.find(p)`: the FIRST element that satisfies `p`, or nothing. */
  function Find<T>(xs: seq<T>, p: T -> bool): (r: Option<T>)
    ensures r.None? <==> forall i :: 0 <= i < |xs| ==> !p(xs[i])
    ensures r.Some? ==> exists i :: IsFirstMatch(xs, p, i) && xs[i] == r.value
  {
    if xs == [] then None
    else if p(xs[0]) then
      assert IsFirstMatch(xs, p, 0);
      Some(xs[0])
    else
      var r := Find(xs[1..], p);
      assert r.Some? ==> exists i :: IsFirstMatch(xs, p, i) && xs[i] == r.value by {
        if r.Some? {
          var i :| IsFirstMatch(xs[1..], p, i) && xs[1..][i] == r.value;
          assert forall j :: 0 <= j < i + 1 ==> !p(xs[j]) by {
            forall j | 0 <= j < i + 1 ensures !p(xs[j]) {
              if j > 0 { assert xs[j] == xs[1..][j - 1]; }
            }
          }
          assert IsFirstMatch(xs, p, i + 1);
        }
      }
      assert r.None? ==> forall i :: 0 <= i < |xs| ==> !p(xs[i]) by {
        if r.None? {
          forall i | 0 <= i < |xs| ensures !p(xs[i]) {
            if i > 0 { assert xs[i] == xs[1..][i - 1]; }
          }
        }
      }
      r
  }

  /** A first match is unique: `Find` returns the element at that position. */
  lemma FindAt<T>(xs: seq<T>, p: T -> bool, i: int)
    requires IsFirstMatch(xs, p, i)
    ensures Find(xs, p) == Some(xs[i])
  {
    var r := Find(xs, p);
    var j :| IsFirstMatch(xs, p, j) && xs[j] == r.value;
    assert !(j < i) && !(i < j);
  }
}
