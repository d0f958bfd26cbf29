/** Facts about sequences that several modules need. */
module Sequences {

  lemma Associate<T>(a: seq<T>, b: seq<T>, c: seq<T>)
    ensures a + b + c == a + (b + c)
  {
  }

  ghost predicate Distinct<T>(s: seq<T>) {
    forall i, j :: 0 <= i < j < |s| ==> s[i] != s[j]
  }

  /** The newest `capacity` of the given items. */
  function Newest<T>(items: seq<T>, capacity: nat): seq<T> {
    if |items| <= capacity then items else items[|items| - capacity..]
  }

  /** They are the last ones, `capacity` of them or all there are. */
  lemma NewestAreLast<T>(items: seq<T>, capacity: nat)
    ensures var r := Newest(items, capacity);
            |r| == (if |items| < capacity then |items| else capacity) && items == items[..|items| - |r|] + r
  {
  }

  /** What arrives after the newest items have been picked displaces the oldest of them. */
  lemma NewestAppends<T>(items: seq<T>, x: T, capacity: nat)
    ensures Newest(items + [x], capacity) == Newest(Newest(items, capacity) + [x], capacity)
  {
  }

  /** `a` arises from `b` by leaving elements out. */
  predicate IsSubsequence<T(==)>(a: seq<T>, b: seq<T>) {
    if a == [] then true
    else if b == [] then false
    else (a[|a| - 1] == b[|b| - 1] && IsSubsequence(a[..|a| - 1], b[..|b| - 1])) || IsSubsequence(a, b[..|b| - 1])
  }

  lemma SubsequenceGrows<T>(a: seq<T>, b: seq<T>, x: T)
    requires IsSubsequence(a, b)
    ensures IsSubsequence(a + [x], b + [x]) && IsSubsequence(a, b + [x])
  {
    assert (a + [x])[..|a|] == a && (b + [x])[..|b|] == b;
  }

  /** Only the front of `b` is needed, or its last element as the last of `a`. */
  lemma SubsequenceOfFront<T>(a: seq<T>, b: seq<T>)
    requires b != [] && (IsSubsequence(a, b[..|b| - 1]) || (a != [] && a[|a| - 1] == b[|b| - 1] && IsSubsequence(a[..|a| - 1], b[..|b| - 1])))
    ensures IsSubsequence(a, b)
  {
  }

  lemma {:induction false} SubsequenceShrinks<T>(a: seq<T>, x: T, rest: seq<T>, b: seq<T>)
    requires IsSubsequence(a + [x] + rest, b)
    ensures IsSubsequence(a + rest, b)
    decreases |b|
  {
    var all, bs := a + [x] + rest, b[..|b| - 1];
    if IsSubsequence(all, bs) {
      SubsequenceShrinks(a, x, rest, bs);
    } else if rest == [] {
      assert all[..|all| - 1] == a && a + rest == a;
    } else {
      var front := rest[..|rest| - 1];
      assert all[..|all| - 1] == a + [x] + front;
      SubsequenceShrinks(a, x, front, bs);
      assert (a + rest)[..|a + rest| - 1] == a + front;
    }
    SubsequenceOfFront(a + rest, b);
  }

  lemma {:induction false} SubsequenceDrops<T>(a: seq<T>, x: seq<T>, rest: seq<T>, b: seq<T>)
    requires IsSubsequence(a + x + rest, b)
    ensures IsSubsequence(a + rest, b)
    decreases |x|
  {
    if x == [] {
      assert a + x + rest == a + rest;
    } else {
      assert a + x + rest == a + [x[0]] + (x[1..] + rest);
      SubsequenceShrinks(a, x[0], x[1..] + rest, b);
      assert a + (x[1..] + rest) == a + x[1..] + rest;
      SubsequenceDrops(a, x[1..], rest, b);
    }
  }

  lemma {:induction false} SubsequenceAppends<T>(a: seq<T>, b: seq<T>, x: seq<T>)
    requires IsSubsequence(a, b)
    ensures IsSubsequence(a + x, b + x)
  {
    if x == [] {
      assert a + x == a && b + x == b;
    } else {
      var front := x[..|x| - 1];
      SubsequenceAppends(a, b, front);
      SubsequenceGrows(a + front, b + front, x[|x| - 1]);
      assert a + x == a + front + [x[|x| - 1]] && b + x == b + front + [x[|x| - 1]];
    }
  }

  /** Two positions of a subsequence lie in the same order in the whole. */
  lemma {:induction false} SubsequencePositions<T>(a: seq<T>, b: seq<T>, i: nat, j: nat) returns (p: nat, q: nat)
    requires IsSubsequence(a, b) && i <= j < |a|
    ensures p <= q < |b| && (i < j ==> p < q) && b[p] == a[i] && b[q] == a[j]
  {
    var n := |b| - 1;
    if IsSubsequence(a, b[..n]) {
      p, q := SubsequencePositions(a, b[..n], i, j);
    } else if j < |a| - 1 {
      p, q := SubsequencePositions(a[..|a| - 1], b[..n], i, j);
    } else if i < j {
      p, q := SubsequencePositions(a[..|a| - 1], b[..n], i, i);
      q := n;
    } else {
      p, q := n, n;
    }
  }

  /** Position of the first element with the property, or the length when there is none. */
  function FirstIndex<T>(s: seq<T>, p: T -> bool): (i: nat)
    ensures i <= |s|
    ensures i < |s| ==> p(s[i])
    ensures forall j :: 0 <= j < i ==> !p(s[j])
  {
    if s == [] || p(s[0]) then 0 else 1 + FirstIndex(s[1..], p)
  }
}
