/**
 * `Array.prototype.filter` and what it promises (an order-preserving
 * selection), and the filter-and-transform loop that builds a list with `push`.
 */
module Seqs {
  import opened Wrappers

  /** `a` is `b` with some elements left out and the rest in their order. */
  predicate IsSubsequence<T(==)>(a: seq<T>, b: seq<T>)
    decreases |b|
  {
    a == [] || (b != [] && ((a[0] == b[0] && IsSubsequence(a[1..], b[1..])) || IsSubsequence(a, b[1..])))
  }

  /** The elements of `s` for which `keep` holds, in their order. */
  function Filter<T>(s: seq<T>, keep: T -> bool): (r: seq<T>)
    ensures |r| <= |s|
    ensures forall i :: 0 <= i < |r| ==> keep(r[i])
    decreases |s|
  {
    if s == [] then []
    else (if keep(s[0]) then [s[0]] else []) + Filter(s[1..], keep)
  }

  lemma {:induction false} FilterIsSubsequence<T>(s: seq<T>, keep: T -> bool)
    ensures IsSubsequence(Filter(s, keep), s)
    decreases |s|
  {
    if s != [] {
      FilterIsSubsequence(s[1..], keep);
      var rest := Filter(s[1..], keep);
      if keep(s[0]) {
        assert Filter(s, keep) == [s[0]] + rest;
        assert ([s[0]] + rest)[1..] == rest;
      } else {
        assert Filter(s, keep) == rest;
      }
    }
  }

  /** An element is selected exactly when it occurs in `s` and `keep` holds of it. */
  lemma {:induction false} FilterMembership<T>(s: seq<T>, keep: T -> bool, x: T)
    ensures x in Filter(s, keep) <==> x in s && keep(x)
    decreases |s|
  {
    if s != [] {
      FilterMembership(s[1..], keep, x);
      assert x in s <==> x == s[0] || x in s[1..];
    }
  }

  /** When `keep` holds of every element, nothing is dropped. */
  lemma {:induction false} FilterKeepsAll<T>(s: seq<T>, keep: T -> bool)
    requires forall i :: 0 <= i < |s| ==> keep(s[i])
    ensures Filter(s, keep) == s
    decreases |s|
  {
    if s != [] {
      FilterKeepsAll(s[1..], keep);
      assert [s[0]] + s[1..] == s;
    }
  }

  /** Two tests that agree on every element select the same elements. */
  lemma {:induction false} FilterCongruent<T>(s: seq<T>, keep1: T -> bool, keep2: T -> bool)
    requires forall x :: keep1(x) == keep2(x)
    ensures Filter(s, keep1) == Filter(s, keep2)
    decreases |s|
  {
    if s != [] {
      FilterCongruent(s[1..], keep1, keep2);
    }
  }

  /** The values `pick` yields for the elements of `s`, in order; elements it yields nothing for are skipped. */
  function FilterMap<T, U>(s: seq<T>, pick: T -> Option<U>): (r: seq<U>)
    ensures |r| <= |s|
    decreases |s|
  {
    if s == [] then []
    else FilterMap(s[..|s| - 1], pick) + (match pick(s[|s| - 1]) case Some(v) => [v] case None => [])
  }

  /** Appending one element appends what `pick` yields for it. */
  lemma FilterMapSnoc<T, U>(s: seq<T>, x: T, pick: T -> Option<U>)
    ensures FilterMap(s + [x], pick) == FilterMap(s, pick) + (match pick(x) case Some(v) => [v] case None => [])
  {
    var t := s + [x];
    assert t[..|t| - 1] == s && t[|t| - 1] == x;
  }

  lemma {:induction false} FilterMapAppend<T, U>(a: seq<T>, b: seq<T>, pick: T -> Option<U>)
    ensures FilterMap(a + b, pick) == FilterMap(a, pick) + FilterMap(b, pick)
    decreases |b|
  {
    if b == [] {
      assert a + b == a;
    } else {
      var b', x := b[..|b| - 1], b[|b| - 1];
      assert b == b' + [x];
      assert a + b == (a + b') + [x];
      FilterMapAppend(a, b', pick);
      FilterMapSnoc(a + b', x, pick);
      FilterMapSnoc(b', x, pick);
    }
  }

  /** A value is produced exactly when `pick` yields it for some element. */
  lemma {:induction false} FilterMapMembership<T, U>(s: seq<T>, pick: T -> Option<U>, x: U)
    ensures x in FilterMap(s, pick) <==> exists i :: 0 <= i < |s| && pick(s[i]) == Some(x)
    decreases |s|
  {
    if s != [] {
      var front, last := s[..|s| - 1], s[|s| - 1];
      assert s == front + [last];
      FilterMapSnoc(front, last, pick);
      FilterMapMembership(front, pick, x);
      assert x in FilterMap(s, pick) <==> x in FilterMap(front, pick) || pick(last) == Some(x);
      if exists i :: 0 <= i < |front| && pick(front[i]) == Some(x) {
        var i :| 0 <= i < |front| && pick(front[i]) == Some(x);
        assert s[i] == front[i];
      }
      if exists i :: 0 <= i < |s| && pick(s[i]) == Some(x) {
        var i :| 0 <= i < |s| && pick(s[i]) == Some(x);
        if i < |front| {
          assert front[i] == s[i];
        }
      }
    }
  }

  /** An element yielding nothing is skipped, and an element met twice yields its value twice. */
  lemma FilterMapSkipRepeat<T, U>(x: T, y: T, z: T, pick: T -> Option<U>)
    requires pick(x).Some? && pick(y).Some? && pick(z).None?
    ensures FilterMap([x, y, z, x], pick) == [pick(x).value, pick(y).value, pick(x).value]
  {
    var s := [x, y, z, x];
    assert s[..3][..2][..1][..0] == [];
    assert s[..3][..2][..1] == [x];
    assert s[..3][..2] == [x, y];
    assert s[..3] == [x, y, z];
    assert FilterMap([x], pick) == [pick(x).value];
    assert FilterMap([x, y], pick) == [pick(x).value, pick(y).value];
    assert FilterMap([x, y, z], pick) == [pick(x).value, pick(y).value];
  }

  /** How many elements `pick` yields a value for, counted from the front. */
  function CountPicked<T, U>(s: seq<T>, pick: T -> Option<U>): nat
    decreases |s|
  {
    if s == [] then 0 else (if pick(s[0]).Some? then 1 else 0) + CountPicked(s[1..], pick)
  }

  lemma {:induction false} FilterMapLength<T, U>(s: seq<T>, pick: T -> Option<U>)
    ensures |FilterMap(s, pick)| == CountPicked(s, pick)
    decreases |s|
  {
    if s != [] {
      FilterMapLength(s[1..], pick);
      FilterMapAppend([s[0]], s[1..], pick);
      assert [s[0]] + s[1..] == s;
      assert [s[0]][..0] == [];
    }
  }
}
