/** Order-preserving selection from a sequence, the shape of every "keep the items that pass" loop in the routes. */
module Seqs {
  import opened Wrappers

  /** The elements of `s` that satisfy `p`, in their order in `s`. */
  function Filter<T>(s: seq<T>, p: T -> bool): seq<T>
  {
    if s == [] then []
    else Filter(s[..|s| - 1], p) + (if p(s[|s| - 1]) then [s[|s| - 1]] else [])
  }

  /** `r` can be obtained from `s` by deleting elements. */
  predicate IsSubsequence<T(==)>(r: seq<T>, s: seq<T>)
    decreases |s|
  {
    || r == []
    || (&& s != []
        && ((r != [] && r[|r| - 1] == s[|s| - 1] && IsSubsequence(r[..|r| - 1], s[..|s| - 1]))
            || IsSubsequence(r, s[..|s| - 1])))
  }

  lemma {:induction false} FilterIsSubsequence<T>(s: seq<T>, p: T -> bool)
    ensures IsSubsequence(Filter(s, p), s)
    ensures |Filter(s, p)| <= |s|
  {
    if s != [] {
      var init := s[..|s| - 1];
      FilterIsSubsequence(init, p);
      var r := Filter(s, p);
      if p(s[|s| - 1]) {
        assert r[..|r| - 1] == Filter(init, p);
      } else {
        assert r == Filter(init, p);
      }
    }
  }

  lemma {:induction false} FilterExactly<T>(s: seq<T>, p: T -> bool, x: T)
    ensures x in Filter(s, p) <==> x in s && p(x)
  {
    if s != [] {
      var init := s[..|s| - 1];
      FilterExactly(init, p, x);
      assert s == init + [s[|s| - 1]];
    }
  }

  lemma {:induction false} FilterConcat<T>(a: seq<T>, b: seq<T>, p: T -> bool)
    ensures Filter(a + b, p) == Filter(a, p) + Filter(b, p)
    decreases |b|
  {
    if b == [] {
      assert a + b == a;
    } else {
      var init := b[..|b| - 1];
      FilterConcat(a, init, p);
      assert (a + b)[..|a + b| - 1] == a + init;
    }
  }

  /** The results `f` keeps (`Some`) for the elements of `s`, in their order in `s`. */
  function FilterMap<T, U>(s: seq<T>, f: T -> Option<U>): seq<U>
  {
    if s == [] then []
    else FilterMap(s[..|s| - 1], f) + (if f(s[|s| - 1]).Some? then [f(s[|s| - 1]).value] else [])
  }

  lemma {:induction false} FilterMapLength<T, U>(s: seq<T>, f: T -> Option<U>)
    ensures |FilterMap(s, f)| <= |s|
  {
    if s != [] {
      FilterMapLength(s[..|s| - 1], f);
    }
  }

  /** Every kept result comes from some element of `s`. */
  lemma {:induction false} FilterMapOrigin<T, U>(s: seq<T>, f: T -> Option<U>, y: U)
    requires y in FilterMap(s, f)
    ensures exists i :: 0 <= i < |s| && f(s[i]) == Some(y)
  {
    var init := s[..|s| - 1];
    if y in FilterMap(init, f) {
      FilterMapOrigin(init, f, y);
      var i :| 0 <= i < |init| && f(init[i]) == Some(y);
      assert s[i] == init[i];
    } else {
      assert f(s[|s| - 1]) == Some(y);
    }
  }

  lemma FilterMapSnocKept<T, U>(s: seq<T>, x: T, f: T -> Option<U>, y: U)
    requires f(x) == Some(y)
    ensures FilterMap(s + [x], f) == FilterMap(s, f) + [y]
  {
    assert (s + [x])[..|s|] == s;
  }

  lemma {:induction false} FilterMapConcat<T, U>(a: seq<T>, b: seq<T>, f: T -> Option<U>)
    ensures FilterMap(a + b, f) == FilterMap(a, f) + FilterMap(b, f)
    decreases |b|
  {
    if b == [] {
      assert a + b == a;
    } else {
      FilterMapConcat(a, b[..|b| - 1], f);
      assert (a + b)[..|a + b| - 1] == a + b[..|b| - 1];
    }
  }

  /** `g` applied to every element of `s`. */
  function MapSeq<T, U>(s: seq<T>, g: T -> U): (r: seq<U>)
    ensures |r| == |s|
  {
    if s == [] then [] else MapSeq(s[..|s| - 1], g) + [g(s[|s| - 1])]
  }

  /** When `f` undoes `g` on every element, keeping through `f` what `g` produced gives the elements back. */
  lemma {:induction false} FilterMapUndoesMap<T, U>(xs: seq<U>, g: U -> T, f: T -> Option<U>)
    requires forall x :: x in xs ==> f(g(x)) == Some(x)
    ensures FilterMap(MapSeq(xs, g), f) == xs
  {
    if xs != [] {
      var init, last := xs[..|xs| - 1], xs[|xs| - 1];
      FilterMapUndoesMap(init, g, f);
      FilterMapSnocKept(MapSeq(init, g), g(last), f, last);
      assert xs == init + [last];
    }
  }
}
