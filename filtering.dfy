/**
 * Order-preserving filtering of a sequence: the shape shared by the pruning of
 * an author's timestamp history and by the prefix filter of the autocomplete
 * handler (both walk a list once and keep the elements that pass a test).
 */
module Filtering {

  /** The elements of `s` that satisfy `p`, in their original order. */
  function Filter<T>(s: seq<T>, p: T -> bool): (r: seq<T>)
    ensures |r| <= |s|
    decreases |s|
  {
    if s == [] then []
    else Filter(s[..|s| - 1], p) + (if p(s[|s| - 1]) then [s[|s| - 1]] else [])
  }

  /** Everything kept comes from the input and passes the test. */
  lemma {:induction false} FilterSound<T>(s: seq<T>, p: T -> bool, x: T)
    requires x in Filter(s, p)
    ensures x in s && p(x)
    decreases |s|
  {
    var init, last := s[..|s| - 1], s[|s| - 1];
    if x in Filter(init, p) {
      FilterSound(init, p, x);
      assert init == s[..|s| - 1];
    }
  }

  /** FilterSound for every element of the result at once. */
  lemma FilterSoundAll<T>(s: seq<T>, p: T -> bool)
    ensures forall x :: x in Filter(s, p) ==> x in s && p(x)
  {
    forall x | x in Filter(s, p)
      ensures x in s && p(x)
    {
      FilterSound(s, p, x);
    }
  }

  /** Nothing that passes the test is lost. */
  lemma {:induction false} FilterComplete<T>(s: seq<T>, p: T -> bool, x: T)
    requires x in s && p(x)
    ensures x in Filter(s, p)
    decreases |s|
  {
    var last := s[|s| - 1];
    if x != last {
      assert x in s[..|s| - 1] by {
        var i :| 0 <= i < |s| && s[i] == x;
        assert i < |s| - 1;
        assert s[..|s| - 1][i] == x;
      }
      FilterComplete(s[..|s| - 1], p, x);
    }
  }

  /** Membership in the result, both directions. */
  lemma FilterMembership<T>(s: seq<T>, p: T -> bool, x: T)
    ensures x in Filter(s, p) <==> x in s && p(x)
  {
    if x in s && p(x) {
      FilterComplete(s, p, x);
    }
    if x in Filter(s, p) {
      FilterSound(s, p, x);
    }
  }

  /** Filtering distributes over concatenation: the relative order of kept elements is preserved. */
  lemma {:induction false} FilterAppend<T>(a: seq<T>, b: seq<T>, p: T -> bool)
    ensures Filter(a + b, p) == Filter(a, p) + Filter(b, p)
    decreases |b|
  {
    if b == [] {
      assert a + b == a;
    } else {
      var ab := a + b;
      var last := b[|b| - 1];
      assert ab[..|ab| - 1] == a + b[..|b| - 1];
      assert ab[|ab| - 1] == last;
      FilterAppend(a, b[..|b| - 1], p);
      var tail := if p(last) then [last] else [];
      calc {
        Filter(ab, p);
        Filter(a + b[..|b| - 1], p) + tail;
        Filter(a, p) + Filter(b[..|b| - 1], p) + tail;
        Filter(a, p) + (Filter(b[..|b| - 1], p) + tail);
        Filter(a, p) + Filter(b, p);
      }
    }
  }

  /** Filtering a one-element prefix off the front. */
  lemma FilterCons<T>(x: T, s: seq<T>, p: T -> bool)
    ensures Filter([x] + s, p) == (if p(x) then [x] else []) + Filter(s, p)
  {
    assert [x][..0] == [];
    assert Filter([x], p) == (if p(x) then [x] else []);
    FilterAppend([x], s, p);
  }

  /** When every element passes, the sequence is kept whole. */
  lemma {:induction false} FilterAllKept<T>(s: seq<T>, p: T -> bool)
    requires forall i :: 0 <= i < |s| ==> p(s[i])
    ensures Filter(s, p) == s
    decreases |s|
  {
    if s != [] {
      var init, last := s[..|s| - 1], s[|s| - 1];
      assert forall i :: 0 <= i < |init| ==> init[i] == s[i];
      FilterAllKept(init, p);
      assert p(last);
      calc {
        Filter(s, p);
        Filter(init, p) + [last];
        init + [last];
        s;
      }
    }
  }

  /** When no element passes, the result is empty. */
  lemma {:induction false} FilterNoneKept<T>(s: seq<T>, p: T -> bool)
    requires forall i :: 0 <= i < |s| ==> !p(s[i])
    ensures Filter(s, p) == []
    decreases |s|
  {
    if s != [] {
      var init := s[..|s| - 1];
      assert forall i :: 0 <= i < |init| ==> init[i] == s[i];
      FilterNoneKept(init, p);
    }
  }

  /** Filtering twice with the same test changes nothing. */
  lemma FilterIdempotent<T>(s: seq<T>, p: T -> bool)
    ensures Filter(Filter(s, p), p) == Filter(s, p)
  {
    var r := Filter(s, p);
    FilterSoundAll(s, p);
    assert forall i :: 0 <= i < |r| ==> r[i] in r;
    FilterAllKept(r, p);
  }
}
