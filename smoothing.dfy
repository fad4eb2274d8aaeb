/**
 * The speed smoother of contexts/SpeedContext.js: a queue of the last three
 * speed estimates and the arithmetic mean over it.
 */
module Smoothing {

  /** Number of estimates the moving average spans. */
  const WindowSize: nat := 3

  /** Left-to-right total, as `reduce((a, b) => a + b, 0)` accumulates it. */
  function Sum(s: seq<real>): real
  {
    if s == [] then 0.0 else Sum(s[..|s| - 1]) + s[|s| - 1]
  }

  /** Arithmetic mean of a non-empty queue. */
  function Mean(s: seq<real>): real
    requires s != []
  {
    Sum(s) / (|s| as real)
  }

  /** The last `n` elements of `s`, or all of `s` when it is shorter. */
  function LastN(s: seq<real>, n: nat): seq<real>
  {
    if |s| <= n then s else s[|s| - n..]
  }

  /** The queue after `push(v)` and, when it has grown past the window, one `shift()`. */
  function Window(q: seq<real>, v: real): seq<real>
  {
    var pushed := q + [v];
    if |pushed| > WindowSize then pushed[1..] else pushed
  }

  /**
   * After a push the new value is last, at most the oldest element has been
   * dropped, the survivors keep their order, and a queue that was within the
   * window stays within it.
   */
  lemma WindowShape(q: seq<real>, v: real)
    ensures |Window(q, v)| == if |q| < WindowSize then |q| + 1 else |q|
    ensures |q| <= WindowSize ==> 0 < |Window(q, v)| <= WindowSize
    ensures Window(q, v) == (q + [v])[|q| + 1 - |Window(q, v)|..]
    ensures Window(q, v)[|Window(q, v)| - 1] == v
    ensures |q| >= WindowSize ==> Window(q, v) == q[1..] + [v]
  {
    if |q| >= WindowSize {
      assert (q + [v])[1..] == q[1..] + [v];
    }
  }

  /**
   * Pushing into the window of the last three estimates gives the window of
   * the last three estimates including the new one.
   */
  lemma WindowOfLastN(s: seq<real>, v: real)
    ensures Window(LastN(s, WindowSize), v) == LastN(s + [v], WindowSize)
  {
    var w := LastN(s, WindowSize);
    var t := s + [v];
    if |s| >= WindowSize {
      assert w == s[|s| - WindowSize..];
      assert Window(w, v) == (w + [v])[1..];
      assert (w + [v])[1..] == t[|t| - WindowSize..];
    }
  }

  /** Every element at least `lo` makes the total at least `|s| * lo`. */
  lemma {:induction false} SumAtLeast(s: seq<real>, lo: real)
    requires forall i :: 0 <= i < |s| ==> lo <= s[i]
    ensures (|s| as real) * lo <= Sum(s)
  {
    if s != [] {
      var init := s[..|s| - 1];
      SumAtLeast(init, lo);
      assert (|s| as real) * lo == (|init| as real) * lo + lo;
    }
  }

  /** Every element at most `hi` makes the total at most `|s| * hi`. */
  lemma {:induction false} SumAtMost(s: seq<real>, hi: real)
    requires forall i :: 0 <= i < |s| ==> s[i] <= hi
    ensures Sum(s) <= (|s| as real) * hi
  {
    if s != [] {
      var init := s[..|s| - 1];
      SumAtMost(init, hi);
      assert (|s| as real) * hi == (|init| as real) * hi + hi;
    }
  }

  /** The mean lies between any lower and upper bound of the queue's elements. */
  lemma MeanWithin(s: seq<real>, lo: real, hi: real)
    requires s != []
    requires forall i :: 0 <= i < |s| ==> lo <= s[i] <= hi
    ensures lo <= Mean(s) <= hi
  {
    var n := |s| as real;
    SumAtLeast(s, lo);
    SumAtMost(s, hi);
    assert Mean(s) * n == Sum(s);
  }

  /** A lower bound of the queue and of the new value bounds the window after the push. */
  lemma WindowAtLeast(q: seq<real>, v: real, lo: real)
    requires lo <= v
    requires forall i :: 0 <= i < |q| ==> lo <= q[i]
    ensures forall i :: 0 <= i < |Window(q, v)| ==> lo <= Window(q, v)[i]
  {
  }

  /** A lower bound of every element is a lower bound of the mean. */
  lemma MeanAtLeast(s: seq<real>, lo: real)
    requires s != []
    requires forall i :: 0 <= i < |s| ==> lo <= s[i]
    ensures lo <= Mean(s)
  {
    SumAtLeast(s, lo);
    assert Mean(s) * (|s| as real) == Sum(s);
  }

  /** The mean of a single estimate is that estimate. */
  lemma MeanOfOne(a: real)
    ensures Mean([a]) == a
  {
    assert [a][..0] == [];
    assert Sum([a]) == a;
  }

  /** The mean of two estimates, oldest first. */
  lemma MeanOfTwo(a: real, b: real)
    ensures Mean([a, b]) == (a + b) / 2.0
  {
    MeanOfOne(a);
    assert [a, b][..1] == [a];
    assert Sum([a, b]) == a + b;
  }

  /** The mean of a full window of three estimates, oldest first. */
  lemma MeanOfThree(a: real, b: real, c: real)
    ensures Mean([a, b, c]) == (a + b + c) / 3.0
  {
    MeanOfTwo(a, b);
    assert [a, b, c][..2] == [a, b];
    assert Sum([a, b, c]) == a + b + c;
  }
}
