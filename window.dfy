/** Fixed-length FIFO windows of samples: the per-channel histories and the
    five-sample CPU temperature window are both kept as `w[1:] + [x]`. */
module Window {

  /** A window of `n` copies of `v`, as `[v] * n` seeds it. */
  function Seed(n: nat, v: real): (w: seq<real>)
    ensures |w| == n
    ensures forall i :: 0 <= i < n ==> w[i] == v
  {
    seq(n, _ => v)
  }

  /** `w[1:] + [x]`: drop the oldest sample and append the new one. On an
      empty list Python's slice is empty too, so the result is `[x]`. */
  function Slide(w: seq<real>, x: real): (r: seq<real>)
    ensures |w| == 0 ==> r == [x]
    ensures |w| > 0 ==> |r| == |w|
    ensures |r| > 0 && r[|r| - 1] == x
    ensures forall i :: 0 <= i < |w| - 1 ==> r[i] == w[i + 1]
  {
    if |w| == 0 then [x] else w[1..] + [x]
  }

  /** The window after sliding in every sample of `xs`, first to last. */
  function SlideAll(w: seq<real>, xs: seq<real>): seq<real>
    decreases |xs|
  {
    if xs == [] then w else SlideAll(Slide(w, xs[0]), xs[1..])
  }

  /** Sliding in a sequence of samples leaves the window length unchanged
      and yields the last `|w|` elements of the seed followed by the samples. */
  lemma {:induction false} SlideAllSuffix(w: seq<real>, xs: seq<real>)
    requires |w| > 0
    ensures SlideAll(w, xs) == (w + xs)[|xs|..]
    ensures |SlideAll(w, xs)| == |w|
    decreases |xs|
  {
    if xs != [] {
      var w' := Slide(w, xs[0]);
      SlideAllSuffix(w', xs[1..]);
      assert w' + xs[1..] == (w + xs)[1..];
    }
  }

  /** Sliding one more sample into the result of a run of slides is the
      run extended by that sample. */
  lemma SlideAllSnoc(w: seq<real>, xs: seq<real>, x: real)
    requires |w| > 0
    ensures SlideAll(w, xs + [x]) == Slide(SlideAll(w, xs), x)
  {
    SlideAllSuffix(w, xs);
    SlideAllSuffix(w, xs + [x]);
    assert (w + (xs + [x]))[|xs| + 1..] == (w + xs)[|xs|..][1..] + [x];
  }

  /** FIFO eviction: once at least `|w|` samples have been slid in, no seed
      sample is left and the window is exactly the most recent `|w|` samples,
      oldest first. */
  lemma SlideAllForgetsSeed(w: seq<real>, xs: seq<real>)
    requires |w| > 0 && |xs| >= |w|
    ensures SlideAll(w, xs) == xs[|xs| - |w|..]
  {
    SlideAllSuffix(w, xs);
    assert (w + xs)[|xs|..] == xs[|xs| - |w|..];
  }

  /** `sum(w)`. */
  function Sum(w: seq<real>): real
  {
    if w == [] then 0.0 else w[0] + Sum(w[1..])
  }

  /** The sum of a window whose every sample lies in `[lo, hi]` lies in
      `[|w| * lo, |w| * hi]`. */
  lemma {:induction false} SumBounds(w: seq<real>, lo: real, hi: real)
    requires forall i :: 0 <= i < |w| ==> lo <= w[i] <= hi
    ensures |w| as real * lo <= Sum(w) <= |w| as real * hi
  {
    if w != [] {
      SumBounds(w[1..], lo, hi);
    }
  }

  /** The sum of `n` copies of `v` is `n * v`. */
  lemma {:induction false} SumSeed(n: nat, v: real)
    ensures Sum(Seed(n, v)) == n as real * v
  {
    if n > 0 {
      SumSeed(n - 1, v);
      assert Seed(n, v)[1..] == Seed(n - 1, v);
    }
  }

  /** `sum(w) / float(len(w))`; Python raises on an empty list. */
  function Average(w: seq<real>): (a: real)
    requires |w| > 0
    ensures a * |w| as real == Sum(w)
  {
    Sum(w) / |w| as real
  }

  /** `min(w)`: Python raises on an empty list. */
  function Min(w: seq<real>): (m: real)
    requires |w| > 0
    ensures m in w
    ensures forall i :: 0 <= i < |w| ==> m <= w[i]
  {
    if |w| == 1 then w[0]
    else
      var rest := Min(w[1..]);
      if w[0] <= rest then w[0] else rest
  }

  /** `max(w)`: Python raises on an empty list. */
  function Max(w: seq<real>): (m: real)
    requires |w| > 0
    ensures m in w
    ensures forall i :: 0 <= i < |w| ==> w[i] <= m
  {
    if |w| == 1 then w[0]
    else
      var rest := Max(w[1..]);
      if w[0] >= rest then w[0] else rest
  }

  /** Dividing by a positive count preserves a lower bound on the total. */
  lemma DivAtLeast(total: real, n: real, lo: real)
    requires n > 0.0 && n * lo <= total
    ensures lo <= total / n
  {
  }

  /** Dividing by a positive count preserves an upper bound on the total. */
  lemma DivAtMost(total: real, n: real, hi: real)
    requires n > 0.0 && total <= n * hi
    ensures total / n <= hi
  {
  }

  /** A window whose samples all lie in `[lo, hi]` averages into `[lo, hi]`. */
  lemma AverageWithin(w: seq<real>, lo: real, hi: real)
    requires |w| > 0
    requires forall i :: 0 <= i < |w| ==> lo <= w[i] <= hi
    ensures lo <= Average(w) <= hi
  {
    SumBounds(w, lo, hi);
    DivAtLeast(Sum(w), |w| as real, lo);
    DivAtMost(Sum(w), |w| as real, hi);
  }

  /** The average of a window lies between its minimum and its maximum. */
  lemma AverageBounds(w: seq<real>)
    requires |w| > 0
    ensures Min(w) <= Average(w) <= Max(w)
  {
    AverageWithin(w, Min(w), Max(w));
  }

  /** A window of equal samples averages to that sample. */
  lemma AverageSeed(n: nat, v: real)
    requires n > 0
    ensures Average(Seed(n, v)) == v
  {
    SumSeed(n, v);
  }
}
