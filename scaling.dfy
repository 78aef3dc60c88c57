/** Min-max scaling of a channel's window into `(0, 1]`, with the "+1" on the
    numerator and the denominator that keeps a flat window from dividing by
    zero. The arithmetic is on mathematical reals. */
module Scaling {
  import opened Window

  /** `(v - vmin + 1) / (vmax - vmin + 1)` for one sample of the window. */
  function Scale(v: real, lo: real, hi: real): (r: real)
    requires lo <= v <= hi
    ensures 0.0 < r <= 1.0
    ensures r == 1.0 <==> v == hi
  {
    DivUnit(v - lo + 1.0, hi - lo + 1.0);
    (v - lo + 1.0) / (hi - lo + 1.0)
  }

  /** A positive quotient of at most one, equal to one only for equal terms. */
  lemma DivUnit(a: real, d: real)
    requires 0.0 < a <= d
    ensures 0.0 < a / d <= 1.0
    ensures a / d == 1.0 <==> a == d
  {
  }

  /** The `scaled` list: every sample of the window scaled against the
      window's own minimum and maximum. */
  function Normalise(w: seq<real>): (r: seq<real>)
    requires |w| > 0
    ensures |r| == |w|
    ensures forall i :: 0 <= i < |w| ==> 0.0 < r[i] <= 1.0
  {
    var lo, hi := Min(w), Max(w);
    seq(|w|, i requires 0 <= i < |w| => Scale(w[i], lo, hi))
  }

  /** `w[i]` plus `c` for every sample. */
  function Shift(w: seq<real>, c: real): (r: seq<real>)
  {
    seq(|w|, i requires 0 <= i < |w| => w[i] + c)
  }

  /** A scaled value is exactly 1 precisely where the sample is the window's
      maximum. */
  lemma NormaliseTop(w: seq<real>, i: nat)
    requires i < |w|
    ensures Normalise(w)[i] == 1.0 <==> w[i] == Max(w)
  {
  }

  /** A flat window (every sample equal) scales to all ones: the "+1" guard
      turns `0 / 0` into `1 / 1`. */
  lemma NormaliseFlat(w: seq<real>)
    requires |w| > 0
    requires forall i :: 0 <= i < |w| ==> w[i] == w[0]
    ensures forall i :: 0 <= i < |w| ==> Normalise(w)[i] == 1.0
  {
  }

  /** Positive division preserves order in both directions. */
  lemma DivOrder(a: real, b: real, d: real)
    requires d > 0.0
    ensures a <= b <==> a / d <= b / d
  {
  }

  /** Scaling preserves and reflects order: `w[i] <= w[j]` exactly when
      `scaled[i] <= scaled[j]`. */
  lemma NormaliseOrder(w: seq<real>, i: nat, j: nat)
    requires i < |w| && j < |w|
    ensures w[i] <= w[j] <==> Normalise(w)[i] <= Normalise(w)[j]
  {
    var lo, hi := Min(w), Max(w);
    DivOrder(w[i] - lo + 1.0, w[j] - lo + 1.0, hi - lo + 1.0);
  }

  /** A sample equal to the window's minimum gets the least scaled value. */
  lemma NormaliseBottomLeast(w: seq<real>, i: nat)
    requires i < |w| && w[i] == Min(w)
    ensures forall j :: 0 <= j < |w| ==> Normalise(w)[i] <= Normalise(w)[j]
  {
    forall j | 0 <= j < |w|
      ensures Normalise(w)[i] <= Normalise(w)[j]
    {
      NormaliseOrder(w, i, j);
    }
  }

  /** The minimum of a shifted window is the shifted minimum. */
  lemma {:induction false} MinShift(w: seq<real>, c: real)
    requires |w| > 0
    ensures Min(Shift(w, c)) == Min(w) + c
  {
    if |w| > 1 {
      MinShift(w[1..], c);
      assert Shift(w, c)[1..] == Shift(w[1..], c);
    }
  }

  /** The maximum of a shifted window is the shifted maximum. */
  lemma {:induction false} MaxShift(w: seq<real>, c: real)
    requires |w| > 0
    ensures Max(Shift(w, c)) == Max(w) + c
  {
    if |w| > 1 {
      MaxShift(w[1..], c);
      assert Shift(w, c)[1..] == Shift(w[1..], c);
    }
  }

  /** The scaling depends only on differences between samples: adding the
      same offset to every sample leaves the scaled list unchanged. */
  lemma NormaliseShift(w: seq<real>, c: real)
    requires |w| > 0
    ensures Normalise(Shift(w, c)) == Normalise(w)
  {
    MinShift(w, c);
    MaxShift(w, c);
  }

  /** A window of four, seeded with ones, after one update with 5. */
  lemma NormaliseExample()
    ensures Slide(Seed(4, 1.0), 5.0) == [1.0, 1.0, 1.0, 5.0]
    ensures Normalise([1.0, 1.0, 1.0, 5.0]) == [0.2, 0.2, 0.2, 1.0]
  {
    assert Seed(4, 1.0) == [1.0, 1.0, 1.0, 1.0];
  }
}
