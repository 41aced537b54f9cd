/**
 Exponential moving average with `Series.ewm(span=s, adjust=False).mean()`
 semantics, and the MACD pair the analyzer derives from it. The model assumes
 every close is a number, so these columns are defined at every position.
 */
module Exponential {

  /** An `ewm` span; the library rejects spans below one. */
  type Span = s: int | 1 <= s witness 1

  /** The smoothing factor α = 2 / (span + 1). */
  function Alpha(span: Span): (a: real)
    ensures 0.0 < a <= 1.0
  {
    2.0 / (span as real + 1.0)
  }

  /** One smoothing step: weight a on the new value x, 1 − a on the previous average. */
  function Blend(a: real, x: real, prev: real): real
  {
    a * x + (1.0 - a) * prev
  }

  /**
   `ewm(span, adjust=False).mean()`: the first value seeds the average and
   every later position mixes in the new value with weight α.
   */
  function Ema(xs: seq<real>, span: Span): (r: seq<real>)
    ensures |r| == |xs|
    ensures |xs| > 0 ==> r[0] == xs[0]
    decreases |xs|
  {
    if |xs| <= 1 then xs
    else
      var prev := Ema(xs[..|xs| - 1], span);
      var a := Alpha(span);
      prev + [Blend(a, xs[|xs| - 1], prev[|xs| - 2])]
  }

  /** One unfolding of the recurrence at the last position. */
  lemma EmaStep(xs: seq<real>, span: Span)
    requires |xs| >= 2
    ensures Ema(xs, span) == Ema(xs[..|xs| - 1], span) + [Blend(Alpha(span), xs[|xs| - 1], Ema(xs[..|xs| - 1], span)[|xs| - 2])]
  {
  }

  /** The average over a prefix of the input is the prefix of the average. */
  lemma {:induction false} EmaPrefix(xs: seq<real>, span: Span, k: nat)
    requires k <= |xs|
    ensures Ema(xs[..k], span) == Ema(xs, span)[..k]
    decreases |xs|
  {
    if k < |xs| {
      var n := |xs| - 1;
      EmaPrefix(xs[..n], span, k);
      assert xs[..n][..k] == xs[..k];
      assert Ema(xs, span)[..n] == Ema(xs[..n], span);
    } else {
      assert xs[..k] == xs;
    }
  }

  /**
   Every position after the seed follows the adjust=False recurrence
   ema[i] = α·x[i] + (1 − α)·ema[i − 1].
   */
  lemma EmaRecurrence(xs: seq<real>, span: Span, i: int)
    requires 1 <= i < |xs|
    ensures Ema(xs, span)[i] == Blend(Alpha(span), xs[i], Ema(xs, span)[i - 1])
  {
    var p := xs[..i + 1];
    assert p[..i] == xs[..i];
    EmaStep(p, span);
    EmaPrefix(xs, span, i + 1);
    EmaPrefix(xs, span, i);
  }

  /** A weighted mixture of two values in [lo, hi] stays in [lo, hi]. */
  lemma MixWithin(a: real, x: real, y: real, lo: real, hi: real)
    requires 0.0 < a <= 1.0
    requires lo <= x <= hi && lo <= y <= hi
    ensures lo <= Blend(a, x, y) <= hi
  {
    assert a * (x - lo) >= 0.0;
    assert (1.0 - a) * (y - lo) >= 0.0;
    assert a * (hi - x) >= 0.0;
    assert (1.0 - a) * (hi - y) >= 0.0;
  }

  /**
   The average is a convex mixture of the inputs: if every input lies in
   [lo, hi], so does every position of the average.
   */
  lemma {:induction false} EmaWithin(xs: seq<real>, span: Span, lo: real, hi: real)
    requires forall k :: 0 <= k < |xs| ==> lo <= xs[k] <= hi
    ensures forall k :: 0 <= k < |xs| ==> lo <= Ema(xs, span)[k] <= hi
    decreases |xs|
  {
    if |xs| > 1 {
      var n := |xs| - 1;
      EmaWithin(xs[..n], span, lo, hi);
      var prev := Ema(xs[..n], span);
      var a := Alpha(span);
      MixWithin(a, xs[n], prev[n - 1], lo, hi);
      assert Ema(xs, span) == prev + [Blend(a, xs[n], prev[n - 1])];
    }
  }

  /** A constant input series P gives an average equal to P everywhere. */
  lemma EmaOfConstant(xs: seq<real>, span: Span, p: real)
    requires forall k :: 0 <= k < |xs| ==> xs[k] == p
    ensures Ema(xs, span) == xs
  {
    EmaWithin(xs, span, p, p);
  }

  /** The MACD line: EMA(12) − EMA(26) of the closes. */
  function MacdLine(closes: seq<real>): (r: seq<real>)
    ensures |r| == |closes|
    ensures |closes| > 0 ==> r[0] == 0.0
  {
    var fast := Ema(closes, 12);
    var slow := Ema(closes, 26);
    seq(|closes|, i requires 0 <= i < |closes| => fast[i] - slow[i])
  }

  /** The MACD signal line: EMA(9) of the MACD line. */
  function MacdSignal(closes: seq<real>): (r: seq<real>)
    ensures |r| == |closes|
    ensures |closes| > 0 ==> r[0] == 0.0
  {
    Ema(MacdLine(closes), 9)
  }

  /**
   Both averages seed at the first close, so the MACD line and its signal
   start at zero.
   */
  lemma MacdStartsAtZero(closes: seq<real>)
    requires |closes| > 0
    ensures MacdLine(closes)[0] == 0.0
    ensures MacdSignal(closes)[0] == 0.0
  {
  }

  /** A flat price series P gives a MACD line and signal of zero everywhere. */
  lemma MacdOfConstant(closes: seq<real>, p: real)
    requires forall k :: 0 <= k < |closes| ==> closes[k] == p
    ensures forall k :: 0 <= k < |closes| ==> MacdLine(closes)[k] == 0.0
    ensures forall k :: 0 <= k < |closes| ==> MacdSignal(closes)[k] == 0.0
  {
    EmaOfConstant(closes, 12, p);
    EmaOfConstant(closes, 26, p);
    var m := MacdLine(closes);
    assert forall k :: 0 <= k < |m| ==> m[k] == 0.0;
    EmaOfConstant(m, 9, 0.0);
  }
}
