/**
 * Reference definitions for what a multi-channel audio clip holds and what
 * the clip operations do to it. A clip's content is a sequence of frames: one
 * frame per time-step, one amplitude per channel. Amplitudes are reals (the
 * source stores floats; rounding is not modelled).
 */
module Signals {

  /** Every frame holds exactly `width` channel amplitudes. */
  predicate Rectangular(rows: seq<seq<real>>, width: int)
  {
    forall t | 0 <= t < |rows| :: |rows[t]| == width
  }

  /** Two clips of the same shape with the same amplitudes everywhere are equal. */
  lemma SameRows(a: seq<seq<real>>, b: seq<seq<real>>, width: int)
    requires Rectangular(a, width) && Rectangular(b, width) && |a| == |b|
    requires forall t, c | 0 <= t < |a| && 0 <= c < width :: a[t][c] == b[t][c]
    ensures a == b
  {
    forall t | 0 <= t < |a|
      ensures a[t] == b[t]
    {
    }
  }

  /** The first t + 1 frames are the first t followed by frame t. */
  lemma PrefixGrows<T>(s: seq<T>, t: int)
    requires 0 <= t < |s|
    ensures s[..t + 1] == s[..t] + [s[t]]
  {
  }

  // ---------------------------------------------------------------------
  // Reversal
  // ---------------------------------------------------------------------

  /** The frames in reverse time order. */
  function Reversed<T>(s: seq<T>): (r: seq<T>)
    ensures |r| == |s|
    ensures forall i | 0 <= i < |s| :: r[i] == s[|s| - 1 - i]
  {
    if s == [] then [] else Reversed(s[1..]) + [s[0]]
  }

  /** Reversing twice gives back the original order. */
  lemma ReversedTwice<T>(s: seq<T>)
    ensures Reversed(Reversed(s)) == s
  {
    var r := Reversed(Reversed(s));
    assert |r| == |s|;
    forall i | 0 <= i < |s|
      ensures r[i] == s[i]
    {
      assert r[i] == Reversed(s)[|s| - 1 - i];
    }
  }

  /** Reversal keeps every frame whole: channel alignment is preserved. */
  lemma ReversedRectangular(rows: seq<seq<real>>, width: int)
    requires Rectangular(rows, width)
    ensures Rectangular(Reversed(rows), width)
  {
    forall t | 0 <= t < |rows|
      ensures |Reversed(rows)[t]| == width
    {
      assert Reversed(rows)[t] == rows[|rows| - 1 - t];
    }
  }

  // ---------------------------------------------------------------------
  // Single channel
  // ---------------------------------------------------------------------

  /** The amplitudes of one channel, in time order. */
  function Column(rows: seq<seq<real>>, width: int, c: int): (r: seq<real>)
    requires Rectangular(rows, width) && 0 <= c < width
    ensures |r| == |rows|
    ensures forall t | 0 <= t < |rows| :: r[t] == rows[t][c]
  {
    seq(|rows|, t requires 0 <= t < |rows| => rows[t][c])
  }

  // ---------------------------------------------------------------------
  // Echo
  // ---------------------------------------------------------------------

  /** An amplitude x with another amplitude y added at volume p. */
  function Mix(x: real, y: real, p: real): real
  {
    x + y * p
  }

  /**
   * The amplitude at step `t`, channel `c`, after an in-place echo with a
   * delay of `d` steps and a falloff of `p`. The echo walks forward in time
   * and reads amplitudes it has already rewritten, so for d >= 1 each step
   * receives the ECHOED value `d` steps earlier: the echo is cumulative.
   * With d == 0 the read and the write hit the same node, so each amplitude
   * is scaled by 1 + p.
   */
  function EchoAt(rows: seq<seq<real>>, width: int, d: nat, p: real, t: int, c: int): real
    requires Rectangular(rows, width) && 0 <= t < |rows| && 0 <= c < width
    decreases t
  {
    if t < d then rows[t][c]
    else if d == 0 then Mix(rows[t][c], rows[t][c], p)
    else Mix(rows[t][c], EchoAt(rows, width, d, p, t - d, c), p)
  }

  /** All frames after the echo. */
  function Echo(rows: seq<seq<real>>, width: int, d: nat, p: real): (r: seq<seq<real>>)
    requires Rectangular(rows, width) && width >= 0
    ensures |r| == |rows| && Rectangular(r, width)
  {
    seq(|rows|, t requires 0 <= t < |rows| =>
      seq(width, c requires 0 <= c < width => EchoAt(rows, width, d, p, t, c)))
  }

  /** p to the power k. */
  function Power(p: real, k: nat): real
  {
    if k == 0 then 1.0 else Power(p, k - 1) * p
  }

  /** The step j delays of d before step t, counted back one delay at a time. */
  function Lag(t: int, j: nat, d: nat): (r: int)
    ensures r <= t
  {
    if j == 0 then t else Lag(t, j - 1, d) - d
  }

  /** Counting back j delays of d lands on t - j*d. */
  lemma {:induction false} LagIsProduct(t: int, j: nat, d: nat)
    ensures Lag(t, j, d) == t - j * d
  {
    if j > 0 {
      LagIsProduct(t, j - 1, d);
      assert j * d == (j - 1) * d + d;
    }
  }

  /** Counting back j delays from t is counting back j - 1 delays from t - d. */
  lemma {:induction false} LagShift(t: int, j: nat, d: nat)
    requires j >= 1
    ensures Lag(t, j, d) == Lag(t - d, j - 1, d)
  {
    if j > 1 {
      LagShift(t, j - 1, d);
    }
  }

  /**
   * An independent description of the echo: the sum of the delayed copies
   * in[t - j*d] weighted by p^j, for j = 0 .. k.
   */
  function Taps(rows: seq<seq<real>>, width: int, d: nat, p: real, t: int, c: int, k: nat): real
    requires Rectangular(rows, width) && 0 <= c < width && 0 <= Lag(t, k, d) && t < |rows|
  {
    if k == 0 then rows[t][c]
    else Mix(Taps(rows, width, d, p, t, c, k - 1), rows[Lag(t, k, d)][c], Power(p, k))
  }

  /** Peeling the first tap off a tap sum leaves p times a tap sum one delay back. */
  lemma {:induction false} TapsShift(rows: seq<seq<real>>, width: int, d: nat, p: real, t: int, c: int, k: nat)
    requires Rectangular(rows, width) && 0 <= c < width && t < |rows|
    requires d >= 1 && k >= 1 && 0 <= Lag(t, k, d)
    ensures Lag(t - d, k - 1, d) == Lag(t, k, d)
    ensures Taps(rows, width, d, p, t, c, k) == Mix(rows[t][c], Taps(rows, width, d, p, t - d, c, k - 1), p)
  {
    LagShift(t, k, d);
    if k == 1 {
      assert Power(p, 1) == p;
    } else {
      TapsShift(rows, width, d, p, t, c, k - 1);
      MixRegroup(rows[t][c], Taps(rows, width, d, p, t - d, c, k - 2), rows[Lag(t, k, d)][c], p, k);
    }
  }

  /** The algebra of one TapsShift step: (a + b*p) + x*p^k == a + (b + x*p^(k-1))*p. */
  lemma MixRegroup(a: real, b: real, x: real, p: real, k: nat)
    requires k >= 1
    ensures Mix(Mix(a, b, p), x, Power(p, k)) == Mix(a, Mix(b, x, Power(p, k - 1)), p)
  {
    assert Power(p, k) == Power(p, k - 1) * p;
    assert x * (Power(p, k - 1) * p) == (x * Power(p, k - 1)) * p;
    assert (b + x * Power(p, k - 1)) * p == b * p + (x * Power(p, k - 1)) * p;
  }

  /**
   * The cumulative echo is a geometric series of delayed copies: with k the
   * number of whole delays that fit before step t,
   * out[t] = sum over j <= k of p^j * in[t - j*d].
   */
  lemma EchoIsGeometricSeries(rows: seq<seq<real>>, width: int, d: nat, p: real, t: int, c: int, k: nat)
    requires Rectangular(rows, width) && 0 <= t < |rows| && 0 <= c < width && d >= 1
    requires 0 <= t - k * d < d
    ensures Lag(t, k, d) == t - k * d
    ensures EchoAt(rows, width, d, p, t, c) == Taps(rows, width, d, p, t, c, k)
  {
    LagIsProduct(t, k, d);
    EchoIsTaps(rows, width, d, p, t, c, k);
  }

  /** EchoIsGeometricSeries, by induction on the number of delays, with the lag counted back. */
  lemma {:induction false} EchoIsTaps(rows: seq<seq<real>>, width: int, d: nat, p: real, t: int, c: int, k: nat)
    requires Rectangular(rows, width) && 0 <= t < |rows| && 0 <= c < width && d >= 1
    requires 0 <= Lag(t, k, d) < d
    ensures EchoAt(rows, width, d, p, t, c) == Taps(rows, width, d, p, t, c, k)
    decreases k
  {
    if k > 0 {
      TapsShift(rows, width, d, p, t, c, k);
      EchoIsTaps(rows, width, d, p, t - d, c, k - 1);
    }
  }

  /** A unit impulse with a one-step echo decays geometrically: out[t] = p^t. */
  lemma {:induction false} EchoOfImpulse(rows: seq<seq<real>>, p: real, t: int)
    requires Rectangular(rows, 1) && |rows| > 0 && rows[0][0] == 1.0
    requires forall u | 1 <= u < |rows| :: rows[u][0] == 0.0
    requires 0 <= t < |rows|
    ensures EchoAt(rows, 1, 1, p, t, 0) == Power(p, t)
    decreases t
  {
    if t >= 1 {
      EchoOfImpulse(rows, p, t - 1);
    }
  }

  /** Steps before the delay are left as they were. */
  lemma EchoKeepsLead(rows: seq<seq<real>>, width: int, d: nat, p: real, t: int)
    requires Rectangular(rows, width) && width >= 0 && 0 <= t < |rows| && t < d
    ensures Echo(rows, width, d, p)[t] == rows[t]
  {
  }

  // ---------------------------------------------------------------------
  // Clip-or-rescale mixing
  // ---------------------------------------------------------------------

  /** The sum of a frame's amplitudes, added left to right. */
  function Sum(xs: seq<real>): real
  {
    if xs == [] then 0.0 else Sum(xs[..|xs| - 1]) + xs[|xs| - 1]
  }

  function Abs(x: real): real
  {
    if x < 0.0 then -x else x
  }

  function Max(x: real, y: real): real
  {
    if x < y then y else x
  }

  /** Hard clipping into [-1, 1]. */
  function Clamp(x: real): (r: real)
    ensures -1.0 <= r <= 1.0
    ensures -1.0 <= x <= 1.0 ==> r == x
    ensures x > 1.0 ==> r == 1.0
    ensures x < -1.0 ==> r == -1.0
  {
    if x > 1.0 then 1.0 else if x < -1.0 then -1.0 else x
  }

  /** The largest magnitude in one frame, and never less than 0. */
  function MaxAbs(xs: seq<real>): real
  {
    if xs == [] then 0.0 else Max(MaxAbs(xs[..|xs| - 1]), Abs(xs[|xs| - 1]))
  }

  /** The largest magnitude in the whole signal, and never less than 0. */
  function Peak(rows: seq<seq<real>>): real
  {
    if rows == [] then 0.0 else Max(Peak(rows[..|rows| - 1]), MaxAbs(rows[|rows| - 1]))
  }

  /** MaxAbs is the least non-negative bound of the magnitudes of a frame. */
  lemma {:induction false} MaxAbsIsLeastBound(xs: seq<real>)
    ensures MaxAbs(xs) >= 0.0
    ensures forall i | 0 <= i < |xs| :: Abs(xs[i]) <= MaxAbs(xs)
    ensures xs != [] && MaxAbs(xs) > 0.0 ==> exists i | 0 <= i < |xs| :: Abs(xs[i]) == MaxAbs(xs)
  {
    if xs != [] {
      var init := xs[..|xs| - 1];
      MaxAbsIsLeastBound(init);
      forall i | 0 <= i < |xs|
        ensures Abs(xs[i]) <= MaxAbs(xs)
      {
        if i < |xs| - 1 { assert xs[i] == init[i]; }
      }
      if MaxAbs(xs) > 0.0 && MaxAbs(xs) != Abs(xs[|xs| - 1]) {
        assert MaxAbs(xs) == MaxAbs(init);
        var i :| 0 <= i < |init| && Abs(init[i]) == MaxAbs(init);
        assert xs[i] == init[i];
      }
    }
  }

  /** Peak is non-negative and bounds every magnitude in the signal. */
  lemma {:induction false} PeakIsLeastBound(rows: seq<seq<real>>)
    ensures Peak(rows) >= 0.0
    ensures forall t, c | 0 <= t < |rows| && 0 <= c < |rows[t]| :: Abs(rows[t][c]) <= Peak(rows)
  {
    if rows != [] {
      var init := rows[..|rows| - 1];
      var last := rows[|rows| - 1];
      PeakIsLeastBound(init);
      MaxAbsIsLeastBound(last);
      forall t, c | 0 <= t < |rows| && 0 <= c < |rows[t]|
        ensures Abs(rows[t][c]) <= Peak(rows)
      {
        if t < |rows| - 1 { assert rows[t] == init[t]; }
      }
    }
  }

  /** No non-negative bound of every magnitude lies below the peak. */
  lemma {:induction false} PeakAtMost(rows: seq<seq<real>>, b: real)
    requires b >= 0.0
    requires forall t, c | 0 <= t < |rows| && 0 <= c < |rows[t]| :: Abs(rows[t][c]) <= b
    ensures Peak(rows) <= b
  {
    if rows != [] {
      var init := rows[..|rows| - 1];
      var last := rows[|rows| - 1];
      forall t, c | 0 <= t < |init| && 0 <= c < |init[t]|
        ensures Abs(init[t][c]) <= b
      {
        assert init[t] == rows[t];
      }
      PeakAtMost(init, b);
      MaxAbsIsLeastBound(last);
      if MaxAbs(last) > 0.0 {
        var i :| 0 <= i < |last| && Abs(last[i]) == MaxAbs(last);
        assert Abs(rows[|rows| - 1][i]) <= b;
      }
    }
  }

  /** Every amplitude of one frame hard-clipped into [-1, 1]. */
  function ClampedFrame(xs: seq<real>): (r: seq<real>)
    ensures |r| == |xs| && forall c | 0 <= c < |xs| :: -1.0 <= r[c] <= 1.0
  {
    seq(|xs|, c requires 0 <= c < |xs| => Clamp(xs[c]))
  }

  /** Every amplitude hard-clipped into [-1, 1]. */
  function Clamped(rows: seq<seq<real>>): (r: seq<seq<real>>)
    ensures |r| == |rows|
    ensures forall t | 0 <= t < |rows| :: |r[t]| == |rows[t]|
  {
    seq(|rows|, t requires 0 <= t < |rows| => ClampedFrame(rows[t]))
  }

  /** Every amplitude of one frame divided by `divisor`. */
  function ScaledFrame(xs: seq<real>, divisor: real): (r: seq<real>)
    requires divisor != 0.0
    ensures |r| == |xs|
  {
    seq(|xs|, c requires 0 <= c < |xs| => xs[c] / divisor)
  }

  /** Every amplitude divided by `divisor`. */
  function Scaled(rows: seq<seq<real>>, divisor: real): (r: seq<seq<real>>)
    requires divisor != 0.0
    ensures |r| == |rows|
    ensures forall t | 0 <= t < |rows| :: |r[t]| == |rows[t]|
  {
    seq(|rows|, t requires 0 <= t < |rows| => ScaledFrame(rows[t], divisor))
  }

  /**
   * The mixing policy shared by makeMono and combine: clip each value into
   * [-1, 1], or, without clipping, divide the whole signal by its peak
   * magnitude when that peak exceeds 1 and leave it as it is otherwise.
   */
  function ClipOrRescale(rows: seq<seq<real>>, allowClipping: bool): (r: seq<seq<real>>)
    ensures |r| == |rows|
    ensures forall t | 0 <= t < |rows| :: |r[t]| == |rows[t]|
  {
    if allowClipping then Clamped(rows)
    else if Peak(rows) > 1.0 then Scaled(rows, Peak(rows))
    else rows
  }

  /** Whatever the policy, every mixed value lies in [-1, 1]. */
  lemma ClipOrRescaleInRange(rows: seq<seq<real>>, allowClipping: bool)
    ensures forall t, c | 0 <= t < |rows| && 0 <= c < |rows[t]| ::
      -1.0 <= ClipOrRescale(rows, allowClipping)[t][c] <= 1.0
  {
    PeakIsLeastBound(rows);
    var r := ClipOrRescale(rows, allowClipping);
    if !allowClipping && Peak(rows) > 1.0 {
      var pk := Peak(rows);
      forall t, c | 0 <= t < |rows| && 0 <= c < |rows[t]|
        ensures -1.0 <= r[t][c] <= 1.0
      {
        var x := rows[t][c];
        assert r[t][c] == x / pk;
        assert Abs(x) <= pk;
        DividedByBoundInRange(x, pk);
      }
    }
  }

  lemma DividedByBoundInRange(x: real, b: real)
    requires b > 0.0 && Abs(x) <= b
    ensures -1.0 <= x / b <= 1.0
  {
    assert -b <= x <= b;
    assert x / b <= b / b;
    assert (-b) / b <= x / b;
  }

  lemma PeakOverItselfIsUnit(x: real, b: real)
    requires b > 0.0 && Abs(x) == b
    ensures Abs(x / b) == 1.0
  {
    if x < 0.0 {
      assert x == (-1.0) * b;
      assert x / b == -1.0;
    }
  }

  /**
   * A signal already inside [-1, 1] passes unchanged through either policy:
   * no clipping happens and no rescale pass is made.
   */
  lemma ClipOrRescaleKeepsQuietSignal(rows: seq<seq<real>>, allowClipping: bool)
    requires forall t, c | 0 <= t < |rows| && 0 <= c < |rows[t]| :: -1.0 <= rows[t][c] <= 1.0
    ensures ClipOrRescale(rows, allowClipping) == rows
  {
    PeakAtMost(rows, 1.0);
    if allowClipping {
      var r := Clamped(rows);
      forall t | 0 <= t < |rows|
        ensures r[t] == rows[t]
      {
      }
    }
  }

  /**
   * Without clipping, a loud signal is rescaled uniformly: every value keeps
   * its sign and its ratio to every other value, and the loudest reaches
   * exactly 1 in magnitude.
   */
  lemma {:induction false} RescaleIsUniform(rows: seq<seq<real>>, pk: real, r: seq<seq<real>>)
    requires pk == Peak(rows) > 1.0 && r == ClipOrRescale(rows, false)
    ensures forall t, c | 0 <= t < |rows| && 0 <= c < |rows[t]| :: r[t][c] * pk == rows[t][c]
    ensures exists t, c | 0 <= t < |rows| && 0 <= c < |rows[t]| :: Abs(r[t][c]) == 1.0
  {
    assert r == Scaled(rows, pk);
    ScaledUndone(rows, pk, r);
    ScaledPeakIsUnit(rows, pk, r);
  }

  /** Dividing a signal by its positive peak brings some value to magnitude 1. */
  lemma {:induction false} ScaledPeakIsUnit(rows: seq<seq<real>>, pk: real, r: seq<seq<real>>)
    requires pk == Peak(rows) > 0.0 && r == Scaled(rows, pk)
    ensures exists t, c | 0 <= t < |rows| && 0 <= c < |rows[t]| :: Abs(r[t][c]) == 1.0
  {
    PeakAttained(rows);
    var t, c :| 0 <= t < |rows| && 0 <= c < |rows[t]| && Abs(rows[t][c]) == pk;
    assert r[t][c] == rows[t][c] / pk;
    PeakOverItselfIsUnit(rows[t][c], pk);
  }

  /** Multiplying a scaled signal back by the divisor gives the signal. */
  lemma {:induction false} ScaledUndone(rows: seq<seq<real>>, divisor: real, r: seq<seq<real>>)
    requires divisor != 0.0 && r == Scaled(rows, divisor)
    ensures forall t, c | 0 <= t < |rows| && 0 <= c < |rows[t]| :: r[t][c] * divisor == rows[t][c]
  {
    forall t, c | 0 <= t < |rows| && 0 <= c < |rows[t]|
      ensures r[t][c] * divisor == rows[t][c]
    {
      assert r[t][c] == rows[t][c] / divisor;
    }
  }

  /** A positive peak is the magnitude of some value in the signal. */
  lemma {:induction false} PeakAttained(rows: seq<seq<real>>)
    requires Peak(rows) > 0.0
    ensures exists t, c | 0 <= t < |rows| && 0 <= c < |rows[t]| :: Abs(rows[t][c]) == Peak(rows)
  {
    var init := rows[..|rows| - 1];
    var last := rows[|rows| - 1];
    if Peak(rows) == MaxAbs(last) {
      MaxAbsIsLeastBound(last);
      var c :| 0 <= c < |last| && Abs(last[c]) == MaxAbs(last);
      assert Abs(rows[|rows| - 1][c]) == Peak(rows);
    } else {
      PeakAttained(init);
      var t, c :| 0 <= t < |init| && 0 <= c < |init[t]| && Abs(init[t][c]) == Peak(init);
      assert rows[t] == init[t];
    }
  }

  /** n copies of x. */
  function Replicate(x: real, n: nat): (r: seq<real>)
    ensures |r| == n && forall i | 0 <= i < n :: r[i] == x
  {
    seq(n, _ => x)
  }

  /** A frame of equal values has the magnitude of that value as its peak. */
  lemma {:induction false} MaxAbsReplicate(x: real, n: nat)
    requires n >= 1
    ensures MaxAbs(Replicate(x, n)) == Abs(x)
  {
    if n > 1 {
      MaxAbsReplicate(x, n - 1);
      assert Replicate(x, n)[..n - 1] == Replicate(x, n - 1);
    } else {
      assert Replicate(x, n)[..0] == [];
    }
  }

  /** Each frame replaced by `width` copies of the sum of its channels. */
  function MonoSums(rows: seq<seq<real>>, width: nat): (r: seq<seq<real>>)
    ensures |r| == |rows| && Rectangular(r, width)
    ensures forall t, c | 0 <= t < |rows| && 0 <= c < width :: r[t][c] == Sum(rows[t])
  {
    seq(|rows|, t requires 0 <= t < |rows| => Replicate(Sum(rows[t]), width))
  }

  /** The sums of the first `width` channels of two frames. */
  function FrameSums(x: seq<real>, y: seq<real>, width: nat): (r: seq<real>)
    requires |x| >= width && |y| >= width
    ensures |r| == width
  {
    seq(width, c requires 0 <= c < width => x[c] + y[c])
  }

  /** The per-channel sums of two signals, over the first |a| steps. */
  function ChannelSums(a: seq<seq<real>>, b: seq<seq<real>>, width: nat): (r: seq<seq<real>>)
    requires |b| >= |a|
    requires forall t | 0 <= t < |a| :: |a[t]| >= width && |b[t]| >= width
    ensures |r| == |a| && Rectangular(r, width)
    ensures forall t, c | 0 <= t < |a| && 0 <= c < width :: r[t][c] == a[t][c] + b[t][c]
  {
    seq(|a|, t requires 0 <= t < |a| => FrameSums(a[t], b[t], width))
  }

  /** The peak of one more frame: the larger of the old peak and that frame's largest magnitude. */
  lemma PeakExtend(rows: seq<seq<real>>, t: int)
    requires 0 <= t < |rows|
    ensures Peak(rows[..t + 1]) == Max(Peak(rows[..t]), MaxAbs(rows[t]))
  {
    assert rows[..t + 1][..t] == rows[..t];
  }

  /** The largest magnitude of one more amplitude. */
  lemma MaxAbsExtend(xs: seq<real>, i: int)
    requires 0 <= i < |xs|
    ensures MaxAbs(xs[..i + 1]) == Max(MaxAbs(xs[..i]), Abs(xs[i]))
  {
    assert xs[..i + 1][..i] == xs[..i];
  }

  /** The peak of a mono mix over one more step grows to the magnitude of that step's sum. */
  lemma MonoPeakExtend(rows: seq<seq<real>>, width: nat, t: int)
    requires width >= 1 && 0 <= t < |rows|
    ensures Peak(MonoSums(rows, width)[..t + 1]) == Max(Peak(MonoSums(rows, width)[..t]), Abs(Sum(rows[t])))
  {
    PeakExtend(MonoSums(rows, width), t);
    MaxAbsReplicate(Sum(rows[t]), width);
  }

  /** Clamping a frame of copies is copying the clamped value. */
  lemma ClampedReplicate(x: real, n: nat)
    ensures ClampedFrame(Replicate(x, n)) == Replicate(Clamp(x), n)
  {
  }

  /** Mixing a signal down to mono leaves every channel of a frame equal. */
  lemma MonoMixIsMono(rows: seq<seq<real>>, width: nat, allowClipping: bool)
    ensures forall t, c | 0 <= t < |rows| && 0 <= c < width ::
      ClipOrRescale(MonoSums(rows, width), allowClipping)[t][c]
        == ClipOrRescale(MonoSums(rows, width), allowClipping)[t][0]
  {
  }
}
