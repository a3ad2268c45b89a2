/**
 * Phase algebra of the model visibilities: the single-step wrap into
 * [-180, 180] degrees, closure phases and closure amplitudes over the four
 * telescope triangles, the per-baseline coherence-loss factors, and the
 * residuals the likelihoods take between a model phase and a measured one.
 *
 * A table of visibilities is a sequence of rows, one per baseline (six) or
 * per triangle (four), each row holding one value per spectral channel.
 */
module Phase {

  function Abs(x: real): real
  {
    if x < 0.0 then -x else x
  }

  function Min(a: real, b: real): real
  {
    if a <= b then a else b
  }

  /** `x + 360*(x < -180) - 360*(x > 180)`: one wrap step, no loop. */
  function Wrap(x: real): (w: real)
    ensures w == x || w == x + 360.0 || w == x - 360.0
    ensures -540.0 <= x <= 540.0 ==> -180.0 <= w <= 180.0
    ensures -180.0 <= x <= 180.0 ==> w == x
  {
    if x < -180.0 then x + 360.0 else if x > 180.0 then x - 360.0 else x
  }

  /** On the range it is meant for, wrapping twice is wrapping once. */
  lemma WrapIdempotent(x: real)
    requires -540.0 <= x <= 540.0
    ensures Wrap(Wrap(x)) == Wrap(x)
  {
  }

  /** A single step is not enough beyond three half-turns: 600 stays above 180. */
  lemma WrapSingleStep()
    ensures Wrap(600.0) == 240.0 && Wrap(-600.0) == -240.0
  {
  }

  /** A table of `rows` rows of `width` channels each. */
  predicate Table(t: seq<seq<real>>, rows: nat, width: nat)
  {
    |t| == rows && forall i :: 0 <= i < rows ==> |t[i]| == width
  }

  /** The bispectrum index table: four triangles, each three baseline rows in 0..5. */
  predicate BispecTable(b: seq<seq<int>>)
  {
    |b| == 4 && forall i :: 0 <= i < 4 ==> |b[i]| == 3 && forall k :: 0 <= k < 3 ==> 0 <= b[i][k] < 6
  }

  predicate InHalfTurn(t: seq<seq<real>>)
  {
    forall i, w :: 0 <= i < |t| && 0 <= w < |t[i]| ==> -180.0 <= t[i][w] <= 180.0
  }

  /** Closure phase of triangle `b` at channel w: + phi[b0] + phi[b1] - phi[b2], not yet wrapped. */
  function ClosureSum(phi: seq<seq<real>>, b: seq<int>, w: nat): (c: real)
    requires |phi| == 6 && Table(phi, 6, |phi[0]|) && |b| == 3 && (forall k :: 0 <= k < 3 ==> 0 <= b[k] < 6) && w < |phi[0]|
    ensures InHalfTurn(phi) ==> -540.0 <= c <= 540.0
  {
    phi[b[0]][w] + phi[b[1]][w] - phi[b[2]][w]
  }

  /** Closure amplitude of triangle `b` at channel w: the product of the three amplitudes. */
  function ClosureProduct(amp: seq<seq<real>>, b: seq<int>, w: nat): real
    requires |amp| == 6 && Table(amp, 6, |amp[0]|) && |b| == 3 && (forall k :: 0 <= k < 3 ==> 0 <= b[k] < 6) && w < |amp[0]|
  {
    amp[b[0]][w] * amp[b[1]][w] * amp[b[2]][w]
  }

  /** Closure amplitudes of non-negative amplitudes are non-negative, and so is any reordering of the triangle. */
  lemma ClosureProductProperties(amp: seq<seq<real>>, b: seq<int>, w: nat)
    requires |amp| == 6 && Table(amp, 6, |amp[0]|) && |b| == 3 && (forall k :: 0 <= k < 3 ==> 0 <= b[k] < 6) && w < |amp[0]|
    requires forall i, x :: 0 <= i < 6 && 0 <= x < |amp[0]| ==> amp[i][x] >= 0.0
    ensures ClosureProduct(amp, b, w) >= 0.0
    ensures ClosureProduct(amp, [b[1], b[2], b[0]], w) == ClosureProduct(amp, b, w)
    ensures ClosureProduct(amp, [b[1], b[0], b[2]], w) == ClosureProduct(amp, b, w)
  {
    var x, y, z := amp[b[0]][w], amp[b[1]][w], amp[b[2]][w];
    assert x * y >= 0.0;
    assert x * y * z == y * z * x == y * x * z;
  }

  /**
   * The tail of the model computation shared by the three fitters: closure
   * phases of the unwrapped baseline phases (and, for the binary fit, closure
   * amplitudes), then the wrap of phases and closures.
   */
  method Closures(visamp: seq<seq<real>>, visphi: seq<seq<real>>, bispec: seq<seq<int>>)
    returns (phi: seq<seq<real>>, closure: seq<seq<real>>, closamp: seq<seq<real>>)
    requires |visphi| == 6 && Table(visphi, 6, |visphi[0]|) && Table(visamp, 6, |visphi[0]|)
    requires BispecTable(bispec) && InHalfTurn(visphi)
    ensures Table(closure, 4, |visphi[0]|) && Table(closamp, 4, |visphi[0]|)
    ensures forall i, w :: 0 <= i < 4 && 0 <= w < |visphi[0]| ==>
      closure[i][w] == Wrap(ClosureSum(visphi, bispec[i], w)) && -180.0 <= closure[i][w] <= 180.0
    ensures forall i, w :: 0 <= i < 4 && 0 <= w < |visphi[0]| ==>
      closamp[i][w] == ClosureProduct(visamp, bispec[i], w)
    ensures phi == visphi
  {
    var width := |visphi[0]|;
    closure, closamp := [], [];
    var idx := 0;
    while idx < 4
      invariant 0 <= idx <= 4
      invariant Table(closure, idx, width) && Table(closamp, idx, width)
      invariant forall i, w :: 0 <= i < idx && 0 <= w < width ==>
        closure[i][w] == ClosureSum(visphi, bispec[i], w) && closamp[i][w] == ClosureProduct(visamp, bispec[i], w)
    {
      var b := bispec[idx];
      closure := closure + [seq(width, w requires 0 <= w < width => ClosureSum(visphi, b, w))];
      closamp := closamp + [seq(width, w requires 0 <= w < width => ClosureProduct(visamp, b, w))];
      idx := idx + 1;
    }
    phi := WrapRows(visphi);
    closure := WrapRows(closure);
  }

  /** The vectorised wrap, row by row. */
  method WrapRows(t: seq<seq<real>>) returns (r: seq<seq<real>>)
    ensures |r| == |t| && forall i :: 0 <= i < |t| ==> |r[i]| == |t[i]|
    ensures forall i, w :: 0 <= i < |t| && 0 <= w < |t[i]| ==> r[i][w] == Wrap(t[i][w])
    ensures InHalfTurn(t) ==> r == t
  {
    r := [];
    var i := 0;
    while i < |t|
      invariant 0 <= i <= |t| && |r| == i
      invariant forall j :: 0 <= j < i ==> |r[j]| == |t[j]|
      invariant forall j, w :: 0 <= j < i && 0 <= w < |t[j]| ==> r[j][w] == Wrap(t[j][w])
      invariant InHalfTurn(t) ==> r == t[..i]
    {
      var row := t[i];
      var wrapped := seq(|row|, w requires 0 <= w < |row| => Wrap(row[w]));
      if InHalfTurn(t) {
        assert wrapped == row;
        assert t[..i + 1] == t[..i] + [row];
      }
      r := r + [wrapped];
      i := i + 1;
    }
    assert t[..|t|] == t;
  }

  /**
   * The multi-source model of the single-night fit: closures from the unwrapped
   * phases, the wraps, and only then the coherence-loss factor `coh[i]` on
   * amplitude row i. Phases and closures never see the factors.
   */
  method FinishMultiStar(visamp: seq<seq<real>>, visphi: seq<seq<real>>, bispec: seq<seq<int>>, coh: seq<real>)
    returns (amp: seq<seq<real>>, phi: seq<seq<real>>, closure: seq<seq<real>>)
    requires |visphi| == 6 && Table(visphi, 6, |visphi[0]|) && Table(visamp, 6, |visphi[0]|) && |coh| == 6
    requires BispecTable(bispec) && InHalfTurn(visphi)
    ensures Table(amp, 6, |visphi[0]|) && phi == visphi && Table(closure, 4, |visphi[0]|)
    ensures forall i, w :: 0 <= i < 4 && 0 <= w < |visphi[0]| ==>
      closure[i][w] == Wrap(ClosureSum(visphi, bispec[i], w))
    ensures forall i, w :: 0 <= i < 6 && 0 <= w < |visphi[0]| ==> amp[i][w] == visamp[i][w] * coh[i]
  {
    var closamp;
    phi, closure, closamp := Closures(visamp, visphi, bispec);
    var width := |visphi[0]|;
    amp := [];
    var i := 0;
    while i < 6
      invariant 0 <= i <= 6 && Table(amp, i, width)
      invariant forall j, w :: 0 <= j < i && 0 <= w < width ==> amp[j][w] == visamp[j][w] * coh[j]
    {
      var row, c := visamp[i], coh[i];
      amp := amp + [seq(width, w requires 0 <= w < width => row[w] * c)];
      i := i + 1;
    }
  }

  /**
   * The folded phase residual of the older fitters: |m - d| when that is
   * smaller in magnitude than 360 - |m - d|, else 360 - |m - d|.
   */
  function CircularResidual(m: real, d: real): (r: real)
    ensures Abs(m - d) <= 360.0 ==> r == Min(Abs(m - d), 360.0 - Abs(m - d)) && 0.0 <= r <= 180.0
  {
    var r1 := Abs(m - d);
    var r2 := 360.0 - Abs(m - d);
    if Abs(r1) < Abs(r2) then r1 else r2
  }

  /** The residual does not care which side is the model, nor about a full turn added to a model below the data. */
  lemma CircularResidualSymmetric(m: real, d: real)
    ensures CircularResidual(m, d) == CircularResidual(d, m)
    ensures -360.0 <= m - d <= 0.0 ==> CircularResidual(m + 360.0, d) == CircularResidual(m, d)
  {
    assert Abs(m - d) == Abs(d - m);
  }

  /** Phases a full turn apart are no residual at all; half a turn apart is the worst case. */
  lemma CircularResidualTurns(d: real)
    ensures CircularResidual(d + 360.0, d) == 0.0
    ensures CircularResidual(d + 180.0, d) == 180.0
    ensures CircularResidual(d, d) == 0.0
  {
  }

  /** The squared phase residual of the unary fit as written: min(d^2, (360 - d)^2) with signed d. */
  function UnarySquareAsWritten(m: real, d: real): (r: real)
    ensures r >= 0.0
    ensures r <= (m - d) * (m - d)
  {
    Min((m - d) * (m - d), (360.0 - (m - d)) * (360.0 - (m - d)))
  }

  /** The folded square the unary fit evidently means: the circular residual, squared. */
  function UnarySquare(m: real, d: real): (r: real)
    ensures Abs(m - d) <= 360.0 ==> 0.0 <= r <= 180.0 * 180.0
  {
    var c := CircularResidual(m, d);
    HalfTurnSquare(c);
    c * c
  }

  /**
   * Finding: with signed d the fold only works one way. A model 350 degrees
   * below the data counts as 350 degrees off, while 350 degrees above counts
   * as 10; the folded residual gives 10 both ways.
   */
  lemma UnaryResidualAsymmetric()
    ensures UnarySquareAsWritten(0.0, 350.0) == 122500.0
    ensures UnarySquareAsWritten(350.0, 0.0) == 100.0
    ensures UnarySquare(0.0, 350.0) == 100.0 && UnarySquare(350.0, 0.0) == 100.0
  {
  }

  /**
   * The corrected square is symmetric in model and data and agrees with the
   * code as written whenever the model lies at or above the data, within a turn.
   */
  lemma UnarySquareCorrected(m: real, d: real)
    requires Abs(m - d) <= 360.0
    ensures UnarySquare(m, d) == UnarySquare(d, m)
    ensures 0.0 <= m - d ==> UnarySquare(m, d) == UnarySquareAsWritten(m, d)
  {
    CircularResidualSymmetric(m, d);
    var x := m - d;
    if 0.0 <= x {
      if x <= 180.0 {
        assert x * x <= (360.0 - x) * (360.0 - x) by {
          assert 360.0 - x >= x;
          MulMono(x, 360.0 - x);
        }
      } else {
        assert (360.0 - x) * (360.0 - x) <= x * x by {
          assert x >= 360.0 - x >= 0.0;
          MulMono(360.0 - x, x);
        }
      }
    }
  }

  lemma HalfTurnSquare(c: real)
    ensures 0.0 <= c <= 180.0 ==> 0.0 <= c * c <= 180.0 * 180.0
  {
    if 0.0 <= c <= 180.0 {
      MulMono(c, 180.0);
    }
  }

  lemma MulMono(a: real, b: real)
    requires 0.0 <= a <= b
    ensures a * a <= b * b
  {
    assert a * a <= a * b;
    assert a * b <= b * b;
  }
}
