/**
 * The flag-masked Gaussian log-likelihoods of the fitters and the priors around
 * them. Each observable (visibility amplitude, squared visibility, closure phase,
 * visibility phase, closure amplitude) is a flat list of entries with an error
 * and a flag; a flagged entry is multiplied by (1 - flag) = 0 and so never
 * counts. The residual of an entry is an input here: a squared difference for
 * amplitudes, the circular residual squared for phases in the older fitters, and
 * the chord residual of the multi-source fitter, which is a transcendental
 * function and stays a parameter.
 */
module Likelihood {
  import opened Common
  import Phase

  /** One observable: values, their errors and their flags, entry by entry. */
  datatype Channel = Channel(val: seq<real>, err: seq<real>, flag: seq<bool>)

  predicate WellFormedChannel(c: Channel)
  {
    |c.err| == |c.val| && |c.flag| == |c.val| && forall i :: 0 <= i < |c.err| ==> c.err[i] != 0.0
  }

  /** sq / err^2 keeps the sign of sq, whatever the sign of err. */
  lemma ScaledNonNegative(sq: real, err: real)
    requires err != 0.0
    ensures sq >= 0.0 ==> sq / err / err >= 0.0
  {
    if sq >= 0.0 {
      var q := sq / err;
      if err > 0.0 {
        assert q >= 0.0;
      } else {
        assert q <= 0.0;
      }
    }
  }

  /** The term of one entry: -(residual^2)/err^2 * (1 - flag). */
  function EntryTerm(sq: real, err: real, flag: bool): (t: real)
    requires err != 0.0
    ensures sq >= 0.0 ==> t <= 0.0
    ensures flag ==> t == 0.0
  {
    ScaledNonNegative(sq, err);
    -(sq / err / err) * (if flag then 0.0 else 1.0)
  }

  /** np.sum(-res**2/err**2*(1-flag)) over one observable, given the squared residuals. */
  function MaskedSum(sq: seq<real>, err: seq<real>, flag: seq<bool>): (s: real)
    requires |err| == |sq| && |flag| == |sq| && forall i :: 0 <= i < |err| ==> err[i] != 0.0
    ensures (forall i :: 0 <= i < |sq| ==> sq[i] >= 0.0) ==> s <= 0.0
    ensures (forall i :: 0 <= i < |flag| ==> flag[i]) ==> s == 0.0
  {
    if sq == [] then 0.0
    else EntryTerm(sq[0], err[0], flag[0]) + MaskedSum(sq[1..], err[1..], flag[1..])
  }

  /**
   * Whatever the mismatch at a flagged entry, the sum is the same: two residual
   * lists that agree on every unflagged entry give the same value.
   */
  lemma {:induction false} MaskedSumIgnoresFlagged(a: seq<real>, b: seq<real>, err: seq<real>, flag: seq<bool>)
    requires |a| == |b| && |err| == |a| && |flag| == |a| && forall i :: 0 <= i < |err| ==> err[i] != 0.0
    requires forall i :: 0 <= i < |a| && !flag[i] ==> a[i] == b[i]
    ensures MaskedSum(a, err, flag) == MaskedSum(b, err, flag)
  {
    if a != [] {
      MaskedSumIgnoresFlagged(a[1..], b[1..], err[1..], flag[1..]);
    }
  }

  /** The sum splits at any point, so every entry contributes on its own. */
  lemma {:induction false} MaskedSumSplit(sq: seq<real>, err: seq<real>, flag: seq<bool>, k: nat)
    requires |err| == |sq| && |flag| == |sq| && forall i :: 0 <= i < |err| ==> err[i] != 0.0
    requires k <= |sq|
    ensures MaskedSum(sq, err, flag) == MaskedSum(sq[..k], err[..k], flag[..k]) + MaskedSum(sq[k..], err[k..], flag[k..])
    decreases k
  {
    if k > 0 {
      MaskedSumSplit(sq[1..], err[1..], flag[1..], k - 1);
      assert sq[1..][..k - 1] == sq[..k][1..] && err[1..][..k - 1] == err[..k][1..] && flag[1..][..k - 1] == flag[..k][1..];
      assert sq[1..][k - 1..] == sq[k..] && err[1..][k - 1..] == err[k..] && flag[1..][k - 1..] == flag[k..];
    }
  }

  /** Squared differences, entry by entry: the amplitude residuals. */
  function SquaredDiffs(m: seq<real>, d: seq<real>): (sq: seq<real>)
    requires |m| == |d|
    ensures |sq| == |m| && forall i :: 0 <= i < |m| ==> sq[i] == (m[i] - d[i]) * (m[i] - d[i]) && sq[i] >= 0.0
  {
    seq(|m|, i requires 0 <= i < |m| => (m[i] - d[i]) * (m[i] - d[i]))
  }

  /** Residuals through a given non-negative residual function, squared: the phase residuals. */
  function SquaredResiduals(m: seq<real>, d: seq<real>, res: (real, real) -> real): (sq: seq<real>)
    requires |m| == |d|
    ensures |sq| == |m| && forall i :: 0 <= i < |m| ==> sq[i] == res(m[i], d[i]) * res(m[i], d[i]) && sq[i] >= 0.0
  {
    seq(|m|, i requires 0 <= i < |m| => res(m[i], d[i]) * res(m[i], d[i]))
  }

  /** The square of each entry: the model's squared visibility. */
  function Squares(m: seq<real>): (sq: seq<real>)
    ensures |sq| == |m| && forall i :: 0 <= i < |m| ==> sq[i] == m[i] * m[i]
  {
    seq(|m|, i requires 0 <= i < |m| => m[i] * m[i])
  }

  /** 0.5 * sum_k weight_k * term_k. */
  function HalfWeighted(terms: seq<real>, weights: seq<real>): (s: real)
    requires |weights| == |terms|
    ensures (forall k :: 0 <= k < |terms| ==> terms[k] <= 0.0 && weights[k] >= 0.0) ==> s <= 0.0
  {
    if terms == [] then 0.0
    else
      assert terms[0] <= 0.0 && weights[0] >= 0.0 ==> terms[0] * weights[0] <= 0.0;
      0.5 * (terms[0] * weights[0]) + HalfWeighted(terms[1..], weights[1..])
  }

  /** The data of a fit: the four observables every fitter uses. */
  datatype FitData = FitData(visamp: Channel, vis2: Channel, closure: Channel, visphi: Channel)

  predicate WellFormedData(f: FitData)
  {
    WellFormedChannel(f.visamp) && WellFormedChannel(f.vis2)
    && WellFormedChannel(f.closure) && WellFormedChannel(f.visphi)
  }

  /** A model of the same shape: amplitudes, phases and closure phases, flattened like the data. */
  datatype ModelVis = ModelVis(amp: seq<real>, phi: seq<real>, closure: seq<real>)

  predicate Matches(m: ModelVis, f: FitData)
  {
    WellFormedData(f) && |m.amp| == |f.visamp.val| && |m.amp| == |f.vis2.val|
    && |m.phi| == |f.visphi.val| && |m.closure| == |f.closure.val|
  }

  /** The term of an amplitude observable: squared differences against the model. */
  function AmpTerm(model: seq<real>, c: Channel): (t: real)
    requires WellFormedChannel(c) && |model| == |c.val|
    ensures t <= 0.0
  {
    MaskedSum(SquaredDiffs(model, c.val), c.err, c.flag)
  }

  /** The term of a phase observable: squared residuals through `res`. */
  function PhaseTerm(model: seq<real>, c: Channel, res: (real, real) -> real): (t: real)
    requires WellFormedChannel(c) && |model| == |c.val|
    ensures t <= 0.0
  {
    MaskedSum(SquaredResiduals(model, c.val, res), c.err, c.flag)
  }

  /** The four observable terms, with a given residual for the two phase observables. */
  function Terms(m: ModelVis, f: FitData, res: (real, real) -> real): (t: seq<real>)
    requires Matches(m, f)
    ensures |t| == 4 && forall k :: 0 <= k < 4 ==> t[k] <= 0.0
  {
    [ AmpTerm(m.amp, f.visamp), AmpTerm(Squares(m.amp), f.vis2),
      PhaseTerm(m.closure, f.closure, res), PhaseTerm(m.phi, f.visphi, res) ]
  }

  /**
   * The likelihood of the multi-source fitter: the half-weighted sum of the four
   * terms, the phase terms through the chord residual. With non-negative weights
   * it is never positive.
   */
  function LnLikeMultiStar(m: ModelVis, f: FitData, fitFor: seq<real>, chord: (real, real) -> real): (l: real)
    requires Matches(m, f) && |fitFor| == 4
    ensures (forall k :: 0 <= k < 4 ==> fitFor[k] >= 0.0) ==> l <= 0.0
  {
    HalfWeighted(Terms(m, f, chord), fitFor)
  }

  /** The likelihood of the older multi-source fitter: the same sum, with the circular residual. */
  function LnLikeCircular(m: ModelVis, f: FitData, fitFor: seq<real>): (l: real)
    requires Matches(m, f) && |fitFor| == 4
    ensures (forall k :: 0 <= k < 4 ==> fitFor[k] >= 0.0) ==> l <= 0.0
  {
    HalfWeighted(Terms(m, f, Phase.CircularResidual), fitFor)
  }

  /** The binary fit's likelihood: five terms, the fifth for closure amplitudes, weights fit_for[0..4]. */
  function LnLikeBinary(m: ModelVis, closamp: seq<real>, f: FitData, c: Channel, fitFor: seq<real>): (l: real)
    requires Matches(m, f) && WellFormedChannel(c) && |closamp| == |c.val| && |fitFor| == 5
    ensures (forall k :: 0 <= k < 5 ==> fitFor[k] >= 0.0) ==> l <= 0.0
  {
    HalfWeighted(Terms(m, f, Phase.CircularResidual) + [AmpTerm(closamp, c)], fitFor)
  }

  /** Data sets that differ only at flagged entries are the same data to the likelihood. */
  predicate SameUnflagged(a: Channel, b: Channel)
  {
    a.err == b.err && a.flag == b.flag && |a.val| == |b.val| && |a.flag| == |a.val|
    && forall i :: 0 <= i < |a.val| && !a.flag[i] ==> a.val[i] == b.val[i]
  }

  lemma AmpTermIgnoresFlagged(model: seq<real>, a: Channel, b: Channel)
    requires WellFormedChannel(a) && |model| == |a.val| && SameUnflagged(a, b)
    ensures WellFormedChannel(b) && AmpTerm(model, a) == AmpTerm(model, b)
  {
    MaskedSumIgnoresFlagged(SquaredDiffs(model, a.val), SquaredDiffs(model, b.val), a.err, a.flag);
  }

  lemma PhaseTermIgnoresFlagged(model: seq<real>, a: Channel, b: Channel, res: (real, real) -> real)
    requires WellFormedChannel(a) && |model| == |a.val| && SameUnflagged(a, b)
    ensures WellFormedChannel(b) && PhaseTerm(model, a, res) == PhaseTerm(model, b, res)
  {
    MaskedSumIgnoresFlagged(SquaredResiduals(model, a.val, res), SquaredResiduals(model, b.val, res), a.err, a.flag);
  }

  lemma TermsIgnoreFlagged(m: ModelVis, f: FitData, g: FitData, res: (real, real) -> real)
    requires Matches(m, f) && Matches(m, g)
    requires SameUnflagged(f.visamp, g.visamp) && SameUnflagged(f.vis2, g.vis2)
    requires SameUnflagged(f.closure, g.closure) && SameUnflagged(f.visphi, g.visphi)
    ensures Terms(m, f, res) == Terms(m, g, res)
  {
    AmpTermIgnoresFlagged(m.amp, f.visamp, g.visamp);
    AmpTermIgnoresFlagged(Squares(m.amp), f.vis2, g.vis2);
    PhaseTermIgnoresFlagged(m.closure, f.closure, g.closure, res);
    PhaseTermIgnoresFlagged(m.phi, f.visphi, g.visphi, res);
  }

  /** Any value at a flagged entry, however far from the model, leaves the likelihood unchanged. */
  lemma LnLikeIgnoresFlagged(m: ModelVis, f: FitData, g: FitData, fitFor: seq<real>, chord: (real, real) -> real)
    requires Matches(m, f) && Matches(m, g) && |fitFor| == 4
    requires SameUnflagged(f.visamp, g.visamp) && SameUnflagged(f.vis2, g.vis2)
    requires SameUnflagged(f.closure, g.closure) && SameUnflagged(f.visphi, g.visphi)
    ensures LnLikeMultiStar(m, f, fitFor, chord) == LnLikeMultiStar(m, g, fitFor, chord)
    ensures LnLikeCircular(m, f, fitFor) == LnLikeCircular(m, g, fitFor)
  {
    TermsIgnoreFlagged(m, f, g, chord);
    TermsIgnoreFlagged(m, f, g, Phase.CircularResidual);
  }

  predicate InBox(theta: seq<real>, lower: seq<real>, upper: seq<real>)
    requires |lower| == |theta| && |upper| == |theta|
  {
    forall i :: 0 <= i < |theta| ==> lower[i] <= theta[i] <= upper[i]
  }

  /**
   * The box prior in front of every likelihood: minus infinity as soon as one
   * component is below its lower or above its upper edge, the likelihood itself
   * otherwise.
   */
  function LnProb(theta: seq<real>, lower: seq<real>, upper: seq<real>, like: real): (r: LogProb)
    requires |lower| == |theta| && |upper| == |theta|
    ensures r == NegInf <==> exists i :: 0 <= i < |theta| && (theta[i] < lower[i] || theta[i] > upper[i])
    ensures r != NegInf ==> r == Finite(like)
  {
    if exists i :: 0 <= i < |theta| && (theta[i] < lower[i] || theta[i] > upper[i]) then NegInf
    else Finite(like)
  }

  /** The sum of f over the entries marked in `pick`. */
  function SumWhere(theta: seq<real>, pick: seq<bool>, f: real -> real): real
    requires |pick| == |theta|
  {
    if theta == [] then 0.0
    else (if pick[0] then f(theta[0]) else 0.0) + SumWhere(theta[1..], pick[1..], f)
  }

  /**
   * The prior of the whole-night fit: the same box, and inside it a Gaussian
   * log-density (an input here) summed over the coherence-loss parameters.
   */
  function NightLnPrior(theta: seq<real>, lower: seq<real>, upper: seq<real>, isCoh: seq<bool>, logGauss: real -> real): (r: LogProb)
    requires |lower| == |theta| && |upper| == |theta| && |isCoh| == |theta|
    ensures r == NegInf <==> !InBox(theta, lower, upper)
    ensures r != NegInf ==> r == Finite(SumWhere(theta, isCoh, logGauss))
  {
    if !InBox(theta, lower, upper) then NegInf else Finite(SumWhere(theta, isCoh, logGauss))
  }

  /** Only the coherence-loss parameters enter the Gaussian part. */
  lemma {:induction false} SumWhereOnlyPicked(a: seq<real>, b: seq<real>, pick: seq<bool>, f: real -> real)
    requires |a| == |b| && |pick| == |a|
    requires forall i :: 0 <= i < |a| && pick[i] ==> a[i] == b[i]
    ensures SumWhere(a, pick, f) == SumWhere(b, pick, f)
  {
    if a != [] {
      SumWhereOnlyPicked(a[1..], b[1..], pick[1..], f);
    }
  }

  /** The whole-night log-probability: minus infinity outside the box, prior plus likelihood inside. */
  function NightLnProb(prior: LogProb, like: real): (r: LogProb)
    ensures r == NegInf <==> prior == NegInf
    ensures prior.Finite? ==> r.Finite? && r.v - like == prior.v
  {
    if prior.NegInf? then NegInf else Finite(prior.v + like)
  }

  /** The number of flagged entries: np.sum(flag). */
  function CountFlagged(flag: seq<bool>): (n: nat)
    ensures n <= |flag|
  {
    if flag == [] then 0 else (if flag[0] then 1 else 0) + CountFlagged(flag[1..])
  }

  /**
   * Reduced chi^2 of one observable: the chi^2 sum over the unflagged entries
   * divided by (size - #flagged - ndof). A zero denominator is numpy's inf or
   * nan, None here.
   */
  function ReducedChi2(sq: seq<real>, err: seq<real>, flag: seq<bool>, ndof: int): (r: Option<real>)
    requires |err| == |sq| && |flag| == |sq| && forall i :: 0 <= i < |err| ==> err[i] != 0.0
    ensures r.Some? <==> |sq| - CountFlagged(flag) - ndof != 0
    ensures r.Some? ==> r.value * (|sq| - CountFlagged(flag) - ndof) as real == -MaskedSum(sq, err, flag)
    ensures r.Some? && (forall i :: 0 <= i < |sq| ==> sq[i] >= 0.0) && |sq| - CountFlagged(flag) - ndof > 0 ==> r.value >= 0.0
  {
    var denom := |sq| - CountFlagged(flag) - ndof;
    if denom == 0 then None else Some(-MaskedSum(sq, err, flag) / denom as real)
  }

  /** Flagging more entries never raises the unflagged count the denominator is built on. */
  lemma {:induction false} CountFlaggedMonotone(a: seq<bool>, b: seq<bool>)
    requires |a| == |b| && forall i :: 0 <= i < |a| && a[i] ==> b[i]
    ensures CountFlagged(a) <= CountFlagged(b)
  {
    if a != [] {
      CountFlaggedMonotone(a[1..], b[1..]);
    }
  }

  /** The uniform branch of the nested-sampling prior transform: [0, 1] onto [mean - width, mean + width]. */
  function UniformPrior(u: real, mean: real, width: real): (x: real)
    ensures width >= 0.0 && 0.0 <= u <= 1.0 ==> mean - width <= x <= mean + width
    ensures u == 0.0 ==> x == mean - width
    ensures u == 1.0 ==> x == mean + width
  {
    assert width >= 0.0 && 0.0 <= u <= 1.0 ==> 0.0 <= u * width <= width by {
      if width >= 0.0 && 0.0 <= u <= 1.0 {
        assert (1.0 - u) * width >= 0.0;
      }
    }
    u * width * 2.0 + (mean - width)
  }

  /** The uniform branch is order-preserving for a non-negative width. */
  lemma UniformPriorMonotone(u1: real, u2: real, mean: real, width: real)
    requires u1 <= u2 && width >= 0.0
    ensures UniformPrior(u1, mean, width) <= UniformPrior(u2, mean, width)
  {
    assert (u2 - u1) * width >= 0.0;
  }

  /**
   * The prior transform: a copy of the unit-cube point, overwritten entry by
   * entry, through the Gaussian quantile function `ppf` (an input here) where
   * `gprior` is set and through the uniform map otherwise.
   */
  method PriorTransform(u: seq<real>, gprior: seq<bool>, mean: seq<real>, width: seq<real>, ppf: (real, real, real) -> real)
    returns (v: seq<real>)
    requires |gprior| == |u| && |mean| == |u| && |width| == |u|
    ensures |v| == |u|
    ensures forall i :: 0 <= i < |u| ==> v[i] == if gprior[i] then ppf(u[i], mean[i], width[i]) else UniformPrior(u[i], mean[i], width[i])
  {
    v := u;
    var idx := 0;
    while idx < |v|
      invariant 0 <= idx <= |v| && |v| == |u|
      invariant forall i :: 0 <= i < idx ==> v[i] == if gprior[i] then ppf(u[i], mean[i], width[i]) else UniformPrior(u[i], mean[i], width[i])
      invariant forall i :: idx <= i < |v| ==> v[i] == u[i]
    {
      if gprior[idx] {
        v := v[idx := ppf(v[idx], mean[idx], width[idx])];
      } else {
        v := v[idx := v[idx] * width[idx] * 2.0 + (mean[idx] - width[idx])];
      }
      idx := idx + 1;
    }
  }

  /** A unit-cube point whose uniform coordinates stay in [0, 1] lands inside the box [mean - width, mean + width]. */
  lemma PriorTransformInBox(u: seq<real>, gprior: seq<bool>, mean: seq<real>, width: seq<real>, ppf: (real, real, real) -> real, v: seq<real>)
    requires |gprior| == |u| && |mean| == |u| && |width| == |u| && |v| == |u|
    requires forall i :: 0 <= i < |u| ==> v[i] == if gprior[i] then ppf(u[i], mean[i], width[i]) else UniformPrior(u[i], mean[i], width[i])
    requires forall i :: 0 <= i < |u| ==> 0.0 <= u[i] <= 1.0 && width[i] >= 0.0 && !gprior[i]
    ensures InBox(v, seq(|u|, i requires 0 <= i < |u| => mean[i] - width[i]), seq(|u|, i requires 0 <= i < |u| => mean[i] + width[i]))
  {
  }

  /**
   * Half the sum of -sq/err^2*(1-flag) over the entries whose term is a number:
   * `nan` marks the entries numpy drops as NaN. A dropped or flagged entry adds
   * nothing, so only the errors of the other entries have to be non-zero (a zero
   * error on a flagged entry gives 0/0 or inf*0, which is NaN and dropped too).
   */
  function KeptSum(sq: seq<real>, c: Channel, nan: seq<bool>): (l: real)
    requires |c.err| == |c.val| && |c.flag| == |c.val| && |sq| == |c.val| && |nan| == |sq|
    requires forall i :: 0 <= i < |sq| && !c.flag[i] && !nan[i] ==> c.err[i] != 0.0
    ensures (forall i :: 0 <= i < |sq| ==> sq[i] >= 0.0) ==> l <= 0.0
  {
    var dropped := seq(|sq|, i requires 0 <= i < |sq| => c.flag[i] || nan[i]);
    var err := seq(|sq|, i requires 0 <= i < |sq| => if dropped[i] then 1.0 else c.err[i]);
    0.5 * MaskedSum(sq, err, dropped)
  }

  /** Two square lists that agree on every kept entry give the same kept sum. */
  lemma KeptSumIgnoresDropped(a: seq<real>, b: seq<real>, c: Channel, nan: seq<bool>)
    requires |c.err| == |c.val| && |c.flag| == |c.val| && |a| == |c.val| && |b| == |a| && |nan| == |a|
    requires forall i :: 0 <= i < |a| && !c.flag[i] && !nan[i] ==> c.err[i] != 0.0
    requires forall i :: 0 <= i < |a| && !c.flag[i] && !nan[i] ==> a[i] == b[i]
    ensures KeptSum(a, c, nan) == KeptSum(b, c, nan)
  {
    var n := |a|;
    var dropped := seq(n, i requires 0 <= i < n => c.flag[i] || nan[i]);
    var err := seq(n, i requires 0 <= i < n => if dropped[i] then 1.0 else c.err[i]);
    MaskedSumIgnoresFlagged(a, b, err, dropped);
  }

  /** The unary fit's squares as written, with the NaN entries set aside. */
  function UnarySquares(m: seq<real>, d: seq<real>, nan: seq<bool>): (sq: seq<real>)
    requires |d| == |m| && |nan| == |m|
    ensures |sq| == |m|
    ensures forall i :: 0 <= i < |m| ==> sq[i] >= 0.0 && (!nan[i] ==> sq[i] == Phase.UnarySquareAsWritten(m[i], d[i]))
  {
    seq(|m|, i requires 0 <= i < |m| => if nan[i] then 0.0 else Phase.UnarySquareAsWritten(m[i], d[i]))
  }

  /** The corrected, folded squares, with the NaN entries set aside. */
  function FoldedSquares(m: seq<real>, d: seq<real>, nan: seq<bool>): (sq: seq<real>)
    requires |d| == |m| && |nan| == |m|
    ensures |sq| == |m|
    ensures forall i :: 0 <= i < |m| && !nan[i] ==> sq[i] == Phase.UnarySquare(m[i], d[i])
    ensures forall i :: 0 <= i < |m| ==> sq[i] >= 0.0
  {
    var sq := seq(|m|, i requires 0 <= i < |m| => if nan[i] then 0.0 else Phase.UnarySquare(m[i], d[i]));
    assert forall i :: 0 <= i < |m| ==> sq[i] >= 0.0 by {
      forall i | 0 <= i < |m| ensures sq[i] >= 0.0 {
        if !nan[i] {
          var r := Phase.CircularResidual(m[i], d[i]);
          assert sq[i] == r * r;
        }
      }
    }
    sq
  }

  /**
   * The unary fit's likelihood as written: half the sum of
   * -min(d^2, (360-d)^2)/err^2*(1-flag) with the signed difference d, over the
   * entries whose term is a number.
   */
  function UnaryLnLike(m: seq<real>, c: Channel, nan: seq<bool>): (l: real)
    requires |c.err| == |c.val| && |c.flag| == |c.val| && |m| == |c.val| && |nan| == |m|
    requires forall i :: 0 <= i < |m| && !c.flag[i] && !nan[i] ==> c.err[i] != 0.0
    ensures l <= 0.0
  {
    KeptSum(UnarySquares(m, c.val, nan), c, nan)
  }

  /** The corrected unary likelihood: the same sum over the folded squares. */
  function UnaryLnLikeFolded(m: seq<real>, c: Channel, nan: seq<bool>): (l: real)
    requires |c.err| == |c.val| && |c.flag| == |c.val| && |m| == |c.val| && |nan| == |m|
    requires forall i :: 0 <= i < |m| && !c.flag[i] && !nan[i] ==> c.err[i] != 0.0
    ensures l <= 0.0
  {
    KeptSum(FoldedSquares(m, c.val, nan), c, nan)
  }

  /** A NaN or flagged entry drops out: whatever the model says there, neither unary likelihood changes. */
  lemma UnaryLnLikeDropsNaN(m1: seq<real>, m2: seq<real>, c: Channel, nan: seq<bool>)
    requires |c.err| == |c.val| && |c.flag| == |c.val| && |m1| == |c.val| && |m2| == |m1| && |nan| == |m1|
    requires forall i :: 0 <= i < |m1| && !c.flag[i] && !nan[i] ==> c.err[i] != 0.0
    requires forall i :: 0 <= i < |m1| && !nan[i] && !c.flag[i] ==> m1[i] == m2[i]
    ensures UnaryLnLike(m1, c, nan) == UnaryLnLike(m2, c, nan)
    ensures UnaryLnLikeFolded(m1, c, nan) == UnaryLnLikeFolded(m2, c, nan)
  {
    KeptSumIgnoresDropped(UnarySquares(m1, c.val, nan), UnarySquares(m2, c.val, nan), c, nan);
    KeptSumIgnoresDropped(FoldedSquares(m1, c.val, nan), FoldedSquares(m2, c.val, nan), c, nan);
  }

  /**
   * The two likelihoods agree whenever every kept model phase lies at or above
   * its data phase, within a turn: the signed fold is only wrong below the data.
   */
  lemma UnaryLnLikeAgreesAboveData(m: seq<real>, c: Channel, nan: seq<bool>)
    requires |c.err| == |c.val| && |c.flag| == |c.val| && |m| == |c.val| && |nan| == |m|
    requires forall i :: 0 <= i < |m| && !c.flag[i] && !nan[i] ==> c.err[i] != 0.0
    requires forall i :: 0 <= i < |m| && !c.flag[i] && !nan[i] ==> 0.0 <= m[i] - c.val[i] <= 360.0
    ensures UnaryLnLike(m, c, nan) == UnaryLnLikeFolded(m, c, nan)
  {
    var a := UnarySquares(m, c.val, nan);
    var b := FoldedSquares(m, c.val, nan);
    forall i | 0 <= i < |m| && !c.flag[i] && !nan[i]
      ensures a[i] == b[i]
    {
      Phase.UnarySquareCorrected(m[i], c.val[i]);
    }
    KeptSumIgnoresDropped(a, b, c, nan);
  }

  /**
   * Finding, on the likelihood: one unflagged entry with model 0, data 350 and
   * error 1 gives -61250 as written, where the folded residual of 10 degrees
   * gives -50.
   */
  lemma UnaryLnLikeBelowDataExample()
    ensures UnaryLnLike([0.0], Channel([350.0], [1.0], [false]), [false]) == -61250.0
    ensures UnaryLnLikeFolded([0.0], Channel([350.0], [1.0], [false]), [false]) == -50.0
  {
    Phase.UnaryResidualAsymmetric();
    var c := Channel([350.0], [1.0], [false]);
    var a := UnarySquares([0.0], c.val, [false]);
    var b := FoldedSquares([0.0], c.val, [false]);
    assert a == [122500.0];
    assert b == [100.0];
    var err := seq(1, i requires 0 <= i < 1 => if c.flag[i] || false then 1.0 else c.err[i]);
    assert err == [1.0];
  }
}
