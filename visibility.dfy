/**
 * The per-baseline bookkeeping of the point-source visibility model. The band
 * integrated kernels (sinc approximation, incomplete gamma, quadrature) are
 * transcendental and enter as given complex values; what is modelled is the
 * mode dispatch, the projected offsets each kernel is evaluated at, and the
 * accumulation of the numerator and the two denominators over the sources.
 */
module Visibility {
  import opened Common
  import MultiStar

  datatype Complex = Complex(re: real, im: real)

  const Zero := Complex(0.0, 0.0)

  function Add(a: Complex, b: Complex): Complex
  {
    Complex(a.re + b.re, a.im + b.im)
  }

  function Scale(k: real, a: Complex): Complex
  {
    Complex(k * a.re, k * a.im)
  }

  datatype FitMode = Approx | Analytic | Numeric

  function ModeName(m: FitMode): string
  {
    match m
    case Approx => "approx"
    case Analytic => "analytic"
    case Numeric => "numeric"
  }

  /** The fit mode named by a string; anything but the three names is an error. */
  function ParseFitMode(s: string): (r: Result<FitMode>)
    ensures r.Ok? <==> s == "approx" || s == "analytic" || s == "numeric"
    ensures r.Ok? ==> ModeName(r.value) == s
    ensures r.Err? ==> r.error == UnknownFitMode
  {
    if s == "approx" then Ok(Approx)
    else if s == "analytic" then Ok(Analytic)
    else if s == "numeric" then Ok(Numeric)
    else Err(UnknownFitMode)
  }

  lemma ParseModeName(m: FitMode)
    ensures ParseFitMode(ModeName(m)) == Ok(m)
  {
  }

  /**
   * The kernel dispatch: the output of the kernel the mode names; an unknown
   * mode raises. The three kernel outputs are inputs.
   */
  function IndVisibility(mode: string, approx: Complex, analytic: Complex, numeric: Complex): (r: Result<Complex>)
    ensures r.Err? <==> ParseFitMode(mode).Err?
    ensures r.Err? ==> r.error == UnknownFitMode
    ensures mode == "approx" ==> r == Ok(approx)
    ensures mode == "analytic" ==> r == Ok(analytic)
    ensures mode == "numeric" ==> r == Ok(numeric)
  {
    match ParseFitMode(mode)
    case Err(e) => Err(e)
    case Ok(m) =>
      match m
      case Approx => Ok(approx)
      case Analytic => Ok(analytic)
      case Numeric => Ok(numeric)
  }

  /** The projected offset of a sky position on one baseline: (ra*u + dec*v) times the unit conversion. */
  function Offset(ra: real, dec: real, u: real, v: real, scale: real): real
  {
    (ra * u + dec * v) * scale
  }

  /** The phase-map delay subtracted from an offset: (pha0 - pha1)/360 * wave. */
  function Delay(pha0: real, pha1: real, wave: real): real
  {
    (pha0 - pha1) / 360.0 * wave
  }

  /**
   * The phase-map phases of one baseline at its two telescopes: for the phase
   * centre and for each source. They are looked up outside this model.
   */
  datatype MapPhases = MapPhases(centre: (real, real), sources: seq<(real, real)>)

  /** The delay on one channel for the pair of phases `p`, or none without phase maps. */
  function MapDelay(pm: Option<MapPhases>, p: (real, real), wave: real): real
  {
    if pm.Some? then Delay(p.0, p.1, wave) else 0.0
  }

  /** The two sky coordinates of source k in the multi-source layout: [0, 1] for k = 0, [3k-1, 3k] after. */
  function SourcePosition(theta: seq<real>, n: nat, k: nat): (p: (real, real))
    requires |theta| == MultiStar.ThetaLength(n) && k < n
    ensures k == 0 ==> p == (theta[0], theta[1])
    ensures k > 0 ==> p == (theta[3 * k - 1], theta[3 * k])
  {
    if k == 0 then (theta[0], theta[1]) else (theta[3 * k - 1], theta[3 * k])
  }

  /**
   * The offsets of the central source and of each companion on one baseline and
   * one channel of wavelength `wave`: the central source sits at the phase
   * centre, companion k at its position plus the phase centre; with phase maps
   * each offset is reduced by the delay of its own map phases.
   */
  function Offsets(theta: seq<real>, n: nat, u: real, v: real, scale: real, wave: real, pm: Option<MapPhases>): (o: (real, seq<real>))
    requires |theta| == MultiStar.ThetaLength(n)
    requires pm.Some? ==> |pm.value.sources| == n
    ensures |o.1| == n
    ensures pm.None? ==> o.0 == Offset(theta[MultiStar.ThRest(n) + 2], theta[MultiStar.ThRest(n) + 3], u, v, scale)
    ensures pm.Some? ==>
      o.0 == Offset(theta[MultiStar.ThRest(n) + 2], theta[MultiStar.ThRest(n) + 3], u, v, scale) - Delay(pm.value.centre.0, pm.value.centre.1, wave)
    ensures forall k :: 0 <= k < n && pm.None? ==>
      o.1[k] == Offset(SourcePosition(theta, n, k).0 + theta[MultiStar.ThRest(n) + 2], SourcePosition(theta, n, k).1 + theta[MultiStar.ThRest(n) + 3], u, v, scale)
    ensures forall k :: 0 <= k < n && pm.Some? ==>
      o.1[k] == Offset(SourcePosition(theta, n, k).0 + theta[MultiStar.ThRest(n) + 2], SourcePosition(theta, n, k).1 + theta[MultiStar.ThRest(n) + 3], u, v, scale)
        - Delay(pm.value.sources[k].0, pm.value.sources[k].1, wave)
  {
    var r := MultiStar.ThRest(n);
    var centre := if pm.Some? then pm.value.centre else (0.0, 0.0);
    (Offset(theta[r + 2], theta[r + 3], u, v, scale) - MapDelay(pm, centre, wave),
     seq(n, k requires 0 <= k < n =>
       var p := if pm.Some? then pm.value.sources[k] else (0.0, 0.0);
       Offset(SourcePosition(theta, n, k).0 + theta[r + 2], SourcePosition(theta, n, k).1 + theta[r + 3], u, v, scale) - MapDelay(pm, p, wave)))
  }

  /**
   * A companion exactly at the phase centre has the central source's offset on
   * every baseline, provided its map phases are those of the phase centre.
   */
  lemma CentredSourceSharesOffset(theta: seq<real>, n: nat, k: nat, u: real, v: real, scale: real, wave: real, pm: Option<MapPhases>)
    requires |theta| == MultiStar.ThetaLength(n) && k < n
    requires pm.Some? ==> |pm.value.sources| == n && pm.value.sources[k] == pm.value.centre
    requires SourcePosition(theta, n, k) == (0.0, 0.0)
    ensures Offsets(theta, n, u, v, scale, wave, pm).1[k] == Offsets(theta, n, u, v, scale, wave, pm).0
  {
  }

  /**
   * A companion's offset relative to the central source does not depend on the
   * phase centre: it is its own projected position, less the difference of the
   * two map delays.
   */
  lemma RelativeOffset(theta: seq<real>, n: nat, k: nat, u: real, v: real, scale: real, wave: real, pm: Option<MapPhases>)
    requires |theta| == MultiStar.ThetaLength(n) && k < n
    requires pm.Some? ==> |pm.value.sources| == n
    ensures pm.None? ==>
      Offsets(theta, n, u, v, scale, wave, pm).1[k] - Offsets(theta, n, u, v, scale, wave, pm).0
      == Offset(SourcePosition(theta, n, k).0, SourcePosition(theta, n, k).1, u, v, scale)
    ensures pm.Some? ==>
      Offsets(theta, n, u, v, scale, wave, pm).1[k] - Offsets(theta, n, u, v, scale, wave, pm).0
      == Offset(SourcePosition(theta, n, k).0, SourcePosition(theta, n, k).1, u, v, scale)
         - (Delay(pm.value.sources[k].0, pm.value.sources[k].1, wave) - Delay(pm.value.centre.0, pm.value.centre.1, wave))
  {
    var r := MultiStar.ThRest(n);
    var p := SourcePosition(theta, n, k);
    var pr, pd := theta[r + 2], theta[r + 3];
    calc {
      Offset(p.0 + pr, p.1 + pd, u, v, scale) - Offset(pr, pd, u, v, scale);
      ((p.0 + pr) * u + (p.1 + pd) * v) * scale - (pr * u + pd * v) * scale;
      { assert (p.0 + pr) * u + (p.1 + pd) * v == (p.0 * u + p.1 * v) + (pr * u + pd * v); }
      Offset(p.0, p.1, u, v, scale);
    }
  }

  /** The root fitter's layout: source k at [3k, 3k+1, 3k+2], then alpha, background, phase centre. */
  function RootThetaLength(n: nat): nat
  {
    3 * n + 4
  }

  /**
   * The phase centre the root fitter uses: (0, 0) when phases are not fitted
   * (fit_for[3] == 0), the parameters otherwise; an object without fit_for keeps
   * the parameters.
   */
  function RootPhaseCentre(theta: seq<real>, n: nat, fitFor: Option<seq<real>>): (pc: (real, real))
    requires |theta| == RootThetaLength(n)
    requires fitFor.Some? ==> |fitFor.value| == 4
    ensures fitFor.Some? && fitFor.value[3] == 0.0 ==> pc == (0.0, 0.0)
    ensures (fitFor.None? || fitFor.value[3] != 0.0) ==> pc == (theta[3 * n + 2], theta[3 * n + 3])
  {
    if fitFor.Some? && fitFor.value[3] == 0.0 then (0.0, 0.0) else (theta[3 * n + 2], theta[3 * n + 3])
  }

  /**
   * The root fitter's offsets on one baseline and one channel: the central
   * source at the phase centre, source k at theta[3k], theta[3k+1] from it, each
   * reduced by its map delay when phase maps are used.
   */
  function RootOffsets(theta: seq<real>, n: nat, fitFor: Option<seq<real>>, u: real, v: real, scale: real, wave: real, pm: Option<MapPhases>): (o: (real, seq<real>))
    requires |theta| == RootThetaLength(n)
    requires fitFor.Some? ==> |fitFor.value| == 4
    requires pm.Some? ==> |pm.value.sources| == n
    ensures |o.1| == n
    ensures pm.None? ==> o.0 == Offset(RootPhaseCentre(theta, n, fitFor).0, RootPhaseCentre(theta, n, fitFor).1, u, v, scale)
    ensures pm.Some? ==>
      o.0 == Offset(RootPhaseCentre(theta, n, fitFor).0, RootPhaseCentre(theta, n, fitFor).1, u, v, scale) - Delay(pm.value.centre.0, pm.value.centre.1, wave)
    ensures forall k :: 0 <= k < n && pm.None? ==>
      o.1[k] == Offset(theta[3 * k] + RootPhaseCentre(theta, n, fitFor).0, theta[3 * k + 1] + RootPhaseCentre(theta, n, fitFor).1, u, v, scale)
    ensures forall k :: 0 <= k < n && pm.Some? ==>
      o.1[k] == Offset(theta[3 * k] + RootPhaseCentre(theta, n, fitFor).0, theta[3 * k + 1] + RootPhaseCentre(theta, n, fitFor).1, u, v, scale)
        - Delay(pm.value.sources[k].0, pm.value.sources[k].1, wave)
  {
    var pc := RootPhaseCentre(theta, n, fitFor);
    var centre := if pm.Some? then pm.value.centre else (0.0, 0.0);
    (Offset(pc.0, pc.1, u, v, scale) - MapDelay(pm, centre, wave),
     seq(n, k requires 0 <= k < n =>
       var p := if pm.Some? then pm.value.sources[k] else (0.0, 0.0);
       Offset(theta[3 * k] + pc.0, theta[3 * k + 1] + pc.1, u, v, scale) - MapDelay(pm, p, wave)))
  }

  /**
   * With fit_for[3] == 0 the offsets do not depend on the phase-centre
   * parameters: two parameter vectors that differ only there give the same
   * offsets, for the same map phases. (The map phases themselves are looked up
   * at the parameters' phase centre before the override.)
   */
  lemma PhaseCentreIgnoredWhenPhasesOff(a: seq<real>, b: seq<real>, n: nat, fitFor: seq<real>, u: real, v: real, scale: real, wave: real, pm: Option<MapPhases>)
    requires |a| == RootThetaLength(n) && |b| == |a| && |fitFor| == 4 && fitFor[3] == 0.0
    requires pm.Some? ==> |pm.value.sources| == n
    requires forall i :: 0 <= i < |a| && i != 3 * n + 2 && i != 3 * n + 3 ==> a[i] == b[i]
    ensures RootOffsets(a, n, Some(fitFor), u, v, scale, wave, pm) == RootOffsets(b, n, Some(fitFor), u, v, scale, wave, pm)
  {
    var oa := RootOffsets(a, n, Some(fitFor), u, v, scale, wave, pm);
    var ob := RootOffsets(b, n, Some(fitFor), u, v, scale, wave, pm);
    forall k | 0 <= k < n
      ensures oa.1[k] == ob.1[k]
    {
      assert a[3 * k] == b[3 * k] && a[3 * k + 1] == b[3 * k + 1];
    }
    assert oa.1 == ob.1;
  }

  /** The weights one source puts on the numerator and on the two denominators. */
  datatype Coefficients = Coefficients(nom: real, d1: real, d2: real)

  /** The kernel outputs for one baseline and channel: each source at its offset and at zero offset. */
  datatype Kernels = Kernels(centre: Complex, centreAtZero: Complex, starAtZero: Complex, background: Complex, stars: seq<Complex>)

  /** Sum over the first k sources of coefficient times kernel, for the numerator. */
  function NomSum(cs: seq<Coefficients>, stars: seq<Complex>, k: nat): Complex
    requires k <= |cs| && |stars| == |cs|
  {
    if k == 0 then Zero else Add(NomSum(cs, stars, k - 1), Scale(cs[k - 1].nom, stars[k - 1]))
  }

  /** Sum over the first k sources of a denominator coefficient times the zero-offset kernel. */
  function DenomSum(cs: seq<Coefficients>, first: bool, z: Complex, k: nat): Complex
    requires k <= |cs|
  {
    if k == 0 then Zero else Add(DenomSum(cs, first, z, k - 1), Scale(if first then cs[k - 1].d1 else cs[k - 1].d2, z))
  }

  function Nom(head: Coefficients, cs: seq<Coefficients>, kern: Kernels): Complex
    requires |kern.stars| == |cs|
  {
    Add(Scale(head.nom, kern.centre), NomSum(cs, kern.stars, |cs|))
  }

  function Denom(head: Coefficients, cs: seq<Coefficients>, fBG: real, kern: Kernels, first: bool): Complex
  {
    Add(Add(Scale(if first then head.d1 else head.d2, kern.centreAtZero), DenomSum(cs, first, kern.starAtZero, |cs|)), Scale(fBG, kern.background))
  }

  /**
   * One baseline's accumulation: the central source, then every source in turn,
   * then the background in the two denominators.
   */
  method Accumulate(head: Coefficients, cs: seq<Coefficients>, fBG: real, kern: Kernels)
    returns (nom: Complex, denom1: Complex, denom2: Complex)
    requires |kern.stars| == |cs|
    ensures nom == Nom(head, cs, kern)
    ensures denom1 == Denom(head, cs, fBG, kern, true)
    ensures denom2 == Denom(head, cs, fBG, kern, false)
  {
    nom := Scale(head.nom, kern.centre);
    denom1 := Scale(head.d1, kern.centreAtZero);
    denom2 := Scale(head.d2, kern.centreAtZero);
    var ndx := 0;
    while ndx < |cs|
      invariant 0 <= ndx <= |cs|
      invariant nom == Add(Scale(head.nom, kern.centre), NomSum(cs, kern.stars, ndx))
      invariant denom1 == Add(Scale(head.d1, kern.centreAtZero), DenomSum(cs, true, kern.starAtZero, ndx))
      invariant denom2 == Add(Scale(head.d2, kern.centreAtZero), DenomSum(cs, false, kern.starAtZero, ndx))
    {
      nom := Add(nom, Scale(cs[ndx].nom, kern.stars[ndx]));
      denom1 := Add(denom1, Scale(cs[ndx].d1, kern.starAtZero));
      denom2 := Add(denom2, Scale(cs[ndx].d2, kern.starAtZero));
      ndx := ndx + 1;
    }
    denom1 := Add(denom1, Scale(fBG, kern.background));
    denom2 := Add(denom2, Scale(fBG, kern.background));
  }

  predicate Balanced(c: Coefficients)
  {
    c.nom == c.d1 && c.d1 == c.d2
  }

  lemma {:induction false} SumsAgreeAtCentre(cs: seq<Coefficients>, stars: seq<Complex>, z: Complex, k: nat)
    requires k <= |cs| && |stars| == |cs|
    requires forall j :: 0 <= j < |cs| ==> Balanced(cs[j]) && stars[j] == z
    ensures NomSum(cs, stars, k) == DenomSum(cs, true, z, k) == DenomSum(cs, false, z, k)
  {
    if k > 0 {
      SumsAgreeAtCentre(cs, stars, z, k - 1);
    }
  }

  /**
   * With every source at zero offset, balanced weights and no background the
   * numerator equals both denominators: an unresolved point-like scene has
   * unit visibility.
   */
  lemma UnresolvedSceneHasUnitRatio(head: Coefficients, cs: seq<Coefficients>, kern: Kernels)
    requires |kern.stars| == |cs| && Balanced(head) && kern.centre == kern.centreAtZero
    requires forall j :: 0 <= j < |cs| ==> Balanced(cs[j]) && kern.stars[j] == kern.starAtZero
    ensures Nom(head, cs, kern) == Denom(head, cs, 0.0, kern, true)
    ensures Nom(head, cs, kern) == Denom(head, cs, 0.0, kern, false)
  {
    SumsAgreeAtCentre(cs, kern.stars, kern.starAtZero, |cs|);
  }

  /** The background raises both denominators by the same amount and leaves the numerator alone. */
  lemma BackgroundOnlyInDenominators(head: Coefficients, cs: seq<Coefficients>, fBG: real, kern: Kernels, first: bool)
    ensures Denom(head, cs, fBG, kern, first) == Add(Denom(head, cs, 0.0, kern, first), Scale(fBG, kern.background))
  {
  }

  /** Phase-map couplings of one source on one baseline: amplitude product and the two intensity factors. */
  datatype Couplings = Couplings(amp: real, int1: real, int2: real)

  const NoCoupling := Couplings(1.0, 1.0, 1.0)

  /** The flux factor of source k: 1 for the reference source, 10^theta[3k+1] for a companion. */
  function SourceFlux(theta: seq<real>, n: nat, k: nat, pow10: real -> real): real
    requires |theta| == MultiStar.ThetaLength(n) && k < n
  {
    if k == 0 then 1.0 else pow10(theta[MultiStar.CompanionFluxIndex(k)])
  }

  /**
   * The weights of the multi-source fitter: flux times the source's couplings
   * when phase maps are used, flux alone otherwise. The companion flux is read
   * at the slot the parameter builder fills, 3k+1, in both branches.
   */
  function SourceCoefficients(theta: seq<real>, n: nat, pow10: real -> real, pm: Option<seq<Couplings>>): (cs: seq<Coefficients>)
    requires |theta| == MultiStar.ThetaLength(n)
    requires pm.Some? ==> |pm.value| == n
    ensures |cs| == n
    ensures pm.None? ==> forall k :: 0 <= k < n ==> Balanced(cs[k])
    ensures n > 0 && pm.None? ==> cs[0] == Coefficients(1.0, 1.0, 1.0)
  {
    seq(n, k requires 0 <= k < n =>
      var f := SourceFlux(theta, n, k, pow10);
      var c := if pm.Some? then pm.value[k] else NoCoupling;
      Coefficients(f * c.amp, f * c.int1, f * c.int2))
  }

  /** Companion k's weights depend on the parameter vector only through its flux slot 3k+1. */
  lemma CoefficientsReadFluxSlot(a: seq<real>, b: seq<real>, n: nat, k: nat, pow10: real -> real, pm: Option<seq<Couplings>>)
    requires |a| == MultiStar.ThetaLength(n) && |b| == |a| && 0 < k < n
    requires pm.Some? ==> |pm.value| == n
    requires a[MultiStar.CompanionFluxIndex(k)] == b[MultiStar.CompanionFluxIndex(k)]
    ensures SourceCoefficients(a, n, pow10, pm)[k] == SourceCoefficients(b, n, pow10, pm)[k]
  {
  }

  /** The central weights: 10^theta[th_rest+4] times the central couplings. */
  function HeadCoefficients(theta: seq<real>, n: nat, pow10: real -> real, pmCentre: Option<Couplings>): (h: Coefficients)
    requires |theta| == MultiStar.ThetaLength(n)
    ensures pmCentre.None? ==> Balanced(h)
  {
    var fr := pow10(theta[MultiStar.ThRest(n) + 4]);
    var c := if pmCentre.Some? then pmCentre.value else NoCoupling;
    Coefficients(fr * c.amp, fr * c.int1, fr * c.int2)
  }

  /**
   * The multi-source fitter on one baseline and channel: nom, denom1 and
   * denom2, with the background flux ratio read at th_rest+1.
   */
  method MultiStarBaseline(theta: seq<real>, n: nat, pow10: real -> real, pm: Option<(Couplings, seq<Couplings>)>, kern: Kernels)
    returns (nom: Complex, denom1: Complex, denom2: Complex)
    requires |theta| == MultiStar.ThetaLength(n) && |kern.stars| == n
    requires pm.Some? ==> |pm.value.1| == n
    ensures var head := HeadCoefficients(theta, n, pow10, if pm.Some? then Some(pm.value.0) else None);
            var cs := SourceCoefficients(theta, n, pow10, if pm.Some? then Some(pm.value.1) else None);
            nom == Nom(head, cs, kern)
            && denom1 == Denom(head, cs, theta[MultiStar.ThRest(n) + 1], kern, true)
            && denom2 == Denom(head, cs, theta[MultiStar.ThRest(n) + 1], kern, false)
  {
    var head := HeadCoefficients(theta, n, pow10, if pm.Some? then Some(pm.value.0) else None);
    var cs := SourceCoefficients(theta, n, pow10, if pm.Some? then Some(pm.value.1) else None);
    nom, denom1, denom2 := Accumulate(head, cs, theta[MultiStar.ThRest(n) + 1], kern);
  }

  /**
   * Without phase maps and without background, a scene whose every source sits
   * at the phase centre gives equal numerator and denominators.
   */
  lemma MultiStarUnresolved(theta: seq<real>, n: nat, pow10: real -> real, kern: Kernels)
    requires |theta| == MultiStar.ThetaLength(n) && |kern.stars| == n
    requires theta[MultiStar.ThRest(n) + 1] == 0.0
    requires kern.centre == kern.centreAtZero
    requires forall j :: 0 <= j < n ==> kern.stars[j] == kern.starAtZero
    ensures var head := HeadCoefficients(theta, n, pow10, None);
            var cs := SourceCoefficients(theta, n, pow10, None);
            Nom(head, cs, kern) == Denom(head, cs, theta[MultiStar.ThRest(n) + 1], kern, true)
            && Nom(head, cs, kern) == Denom(head, cs, theta[MultiStar.ThRest(n) + 1], kern, false)
  {
    var head := HeadCoefficients(theta, n, pow10, None);
    var cs := SourceCoefficients(theta, n, pow10, None);
    UnresolvedSceneHasUnitRatio(head, cs, kern);
  }

  /**
   * The root fitter's weights: 10^theta[3k+2] times the ratio of the source's
   * couplings to the central ones (all 1 without phase maps); the central
   * source carries weight 1.
   */
  function RootCoefficients(theta: seq<real>, n: nat, pow10: real -> real, ratios: Option<seq<Couplings>>): (cs: seq<Coefficients>)
    requires |theta| == RootThetaLength(n)
    requires ratios.Some? ==> |ratios.value| == n
    ensures |cs| == n
    ensures ratios.None? ==> forall k :: 0 <= k < n ==> cs[k] == Coefficients(pow10(theta[3 * k + 2]), pow10(theta[3 * k + 2]), pow10(theta[3 * k + 2]))
  {
    seq(n, k requires 0 <= k < n =>
      var f := pow10(theta[3 * k + 2]);
      var c := if ratios.Some? then ratios.value[k] else NoCoupling;
      Coefficients(f * c.amp, f * c.int1, f * c.int2))
  }

  /** The root fitter on one baseline and channel, background ratio at 3n+1. */
  method RootBaseline(theta: seq<real>, n: nat, pow10: real -> real, ratios: Option<seq<Couplings>>, kern: Kernels)
    returns (nom: Complex, denom1: Complex, denom2: Complex)
    requires |theta| == RootThetaLength(n) && |kern.stars| == n
    requires ratios.Some? ==> |ratios.value| == n
    ensures var cs := RootCoefficients(theta, n, pow10, ratios);
            nom == Nom(Coefficients(1.0, 1.0, 1.0), cs, kern)
            && denom1 == Denom(Coefficients(1.0, 1.0, 1.0), cs, theta[3 * n + 1], kern, true)
            && denom2 == Denom(Coefficients(1.0, 1.0, 1.0), cs, theta[3 * n + 1], kern, false)
  {
    var cs := RootCoefficients(theta, n, pow10, ratios);
    nom, denom1, denom2 := Accumulate(Coefficients(1.0, 1.0, 1.0), cs, theta[3 * n + 1], kern);
  }
}
