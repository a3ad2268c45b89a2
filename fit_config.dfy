/**
 * The driver rules around the samplers: option checks (channel windows, fit
 * mode), the burn-in window of a chain, the fixed-parameter lists (`todel`) of
 * the binary, triple, unary, root multi-source and night fits, the walkers'
 * starting positions, the root fitter's starting vector and the night fit's
 * per-file parameter unpacking.
 */
module FitConfig {
  import opened Common
  import opened ParamVector
  import Preprocess
  import Visibility
  import Likelihood

  // ---------------------------------------------------------------------------
  // Option checks

  datatype Resolution = Low | Medium | High

  /**
   * The channel window of the multi-source fitter. With neither bound given,
   * LOW data default to (3, 13) and MEDIUM data to (30, 200); HIGH data need
   * explicit bounds. With only one bound given, the window test compares None
   * with 0 and raises, except when flagtill <= 0 makes it short-circuit; then
   * no window is applied, which the pair (flagtill, 0) expresses.
   */
  function ChannelWindow(res: Resolution, flagtill: Option<int>, flagfrom: Option<int>): (r: Result<(int, int)>)
    ensures flagtill.None? && flagfrom.None? ==>
      r == (match res
            case Low => Ok((3, 13))
            case Medium => Ok((30, 200))
            case High => Err(ResolutionNeedsWindow))
    ensures flagtill.Some? && flagfrom.Some? ==> r == Ok((flagtill.value, flagfrom.value))
    ensures r.Err? ==> r.error in {ResolutionNeedsWindow, IncompleteWindow}
    ensures r.Ok? && (flagtill.None? || flagfrom.None?) && flagtill.Some? ==>
      forall c :: !Preprocess.OutsideWindow(c, r.value.0, r.value.1)
  {
    match (flagtill, flagfrom)
    case (None, None) =>
      (match res
       case Low => Ok((3, 13))
       case Medium => Ok((30, 200))
       case High => Err(ResolutionNeedsWindow))
    case (Some(t), Some(f)) => Ok((t, f))
    case (Some(t), None) => if t <= 0 then Ok((t, 0)) else Err(IncompleteWindow)
    case (None, Some(_)) => Err(IncompleteWindow)
  }

  /** The LOW default keeps channels 3..12 and flags the rest. */
  lemma LowDefaultKeepsMiddle(c: int)
    ensures ChannelWindow(Low, None, None) == Ok((3, 13))
    ensures !Preprocess.OutsideWindow(c, 3, 13) <==> 3 <= c < 13
  {
  }

  /**
   * The older fitters' guard: their default window (3, 13), or (2, 12) for the
   * unary fit, may only be kept for LOW data.
   */
  function LegacyWindow(res: Resolution, flagtill: int, flagfrom: int, defaultTill: int, defaultFrom: int): (r: Result<(int, int)>)
    ensures r.Err? <==> res != Low && flagtill == defaultTill && flagfrom == defaultFrom
    ensures r.Err? ==> r.error == ResolutionNeedsWindow
    ensures r.Ok? ==> r.value == (flagtill, flagfrom)
  {
    if res != Low && flagtill == defaultTill && flagfrom == defaultFrom then Err(ResolutionNeedsWindow)
    else Ok((flagtill, flagfrom))
  }

  /** The multi-source fitter's settings after its fit-mode check. */
  datatype ModeSettings = ModeSettings(mode: Visibility.FitMode, fitFor: seq<real>, onlyPhases: bool)

  /**
   * The fit mode must be phasefit, approx, numeric or analytic; phasefit means
   * the approx kernel with only the phases fitted (fit_for = [0, 0, 0, 1]).
   */
  function FitModeSettings(mode: string, fitFor: seq<real>): (r: Result<ModeSettings>)
    ensures r.Ok? <==> mode in ["phasefit", "approx", "numeric", "analytic"]
    ensures r.Err? ==> r.error == UnknownFitMode
    ensures mode == "phasefit" ==> r == Ok(ModeSettings(Visibility.Approx, [0.0, 0.0, 0.0, 1.0], true))
    ensures mode != "phasefit" && r.Ok? ==>
      Visibility.ModeName(r.value.mode) == mode && r.value.fitFor == fitFor && !r.value.onlyPhases
  {
    if mode == "phasefit" then Ok(ModeSettings(Visibility.Approx, [0.0, 0.0, 0.0, 1.0], true))
    else match Visibility.ParseFitMode(mode)
      case Err(e) => Err(e)
      case Ok(m) => Ok(ModeSettings(m, fitFor, false))
  }

  // ---------------------------------------------------------------------------
  // Burn-in

  /** numpy's chain[-k:]: the last k steps, or all of them when there are fewer. */
  function Last<T>(chain: seq<T>, k: nat): (r: seq<T>)
    ensures |r| == if |chain| < k then |chain| else k
    ensures r == chain[|chain| - |r|..]
  {
    if |chain| < k then chain else chain[|chain| - k..]
  }

  /**
   * The retained part of a chain of nruns steps: the last 200 steps when nruns
   * exceeds `above200`, else the last 100 when nruns exceeds `above100`, else all.
   */
  function BurnIn<T>(chain: seq<T>, nruns: int, above200: int, above100: int): (r: seq<T>)
    ensures |r| == if nruns > above200 then Min(|chain|, 200) else if nruns > above100 then Min(|chain|, 100) else |chain|
    ensures r == chain[|chain| - |r|..]
  {
    if nruns > above200 then Last(chain, 200)
    else if nruns > above100 then Last(chain, 100)
    else chain
  }

  function Min(a: int, b: int): int
  {
    if a < b then a else b
  }

  /** The binary fit and the multi-source fitters keep steps after > 300 / > 200. */
  function BinaryBurnIn<T>(chain: seq<T>): (r: seq<T>)
    ensures |chain| > 300 ==> |r| == 200
    ensures 200 < |chain| <= 300 ==> |r| == 100
    ensures |chain| <= 200 ==> r == chain
  {
    BurnIn(chain, |chain|, 300, 200)
  }

  /** The triple fit keeps steps after > 299 / > 199. */
  function TripleBurnIn<T>(chain: seq<T>): (r: seq<T>)
    ensures |chain| > 299 ==> |r| == 200
    ensures 199 < |chain| <= 299 ==> |r| == 100
    ensures |chain| <= 199 ==> r == chain
  {
    BurnIn(chain, |chain|, 299, 199)
  }

  /** The two thresholds disagree exactly for chains of 200 and of 300 steps. */
  lemma BurnInWindowsDiffer<T>(chain: seq<T>)
    ensures BinaryBurnIn(chain) != TripleBurnIn(chain) <==> |chain| == 200 || |chain| == 300
  {
    var b, t := BinaryBurnIn(chain), TripleBurnIn(chain);
    if |chain| == 200 || |chain| == 300 {
      assert |b| != |t|;
    }
  }

  // ---------------------------------------------------------------------------
  // Fixed-parameter lists of the single-file fitters

  /** `t` lists exactly the positions in [0, hi) that `fixed` selects. */
  ghost predicate Lists(t: seq<int>, hi: int, fixed: int -> bool)
  {
    forall x :: x in t <==> 0 <= x < hi && fixed(x)
  }

  /** `xs` lists exactly the positions in [lo, hi) that `fixed` selects. */
  ghost predicate ListsBlock(xs: seq<int>, lo: int, hi: int, fixed: int -> bool)
  {
    forall x :: x in xs <==> lo <= x < hi && fixed(x)
  }

  /** Appending the next block of positions extends the listed range. */
  lemma Extend(t: seq<int>, xs: seq<int>, lo: int, hi: int, fixed: int -> bool)
    requires 0 <= lo <= hi && Lists(t, lo, fixed) && ListsBlock(xs, lo, hi, fixed)
    ensures Lists(t + xs, hi, fixed) && IndicesIn(t + xs, hi)
  {
    forall i | 0 <= i < |t + xs| ensures 0 <= (t + xs)[i] < hi {
      if i < |t| {
        assert t[i] in t;
      } else {
        assert xs[i - |t|] in xs;
      }
    }
  }

  /** ... and keeps the list strictly ascending when both parts are. */
  lemma ExtendAscending(t: seq<int>, xs: seq<int>, lo: int, hi: int, fixed: int -> bool)
    requires 0 <= lo <= hi && Lists(t, lo, fixed) && ListsBlock(xs, lo, hi, fixed)
    requires StrictlyAscending(t) && StrictlyAscending(xs)
    ensures Lists(t + xs, hi, fixed) && IndicesIn(t + xs, hi) && StrictlyAscending(t + xs)
  {
    Extend(t, xs, lo, hi, fixed);
    forall i, j | 0 <= i < |t| <= j < |t + xs| ensures (t + xs)[i] < (t + xs)[j] {
      assert t[i] in t;
      assert xs[j - |t|] in xs;
    }
  }

  /**
   * One append step of a todel builder: the block goes on the end and the list
   * stays ascending and complete up to hi (which determines it).
   */
  method AppendBlock(t: seq<int>, xs: seq<int>, lo: int, hi: int, ghost fixed: int -> bool) returns (r: seq<int>)
    requires 0 <= lo <= hi && Lists(t, lo, fixed) && ListsBlock(xs, lo, hi, fixed)
    requires StrictlyAscending(t) && StrictlyAscending(xs)
    ensures Lists(r, hi, fixed) && IndicesIn(r, hi) && StrictlyAscending(r)
  {
    ExtendAscending(t, xs, lo, hi, fixed);
    r := t + xs;
  }

  /** The binary fit's options that fix parameters. */
  datatype BinaryOptions = BinaryOptions(
    onlypos: bool, fixpos: bool, constantF: bool, fixedBH: bool, fixedBG: bool,
    fitFor3: real, nophases: bool, useOpds: bool, specialfit: bool)

  /**
   * The binary fit's 16 parameters: dRA, dDEC, f1, f2..f4, alpha flare, f BG,
   * alpha BG, pc RA, pc DEC, OPD1..OPD4, special. onlypos fixes all but the offsets.
   */
  predicate BinaryFixed(o: BinaryOptions, i: int)
  {
    if o.onlypos then 2 <= i < 16
    else (
      ((i == 0 || i == 1) && o.fixpos)
      || (3 <= i <= 5 && o.constantF)
      || (i == 6 && o.fixedBH)
      || (i == 8 && o.fixedBG)
      || ((i == 9 || i == 10) && (o.fitFor3 == 0.0 || o.nophases))
      || (11 <= i <= 14 && !o.useOpds)
      || (i == 15 && !o.specialfit))
  }

  function BinaryFixedAt(o: BinaryOptions): int -> bool
  {
    i => BinaryFixed(o, i)
  }

  /** The blocks the binary fit appends, each listing the fixed positions of its range. */
  lemma BinaryBlocks(o: BinaryOptions)
    requires !o.onlypos
    ensures ListsBlock(if o.fixpos then [0, 1] else [], 0, 2, BinaryFixedAt(o))
    ensures ListsBlock(if o.constantF then [3, 4, 5] else [], 2, 6, BinaryFixedAt(o))
    ensures ListsBlock(if o.fixedBH then [6] else [], 6, 7, BinaryFixedAt(o))
    ensures ListsBlock(if o.fixedBG then [8] else [], 7, 9, BinaryFixedAt(o))
    ensures ListsBlock(if o.fitFor3 == 0.0 || o.nophases then [9, 10] else [], 9, 11, BinaryFixedAt(o))
    ensures ListsBlock(if !o.useOpds then [11, 12, 13, 14] else [], 11, 15, BinaryFixedAt(o))
    ensures ListsBlock(if !o.specialfit then [15] else [], 15, 16, BinaryFixedAt(o))
  {
  }

  /** With onlypos, positions 2..15 in order. */
  lemma OnlyPosBlock(o: BinaryOptions, t: seq<int>)
    requires o.onlypos && t == seq(14, k => k + 2)
    ensures ListsBlock(t, 0, 16, BinaryFixedAt(o)) && StrictlyAscending(t)
  {
    forall x | 2 <= x < 16 ensures x in t {
      assert t[x - 2] == x;
    }
  }

  /** todel and ndof of the binary fit, appended in ascending order. */
  method BinaryTodel(o: BinaryOptions) returns (todel: seq<int>, ndof: int)
    ensures StrictlyAscending(todel) && IndicesIn(todel, 16)
    ensures forall i :: i in todel <==> 0 <= i < 16 && BinaryFixed(o, i)
    ensures ndof == 16 - |todel|
    ensures o.onlypos ==> ndof == 2
  {
    if o.onlypos {
      todel := OnlyPosTodel(o);
    } else {
      todel := OptionTodel(o);
    }
    ndof := 16 - |todel|;
  }

  /** onlypos: every position from 2 on. */
  method OnlyPosTodel(o: BinaryOptions) returns (todel: seq<int>)
    requires o.onlypos
    ensures StrictlyAscending(todel) && IndicesIn(todel, 16) && |todel| == 14
    ensures forall i :: i in todel <==> 0 <= i < 16 && BinaryFixed(o, i)
  {
    todel := [];
    var tdx := 2;
    while tdx < 16
      invariant 2 <= tdx <= 16
      invariant todel == seq(tdx - 2, k => k + 2)
    {
      todel := todel + [tdx];
      tdx := tdx + 1;
    }
    OnlyPosBlock(o, todel);
    ExtendAscending([], todel, 0, 16, BinaryFixedAt(o));
    assert [] + todel == todel;
  }

  /** Otherwise: one block per option, in slot order. */
  method OptionTodel(o: BinaryOptions) returns (todel: seq<int>)
    requires !o.onlypos
    ensures StrictlyAscending(todel) && IndicesIn(todel, 16)
    ensures forall i :: i in todel <==> 0 <= i < 16 && BinaryFixed(o, i)
  {
    var fixed := BinaryFixedAt(o);
    todel := OptionTodelHead(o);
    var xs := if o.fitFor3 == 0.0 || o.nophases then [9, 10] else [];
    assert ListsBlock(xs, 9, 11, fixed) by { BinaryBlocks(o); }
    todel := AppendBlock(todel, xs, 9, 11, fixed);
    xs := if !o.useOpds then [11, 12, 13, 14] else [];
    assert ListsBlock(xs, 11, 15, fixed) by { BinaryBlocks(o); }
    todel := AppendBlock(todel, xs, 11, 15, fixed);
    xs := if !o.specialfit then [15] else [];
    assert ListsBlock(xs, 15, 16, fixed) by { BinaryBlocks(o); }
    todel := AppendBlock(todel, xs, 15, 16, fixed);
  }

  /** The blocks up to the background: positions 0..8. */
  method OptionTodelHead(o: BinaryOptions) returns (todel: seq<int>)
    requires !o.onlypos
    ensures StrictlyAscending(todel) && Lists(todel, 9, BinaryFixedAt(o))
  {
    var fixed := BinaryFixedAt(o);
    todel := [];
    var xs := if o.fixpos then [0, 1] else [];
    assert ListsBlock(xs, 0, 2, fixed) by { BinaryBlocks(o); }
    todel := AppendBlock(todel, xs, 0, 2, fixed);
    xs := if o.constantF then [3, 4, 5] else [];
    assert ListsBlock(xs, 2, 6, fixed) by { BinaryBlocks(o); }
    todel := AppendBlock(todel, xs, 2, 6, fixed);
    xs := if o.fixedBH then [6] else [];
    assert ListsBlock(xs, 6, 7, fixed) by { BinaryBlocks(o); }
    todel := AppendBlock(todel, xs, 6, 7, fixed);
    xs := if o.fixedBG then [8] else [];
    assert ListsBlock(xs, 7, 9, fixed) by { BinaryBlocks(o); }
    todel := AppendBlock(todel, xs, 7, 9, fixed);
  }

  /** The triple fit's options that fix parameters. */
  datatype TripleOptions = TripleOptions(fixpos: bool, fixS29: bool, fixedBH: bool, fixedBG: bool, fitFor3: real)

  /**
   * The triple fit's 11 parameters: dRA, dDEC, fr, dRA2, dDEC2, fr2, alpha flare,
   * f BG, alpha BG, pc RA, pc DEC.
   */
  predicate TripleFixed(o: TripleOptions, i: int)
  {
    ((i == 0 || i == 1) && o.fixpos)
    || (3 <= i <= 5 && o.fixS29)
    || (i == 6 && o.fixedBH)
    || (i == 8 && o.fixedBG)
    || ((i == 9 || i == 10) && o.fitFor3 == 0.0)
  }

  function TripleFixedAt(o: TripleOptions): int -> bool
  {
    i => TripleFixed(o, i)
  }

  lemma TripleBlocks(o: TripleOptions)
    ensures ListsBlock(if o.fixpos then [0, 1] else [], 0, 2, TripleFixedAt(o))
    ensures ListsBlock(if o.fixS29 then [3, 4, 5] else [], 2, 6, TripleFixedAt(o))
    ensures ListsBlock(if o.fixedBH then [6] else [], 6, 7, TripleFixedAt(o))
    ensures ListsBlock(if o.fixedBG then [8] else [], 7, 9, TripleFixedAt(o))
    ensures ListsBlock(if o.fitFor3 == 0.0 then [9, 10] else [], 9, 11, TripleFixedAt(o))
  {
  }

  method TripleTodel(o: TripleOptions) returns (todel: seq<int>, ndof: int)
    ensures StrictlyAscending(todel) && IndicesIn(todel, 11)
    ensures forall i :: i in todel <==> 0 <= i < 11 && TripleFixed(o, i)
    ensures ndof == 11 - |todel|
  {
    var fixed := TripleFixedAt(o);
    todel := [];
    var xs := if o.fixpos then [0, 1] else [];
    assert ListsBlock(xs, 0, 2, fixed) by { TripleBlocks(o); }
    todel := AppendBlock(todel, xs, 0, 2, fixed);
    xs := if o.fixS29 then [3, 4, 5] else [];
    assert ListsBlock(xs, 2, 6, fixed) by { TripleBlocks(o); }
    todel := AppendBlock(todel, xs, 2, 6, fixed);
    xs := if o.fixedBH then [6] else [];
    assert ListsBlock(xs, 6, 7, fixed) by { TripleBlocks(o); }
    todel := AppendBlock(todel, xs, 6, 7, fixed);
    xs := if o.fixedBG then [8] else [];
    assert ListsBlock(xs, 7, 9, fixed) by { TripleBlocks(o); }
    todel := AppendBlock(todel, xs, 7, 9, fixed);
    xs := if o.fitFor3 == 0.0 then [9, 10] else [];
    assert ListsBlock(xs, 9, 11, fixed) by { TripleBlocks(o); }
    todel := AppendBlock(todel, xs, 9, 11, fixed);
    ndof := 11 - |todel|;
  }

  /** The unary fit's options that fix parameters; fitopds has one entry per telescope. */
  datatype UnaryOptions = UnaryOptions(fixedBH: bool, noBG: bool, fixedBG: bool, fitopds: seq<real>, specialfit: bool)

  /**
   * The unary fit's 10 parameters: pc RA, pc DEC, alpha SgrA, f BG, alpha BG,
   * OPD1..OPD4, special; an OPD is fixed unless its fitopds entry is 1.
   */
  predicate UnaryFixed(o: UnaryOptions, i: int)
  {
    (i == 2 && o.fixedBH)
    || (i == 3 && o.noBG)
    || (i == 4 && o.fixedBG)
    || (5 <= i <= 8 && i - 5 < |o.fitopds| && o.fitopds[i - 5] != 1.0)
    || (i == 9 && !o.specialfit)
  }

  function UnaryFixedAt(o: UnaryOptions): int -> bool
  {
    i => UnaryFixed(o, i)
  }

  lemma UnaryBlocks(o: UnaryOptions)
    ensures ListsBlock(if o.fixedBH then [2] else [], 0, 3, UnaryFixedAt(o))
    ensures ListsBlock(if o.noBG then [3] else [], 3, 4, UnaryFixedAt(o))
    ensures ListsBlock(if o.fixedBG then [4] else [], 4, 5, UnaryFixedAt(o))
    ensures ListsBlock(if !o.specialfit then [9] else [], 9, 10, UnaryFixedAt(o))
  {
  }

  lemma OpdBlock(o: UnaryOptions, tel: int)
    requires 0 <= tel < 4 <= |o.fitopds|
    ensures ListsBlock(if o.fitopds[tel] != 1.0 then [5 + tel] else [], 5 + tel, 6 + tel, UnaryFixedAt(o))
  {
  }

  method UnaryTodel(o: UnaryOptions) returns (todel: seq<int>, ndof: int)
    requires |o.fitopds| >= 4
    ensures StrictlyAscending(todel) && IndicesIn(todel, 10)
    ensures forall i :: i in todel <==> 0 <= i < 10 && UnaryFixed(o, i)
    ensures ndof == 10 - |todel|
  {
    var fixed := UnaryFixedAt(o);
    UnaryBlocks(o);
    todel := [];
    var xs := if o.fixedBH then [2] else [];
    todel := AppendBlock(todel, xs, 0, 3, fixed);
    xs := if o.noBG then [3] else [];
    todel := AppendBlock(todel, xs, 3, 4, fixed);
    xs := if o.fixedBG then [4] else [];
    todel := AppendBlock(todel, xs, 4, 5, fixed);
    var tel := 0;
    while tel < 4
      invariant 0 <= tel <= 4
      invariant StrictlyAscending(todel) && Lists(todel, 5 + tel, fixed)
    {
      xs := if o.fitopds[tel] != 1.0 then [5 + tel] else [];
      OpdBlock(o, tel);
      todel := AppendBlock(todel, xs, 5 + tel, 6 + tel, fixed);
      tel := tel + 1;
    }
    xs := if !o.specialfit then [9] else [];
    todel := AppendBlock(todel, xs, 9, 10, fixed);
    ndof := 10 - |todel|;
  }

  // ---------------------------------------------------------------------------
  // The root multi-source fitter: source k at [3k, 3k+1, 3k+2], then alpha BH,
  // f BG, pc RA, pc Dec.

  /**
   * Position x of the root fitter's vector is fixed: a source's offsets unless
   * fit_pos, its flux unless fit_fr; alpha BH when fixedBHalpha; the phase
   * centre when phases are not fitted.
   */
  predicate RootFixed(fitPos: seq<bool>, fitFr: seq<bool>, fixedBHalpha: bool, fitFor3: real, x: int)
  {
    var n := |fitPos|;
    if 0 <= x < 3 * n then
      (x % 3 < 2 && !fitPos[x / 3]) || (x % 3 == 2 && x / 3 < |fitFr| && !fitFr[x / 3])
    else
      (x == 3 * n && fixedBHalpha) || ((x == 3 * n + 2 || x == 3 * n + 3) && fitFor3 == 0.0)
  }

  /** Read per source: slot j of source k. */
  lemma RootSourceSlot(fitPos: seq<bool>, fitFr: seq<bool>, fixedBHalpha: bool, fitFor3: real, k: int, j: int)
    requires |fitFr| == |fitPos| && 0 <= k < |fitPos| && 0 <= j < 3
    ensures RootFixed(fitPos, fitFr, fixedBHalpha, fitFor3, 3 * k + j) <==> (j < 2 && !fitPos[k]) || (j == 2 && !fitFr[k])
  {
    assert (3 * k + j) / 3 == k && (3 * k + j) % 3 == j;
  }

  function RootFixedAt(fitPos: seq<bool>, fitFr: seq<bool>, fixedBHalpha: bool, fitFor3: real): int -> bool
  {
    x => RootFixed(fitPos, fitFr, fixedBHalpha, fitFor3, x)
  }

  /** Source ndx appends its offsets unless fit_pos, then its flux unless fit_fr. */
  lemma RootSourceBlock(fitPos: seq<bool>, fitFr: seq<bool>, fixedBHalpha: bool, fitFor3: real, ndx: int)
    requires |fitFr| == |fitPos| && 0 <= ndx < |fitPos|
    ensures var add := (if !fitPos[ndx] then [3 * ndx, 3 * ndx + 1] else []) + (if !fitFr[ndx] then [3 * ndx + 2] else []);
      ListsBlock(add, 3 * ndx, 3 * ndx + 3, RootFixedAt(fitPos, fitFr, fixedBHalpha, fitFor3)) && StrictlyAscending(add)
  {
    RootSourceSlot(fitPos, fitFr, fixedBHalpha, fitFor3, ndx, 0);
    RootSourceSlot(fitPos, fitFr, fixedBHalpha, fitFor3, ndx, 1);
    RootSourceSlot(fitPos, fitFr, fixedBHalpha, fitFor3, ndx, 2);
  }

  lemma RootNuisanceBlock(fitPos: seq<bool>, fitFr: seq<bool>, fixedBHalpha: bool, fitFor3: real)
    ensures var r := 3 * |fitPos|;
      var rest := (if fixedBHalpha then [r] else []) + (if fitFor3 == 0.0 then [r + 2, r + 3] else []);
      ListsBlock(rest, r, r + 4, RootFixedAt(fitPos, fitFr, fixedBHalpha, fitFor3)) && StrictlyAscending(rest)
  {
  }

  method RootTodel(fitPos: seq<bool>, fitFr: seq<bool>, fixedBHalpha: bool, fitFor3: real) returns (todel: seq<int>, ndof: int)
    requires |fitFr| == |fitPos|
    ensures StrictlyAscending(todel) && IndicesIn(todel, Visibility.RootThetaLength(|fitPos|))
    ensures forall x :: x in todel <==> 0 <= x < Visibility.RootThetaLength(|fitPos|) && RootFixed(fitPos, fitFr, fixedBHalpha, fitFor3, x)
    ensures ndof == Visibility.RootThetaLength(|fitPos|) - |todel|
  {
    var fixed := RootFixedAt(fitPos, fitFr, fixedBHalpha, fitFor3);
    var n := |fitPos|;
    todel := [];
    var ndx := 0;
    while ndx < n
      invariant 0 <= ndx <= n
      invariant StrictlyAscending(todel) && Lists(todel, 3 * ndx, fixed)
    {
      var add := (if !fitPos[ndx] then [3 * ndx, 3 * ndx + 1] else []) + (if !fitFr[ndx] then [3 * ndx + 2] else []);
      RootSourceBlock(fitPos, fitFr, fixedBHalpha, fitFor3, ndx);
      todel := AppendBlock(todel, add, 3 * ndx, 3 * ndx + 3, fixed);
      ndx := ndx + 1;
    }
    var r := 3 * n;
    var rest := (if fixedBHalpha then [r] else []) + (if fitFor3 == 0.0 then [r + 2, r + 3] else []);
    RootNuisanceBlock(fitPos, fitFr, fixedBHalpha, fitFor3);
    todel := AppendBlock(todel, rest, r, r + 4, fixed);
    ndof := Visibility.RootThetaLength(n) - |todel|;
  }

  /** Source k's slots: its offsets boxed by its fit size, its flux ratio boxed by [frLow, frHigh]. */
  predicate RootSources(theta: seq<real>, lower: seq<real>, upper: seq<real>,
                        ra: seq<real>, de: seq<real>, fr: seq<real>, size: seq<real>, frLow: real, frHigh: real)
    requires |de| >= |ra| && |fr| >= |ra| && |size| >= |ra|
    requires |theta| >= 3 * |ra| && |lower| >= 3 * |ra| && |upper| >= 3 * |ra|
  {
    forall k :: 0 <= k < |ra| ==>
      theta[3 * k] == ra[k] && theta[3 * k + 1] == de[k] && theta[3 * k + 2] == fr[k]
      && lower[3 * k] == ra[k] - size[k] && lower[3 * k + 1] == de[k] - size[k] && lower[3 * k + 2] == frLow
      && upper[3 * k] == ra[k] + size[k] && upper[3 * k + 1] == de[k] + size[k] && upper[3 * k + 2] == frHigh
  }

  /** The root fitter's starting vector and prior box, as built before the fit. */
  predicate RootStartLayout(theta: seq<real>, lower: seq<real>, upper: seq<real>,
                            ra: seq<real>, de: seq<real>, fr: seq<real>, size: seq<real>,
                            init: seq<real>, frLow: real, frHigh: real)
    requires |de| >= |ra| && |fr| >= |ra| && |size| >= |ra| && |init| == 4
  {
    var n := |ra|;
    |theta| == Visibility.RootThetaLength(n) && |lower| == |theta| && |upper| == |theta|
    && RootSources(theta, lower, upper, ra, de, fr, size, frLow, frHigh)
    && theta[3 * n..] == init
    && lower[3 * n..] == [-10.0, 0.1, init[2] - 5.0, init[3] - 5.0]
    && upper[3 * n..] == [10.0, 20.0, init[2] + 5.0, init[3] + 5.0]
  }

  /** The start lies inside its own prior box when the caller's values are sensible. */
  lemma RootStartInBox(theta: seq<real>, lower: seq<real>, upper: seq<real>,
                       ra: seq<real>, de: seq<real>, fr: seq<real>, size: seq<real>,
                       init: seq<real>, frLow: real, frHigh: real)
    requires |de| >= |ra| && |fr| >= |ra| && |size| >= |ra| && |init| == 4
    requires RootStartLayout(theta, lower, upper, ra, de, fr, size, init, frLow, frHigh)
    requires forall k :: 0 <= k < |ra| ==> size[k] >= 0.0 && frLow <= fr[k] <= frHigh
    requires -10.0 <= init[0] <= 10.0 && 0.1 <= init[1] <= 20.0
    ensures Likelihood.InBox(theta, lower, upper)
  {
    var n := |ra|;
    forall i | 0 <= i < |theta| ensures lower[i] <= theta[i] <= upper[i] {
      if i < 3 * n {
        var k := i / 3;
        assert 3 * k <= i < 3 * k + 3;
      } else {
        assert theta[i] == theta[3 * n..][i - 3 * n];
        assert lower[i] == lower[3 * n..][i - 3 * n];
        assert upper[i] == upper[3 * n..][i - 3 * n];
      }
    }
  }

  /** fit_size defaults to 5 for every source. */
  function RootFitSize(n: nat, fitSize: Option<seq<real>>): (s: seq<real>)
    ensures fitSize.None? ==> |s| == n && forall k :: 0 <= k < n ==> s[k] == 5.0
  {
    if fitSize.Some? then fitSize.value else seq(n, k => 5.0)
  }

  /**
   * Every per-source list has one entry per source; fit_size, fit_pos and fit_fr
   * default to such lists.
   */
  predicate RootListsAgree(n: nat, de: seq<real>, fr: seq<real>, fitSize: Option<seq<real>>,
                           fitPos: Option<seq<bool>>, fitFr: Option<seq<bool>>)
  {
    |de| == n && |fr| == n
    && (fitSize.Some? ==> |fitSize.value| == n)
    && (fitPos.Some? ==> |fitPos.value| == n)
    && (fitFr.Some? ==> |fitFr.value| == n)
  }

  /**
   * The root fitter's start: the per-source lists must agree in length with
   * ra_list, then an `initial` list must hold four values (alpha BH, f BG, pc RA,
   * pc Dec); the defaults are -0.5, 0.1, 0, 0. The flux box bounds log10(0.001)
   * and log10(10) are given as frLow and frHigh.
   */
  method RootStart(ra: seq<real>, de: seq<real>, fr: seq<real>, fitSize: Option<seq<real>>,
                   fitPos: Option<seq<bool>>, fitFr: Option<seq<bool>>,
                   initial: Option<seq<real>>, frLow: real, frHigh: real)
    returns (r: Result<(seq<real>, seq<real>, seq<real>)>)
    ensures r.Err? <==>
      !RootListsAgree(|ra|, de, fr, fitSize, fitPos, fitFr) || (initial.Some? && |initial.value| != 4)
    ensures !RootListsAgree(|ra|, de, fr, fitSize, fitPos, fitFr) ==> r == Err(ListLengthMismatch)
    ensures RootListsAgree(|ra|, de, fr, fitSize, fitPos, fitFr) && r.Err? ==> r.error == InitialLength
    ensures r.Ok? ==>
      var init := if initial.Some? then initial.value else [-0.5, 0.1, 0.0, 0.0];
      var size := RootFitSize(|ra|, fitSize);
      |size| == |ra| && |de| == |ra| && |fr| == |ra| && |init| == 4
      && RootStartLayout(r.value.0, r.value.1, r.value.2, ra, de, fr, size, init, frLow, frHigh)
  {
    var n := |ra|;
    if !RootListsAgree(n, de, fr, fitSize, fitPos, fitFr) {
      return Err(ListLengthMismatch);
    }
    if initial.Some? && |initial.value| != 4 {
      return Err(InitialLength);
    }
    var init := if initial.Some? then initial.value else [-0.5, 0.1, 0.0, 0.0];
    var size := RootFitSize(n, fitSize);
    var theta := new real[3 * n + 4];
    var lower := new real[3 * n + 4];
    var upper := new real[3 * n + 4];
    FillSources(theta, lower, upper, ra, de, fr, size, frLow, frHigh);
    ghost var t0, l0, u0 := theta[..], lower[..], upper[..];
    SetNuisance(theta, lower, upper, init);
    SourcesKept(t0, l0, u0, theta[..], lower[..], upper[..], ra, de, fr, size, frLow, frHigh);
    r := Ok((theta[..], lower[..], upper[..]));
  }

  /** The four nuisance slots after the sources: alpha BH, f BG, pc RA, pc Dec with their boxes. */
  method SetNuisance(theta: array<real>, lower: array<real>, upper: array<real>, init: seq<real>)
    requires theta != lower && theta != upper && lower != upper && |init| == 4
    requires theta.Length >= 4 && lower.Length == theta.Length && upper.Length == theta.Length
    modifies theta, lower, upper
    ensures var th := theta.Length - 4;
      theta[..][..th] == old(theta[..])[..th] && lower[..][..th] == old(lower[..])[..th] && upper[..][..th] == old(upper[..])[..th]
      && theta[..][th..] == init
      && lower[..][th..] == [-10.0, 0.1, init[2] - 5.0, init[3] - 5.0]
      && upper[..][th..] == [10.0, 20.0, init[2] + 5.0, init[3] + 5.0]
  {
    var th := theta.Length - 4;
    theta[th], theta[th + 1], theta[th + 2], theta[th + 3] := init[0], init[1], init[2], init[3];
    lower[th], lower[th + 1], lower[th + 2], lower[th + 3] := -10.0, 0.1, init[2] - 5.0, init[3] - 5.0;
    upper[th], upper[th + 1], upper[th + 2], upper[th + 3] := 10.0, 20.0, init[2] + 5.0, init[3] + 5.0;
  }

  /** Writing past the source slots keeps them. */
  lemma SourcesKept(t0: seq<real>, l0: seq<real>, u0: seq<real>, t1: seq<real>, l1: seq<real>, u1: seq<real>,
                    ra: seq<real>, de: seq<real>, fr: seq<real>, size: seq<real>, frLow: real, frHigh: real)
    requires |de| >= |ra| && |fr| >= |ra| && |size| >= |ra|
    requires |t0| >= 3 * |ra| && |l0| >= 3 * |ra| && |u0| >= 3 * |ra|
    requires |t1| >= 3 * |ra| && |l1| >= 3 * |ra| && |u1| >= 3 * |ra|
    requires t1[..3 * |ra|] == t0[..3 * |ra|] && l1[..3 * |ra|] == l0[..3 * |ra|] && u1[..3 * |ra|] == u0[..3 * |ra|]
    requires RootSources(t0, l0, u0, ra, de, fr, size, frLow, frHigh)
    ensures RootSources(t1, l1, u1, ra, de, fr, size, frLow, frHigh)
  {
    var m := 3 * |ra|;
    forall k | 0 <= k < |ra|
      ensures t1[3 * k] == t0[3 * k] && t1[3 * k + 1] == t0[3 * k + 1] && t1[3 * k + 2] == t0[3 * k + 2]
      ensures l1[3 * k] == l0[3 * k] && l1[3 * k + 1] == l0[3 * k + 1] && l1[3 * k + 2] == l0[3 * k + 2]
      ensures u1[3 * k] == u0[3 * k] && u1[3 * k + 1] == u0[3 * k + 1] && u1[3 * k + 2] == u0[3 * k + 2]
    {
      assert t1[3 * k] == t1[..m][3 * k] && t1[3 * k + 1] == t1[..m][3 * k + 1] && t1[3 * k + 2] == t1[..m][3 * k + 2];
      assert l1[3 * k] == l1[..m][3 * k] && l1[3 * k + 1] == l1[..m][3 * k + 1] && l1[3 * k + 2] == l1[..m][3 * k + 2];
      assert u1[3 * k] == u1[..m][3 * k] && u1[3 * k + 1] == u1[..m][3 * k + 1] && u1[3 * k + 2] == u1[..m][3 * k + 2];
    }
  }

  /** The per-source loop of the builder. */
  method FillSources(theta: array<real>, lower: array<real>, upper: array<real>,
                     ra: seq<real>, de: seq<real>, fr: seq<real>, size: seq<real>, frLow: real, frHigh: real)
    requires theta != lower && theta != upper && lower != upper
    requires |de| >= |ra| && |fr| >= |ra| && |size| >= |ra|
    requires theta.Length >= 3 * |ra| && lower.Length == theta.Length && upper.Length == theta.Length
    modifies theta, lower, upper
    ensures RootSources(theta[..], lower[..], upper[..], ra, de, fr, size, frLow, frHigh)
  {
    var ndx := 0;
    while ndx < |ra|
      invariant 0 <= ndx <= |ra|
      invariant RootSources(theta[..], lower[..], upper[..], ra[..ndx], de, fr, size, frLow, frHigh)
    {
      SetSource(theta, lower, upper, ndx, ra[ndx], de[ndx], fr[ndx], size[ndx], frLow, frHigh);
      assert ra[..ndx + 1][ndx] == ra[ndx];
      ndx := ndx + 1;
    }
    assert ra[..|ra|] == ra;
  }

  /** The three slots of one source in the three arrays; nothing else changes. */
  method SetSource(theta: array<real>, lower: array<real>, upper: array<real>, ndx: nat,
                   ra: real, de: real, fr: real, size: real, frLow: real, frHigh: real)
    requires theta != lower && theta != upper && lower != upper
    requires 3 * ndx + 2 < theta.Length && lower.Length == theta.Length && upper.Length == theta.Length
    modifies theta, lower, upper
    ensures theta[3 * ndx] == ra && theta[3 * ndx + 1] == de && theta[3 * ndx + 2] == fr
    ensures lower[3 * ndx] == ra - size && lower[3 * ndx + 1] == de - size && lower[3 * ndx + 2] == frLow
    ensures upper[3 * ndx] == ra + size && upper[3 * ndx + 1] == de + size && upper[3 * ndx + 2] == frHigh
    ensures forall i :: 0 <= i < theta.Length && !(3 * ndx <= i < 3 * ndx + 3) ==>
      theta[i] == old(theta[i]) && lower[i] == old(lower[i]) && upper[i] == old(upper[i])
  {
    theta[3 * ndx], theta[3 * ndx + 1], theta[3 * ndx + 2] := ra, de, fr;
    lower[3 * ndx], lower[3 * ndx + 1], lower[3 * ndx + 2] := ra - size, de - size, frLow;
    upper[3 * ndx], upper[3 * ndx + 1], upper[3 * ndx + 2] := ra + size, de + size, frHigh;
  }

  // ---------------------------------------------------------------------------
  // Walkers

  /**
   * The walkers' starting positions: every walker sits exactly on theta at a
   * fixed position, and at theta plus width times its noise draw elsewhere. The
   * normal draws are the input `noise` (one row per walker).
   */
  method WalkerStart(theta: seq<real>, todel: seq<int>, noise: array2<real>, width: real) returns (pos: array2<real>)
    requires noise.Length1 == |theta|
    ensures fresh(pos) && pos.Length0 == noise.Length0 && pos.Length1 == |theta|
    ensures forall w, p :: 0 <= w < pos.Length0 && 0 <= p < pos.Length1 ==>
      pos[w, p] == if p in todel then theta[p] else theta[p] + width * noise[w, p]
  {
    pos := new real[noise.Length0, |theta|];
    var par := 0;
    while par < |theta|
      invariant 0 <= par <= |theta|
      invariant forall w, p :: 0 <= w < pos.Length0 && 0 <= p < par ==>
        pos[w, p] == if p in todel then theta[p] else theta[p] + width * noise[w, p]
    {
      var w := 0;
      while w < pos.Length0
        invariant 0 <= w <= pos.Length0
        invariant forall v, p :: 0 <= v < pos.Length0 && 0 <= p < par ==>
          pos[v, p] == if p in todel then theta[p] else theta[p] + width * noise[v, p]
        invariant forall v :: 0 <= v < w ==>
          pos[v, par] == if par in todel then theta[par] else theta[par] + width * noise[v, par]
      {
        pos[w, par] := if par in todel then theta[par] else theta[par] + width * noise[w, par];
        w := w + 1;
      }
      par := par + 1;
    }
  }

  /** A walker that agrees with theta on the fixed positions holds exactly theta's fixed values there. */
  lemma WalkerKeepsFixed(theta: seq<real>, todel: seq<int>, row: seq<real>)
    requires |row| == |theta| && IndicesIn(todel, |theta|)
    requires forall p :: 0 <= p < |row| && p in todel ==> row[p] == theta[p]
    ensures Gather(row, todel) == Gather(theta, todel)
  {
    var a, b := Gather(row, todel), Gather(theta, todel);
    forall k | 0 <= k < |todel| ensures a[k] == b[k] {
      assert todel[k] in todel;
    }
  }

  // ---------------------------------------------------------------------------
  // The night fit: offsets of n sources (2 each), n-1 log flux ratios, then 11
  // slots per file (alpha BH, f BG, pc RA, pc Dec, fr BH, six coherence losses)
  // from base 3n-1.

  datatype NightOptions = NightOptions(
    fitPos: seq<bool>, fitFr: seq<bool>, nfiles: nat,
    fixedBHalpha: bool, oneBHalpha: bool, oneBG: bool, fitFor3: real, nocohloss: bool)

  /** At least one source; fit_fr needs an entry per companion, and entries past those are never read. */
  predicate NightShape(o: NightOptions)
  {
    |o.fitPos| >= 1 && |o.fitFr| >= |o.fitPos| - 1
  }

  function NightBase(o: NightOptions): nat
    requires NightShape(o)
  {
    3 * |o.fitPos| - 1
  }

  function NightLength(o: NightOptions): nat
    requires NightShape(o)
  {
    NightBase(o) + 11 * o.nfiles
  }

  /** Slot j of file f is fixed. */
  predicate FileSlotFixed(o: NightOptions, f: int, j: int)
  {
    (j == 0 && (o.fixedBHalpha || (o.oneBHalpha && f > 0)))
    || (j == 1 && o.oneBG && f > 0)
    || ((j == 2 || j == 3) && o.fitFor3 == 0.0)
    || (5 <= j < 11 && o.nocohloss)
  }

  /** Position x of the night vector is fixed: offsets unless fit_pos, flux ratios unless fit_fr, file slots as above. */
  predicate NightFixed(o: NightOptions, x: int)
  {
    var n := |o.fitPos|;
    if 0 <= x < 2 * n then !o.fitPos[x / 2]
    else if 2 * n <= x < 3 * n - 1 then x - 2 * n < |o.fitFr| && !o.fitFr[x - 2 * n]
    else 3 * n - 1 <= x && FileSlotFixed(o, (x - (3 * n - 1)) / 11, (x - (3 * n - 1)) % 11)
  }

  /** Read per file: slot j of file f. */
  lemma NightFileSlot(o: NightOptions, f: int, j: int)
    requires NightShape(o) && 0 <= f && 0 <= j < 11
    ensures NightFixed(o, NightBase(o) + 11 * f + j) <==> FileSlotFixed(o, f, j)
  {
    var x := NightBase(o) + 11 * f + j;
    assert (x - NightBase(o)) / 11 == f && (x - NightBase(o)) % 11 == j;
  }

  /** The per-file entries appended for file f, in the order the builder appends them. */
  function FileTodel(o: NightOptions, base: int, f: int): (t: seq<int>)
  {
    var b := base + 11 * f;
    (if o.fixedBHalpha then [b] else [])
    + (if o.oneBHalpha && f > 0 then [b] else [])
    + (if o.oneBG && f > 0 then [b + 1] else [])
    + (if o.fitFor3 == 0.0 then [b + 2, b + 3] else [])
    + (if o.nocohloss then [b + 5, b + 6, b + 7, b + 8, b + 9, b + 10] else [])
  }

  function NightFixedAt(o: NightOptions): int -> bool
  {
    x => NightFixed(o, x)
  }

  /** File f's entries are the fixed positions of its block. */
  lemma FileBlock(o: NightOptions, f: nat)
    requires NightShape(o)
    ensures ListsBlock(FileTodel(o, NightBase(o), f), NightBase(o) + 11 * f, NightBase(o) + 11 * f + 11, NightFixedAt(o))
  {
    var b := NightBase(o) + 11 * f;
    var t := FileTodel(o, NightBase(o), f);
    FileTodelRange(o, NightBase(o), f);
    forall x | b <= x < b + 11 ensures x in t <==> NightFixed(o, x) {
      FileTodelSlot(o, NightBase(o), f, x - b);
      NightFileSlot(o, f, x - b);
    }
  }

  /** Slot j of file f is in the file's list exactly when it is fixed. */
  lemma FileTodelSlot(o: NightOptions, base: int, f: int, j: int)
    requires 0 <= j < 11
    ensures base + 11 * f + j in FileTodel(o, base, f) <==> FileSlotFixed(o, f, j)
  {
    var b := base + 11 * f;
    var alpha := (if o.fixedBHalpha then [b] else []) + (if o.oneBHalpha && f > 0 then [b] else []);
    var bg := if o.oneBG && f > 0 then [b + 1] else [];
    var pc := if o.fitFor3 == 0.0 then [b + 2, b + 3] else [];
    var coh := if o.nocohloss then [b + 5, b + 6, b + 7, b + 8, b + 9, b + 10] else [];
    assert FileTodel(o, base, f) == alpha + bg + pc + coh;
  }

  /** File f's list stays inside its eleven slots. */
  lemma FileTodelRange(o: NightOptions, base: int, f: int)
    ensures forall x :: x in FileTodel(o, base, f) ==> base + 11 * f <= x < base + 11 * f + 11
  {
  }

  /** Source ndx's offsets are listed unless fit_pos. */
  lemma OffsetBlock(o: NightOptions, ndx: int)
    requires NightShape(o) && 0 <= ndx < |o.fitPos|
    ensures ListsBlock(if !o.fitPos[ndx] then [2 * ndx, 2 * ndx + 1] else [], 2 * ndx, 2 * ndx + 2, NightFixedAt(o))
  {
    assert (2 * ndx) / 2 == ndx && (2 * ndx + 1) / 2 == ndx;
  }

  /** Flux ratio ndx is listed unless fit_fr. */
  lemma FluxBlock(o: NightOptions, ndx: int)
    requires NightShape(o) && 0 <= ndx < |o.fitPos| - 1
    ensures ListsBlock(if !o.fitFr[ndx] then [2 * |o.fitPos| + ndx] else [], 2 * |o.fitPos| + ndx, 2 * |o.fitPos| + ndx + 1, NightFixedAt(o))
  {
  }

  /**
   * The night fit's todel: appended per source, per flux ratio and per file,
   * then sorted with duplicates removed.
   */
  method NightTodel(o: NightOptions) returns (todel: seq<int>, ndof: int)
    requires NightShape(o)
    ensures StrictlyAscending(todel) && IndicesIn(todel, NightLength(o))
    ensures forall x :: x in todel <==> 0 <= x < NightLength(o) && NightFixed(o, x)
    ensures ndof == NightLength(o) - |todel|
  {
    var fixed := NightFixedAt(o);
    var n := |o.fitPos|;
    var base := NightBase(o);
    var raw: seq<int> := [];
    var ndx := 0;
    while ndx < n
      invariant 0 <= ndx <= n && Lists(raw, 2 * ndx, fixed)
    {
      var xs := if !o.fitPos[ndx] then [2 * ndx, 2 * ndx + 1] else [];
      OffsetBlock(o, ndx);
      Extend(raw, xs, 2 * ndx, 2 * ndx + 2, fixed);
      raw := raw + xs;
      ndx := ndx + 1;
    }
    ndx := 0;
    while ndx < n - 1
      invariant 0 <= ndx <= n - 1 && Lists(raw, 2 * n + ndx, fixed)
    {
      var xs := if !o.fitFr[ndx] then [2 * n + ndx] else [];
      FluxBlock(o, ndx);
      Extend(raw, xs, 2 * n + ndx, 2 * n + ndx + 1, fixed);
      raw := raw + xs;
      ndx := ndx + 1;
    }
    ndx := 0;
    while ndx < o.nfiles
      invariant 0 <= ndx <= o.nfiles && Lists(raw, base + 11 * ndx, fixed)
    {
      var xs := FileTodel(o, base, ndx);
      FileBlock(o, ndx);
      Extend(raw, xs, base + 11 * ndx, base + 11 * ndx + 11, fixed);
      raw := raw + xs;
      ndx := ndx + 1;
    }
    Extend(raw, [], NightLength(o), NightLength(o), fixed);
    assert raw + [] == raw;
    SortedIndicesIn(raw, NightLength(o));
    todel := SortUnique(raw);
    ndof := NightLength(o) - |todel|;
  }

  /**
   * With the night fit's sorted todel, the likelihood's insertion loop restores
   * the night vector exactly, and the sampler sees one entry per fitted slot.
   */
  lemma NightRoundTrip(o: NightOptions, theta: seq<real>, todel: seq<int>)
    requires NightShape(o) && |theta| == NightLength(o)
    requires StrictlyAscending(todel)
    requires forall x :: x in todel <==> 0 <= x < NightLength(o) && NightFixed(o, x)
    ensures IndicesIn(todel, NightLength(o))
    ensures Expand(Delete(theta, todel), todel, Gather(theta, todel)) == Some(theta)
    ensures |Delete(theta, todel)| == NightLength(o) - |todel|
  {
    assert IndicesIn(todel, NightLength(o)) by {
      forall k | 0 <= k < |todel| ensures 0 <= todel[k] < NightLength(o) {
        assert todel[k] in todel;
      }
    }
    RoundTrip(theta, todel);
    ReducedLength(theta, todel);
  }

  /**
   * The night-vector slot that file f's nuisance slot j reads, as written: with
   * oneBHalpha the alpha of file 0, and otherwise the file's own slot; the
   * background is read through its two identical branches.
   */
  function NuisanceSlot(o: NightOptions, f: nat, j: nat): (s: nat)
    requires NightShape(o) && f < o.nfiles && j < 11
    ensures NightBase(o) <= s < NightLength(o)
    ensures j == 0 && o.oneBHalpha ==> s == NightBase(o)
    ensures !(j == 0 && o.oneBHalpha) ==> s == NightBase(o) + 11 * f + j
  {
    if j == 0 && o.oneBHalpha then NightBase(o)
    else if j == 1 then BackgroundSlotAsWritten(o, f)
    else NightBase(o) + 11 * f + j
  }

  /** The slot the unpacking reads for file f's background, as written: the file's own in both branches. */
  function BackgroundSlotAsWritten(o: NightOptions, f: nat): (s: nat)
    requires NightShape(o) && f < o.nfiles
    ensures s == NightBase(o) + 11 * f + 1
  {
    if o.oneBG then NightBase(o) + 11 * f + 1 else NightBase(o) + 11 * f + 1
  }

  /**
   * What the unpacking reads is fixed exactly when the slot of the file it is
   * read from is fixed: file 0 for a shared alpha, the file itself otherwise.
   */
  lemma NuisanceSlotFixed(o: NightOptions, f: nat, j: nat)
    requires NightShape(o) && f < o.nfiles && j < 11
    ensures NightFixed(o, NuisanceSlot(o, f, j)) <==> FileSlotFixed(o, if j == 0 && o.oneBHalpha then 0 else f, j)
  {
    NightFileSlot(o, if j == 0 && o.oneBHalpha then 0 else f, j);
  }

  /**
   * As written, with one shared background every later file reads its own
   * background slot, which is fixed: it keeps its starting value and never
   * follows the fitted background of the first file.
   */
  lemma SharedBackgroundFixedAsWritten(o: NightOptions, f: nat)
    requires NightShape(o) && 0 < f < o.nfiles && o.oneBG
    ensures NightFixed(o, NuisanceSlot(o, f, 1))
    ensures NuisanceSlot(o, f, 1) == NightBase(o) + 11 * f + 1
    ensures NuisanceSlot(o, f, 1) != NuisanceSlot(o, 0, 1)
  {
    NightFileSlot(o, f, 1);
  }

  /** Corrected: with oneBG every file reads the background of file 0, like a shared alpha. */
  function NuisanceSlotCorrected(o: NightOptions, f: nat, j: nat): (s: nat)
    requires NightShape(o) && f < o.nfiles && j < 11
    ensures NightBase(o) <= s < NightLength(o)
    ensures s != NuisanceSlot(o, f, j) ==> j == 1 && o.oneBG && f > 0
  {
    var shared := (j == 0 && o.oneBHalpha) || (j == 1 && o.oneBG);
    NightBase(o) + (if shared then 0 else 11 * f) + j
  }

  /** Corrected: every file reads a background slot that is fitted, never a fixed one. */
  lemma BackgroundAlwaysFitted(o: NightOptions, f: nat)
    requires NightShape(o) && f < o.nfiles
    ensures !NightFixed(o, NuisanceSlotCorrected(o, f, 1))
  {
    if o.oneBG {
      NightFileSlot(o, 0, 1);
    } else {
      NightFileSlot(o, f, 1);
    }
  }

  /**
   * The per-file parameter vector handed to the multi-source model: source 0's
   * offsets, then for source s >= 1 its offsets and log flux ratio at 3s-1, 3s,
   * 3s+1, then the file's eleven nuisance slots from 3n-1.
   */
  method UnpackFile(o: NightOptions, theta: seq<real>, f: nat) returns (t: seq<real>)
    requires NightShape(o) && |theta| == NightLength(o) && f < o.nfiles
    ensures |t| == 3 * |o.fitPos| + 10
    ensures SourcesUnpacked(t, theta, |o.fitPos|, |o.fitPos|)
    ensures forall j :: 0 <= j < 11 ==> t[NightBase(o) + j] == theta[NuisanceSlot(o, f, j)]
  {
    var n := |o.fitPos|;
    var a := new real[3 * n + 10](_ => 0.0);
    UnpackSources(a, theta, n);
    UnpackNuisance(a, o, theta, f);
    t := a[..];
  }

  /** Source 0's offsets, then (for s below `upto`) source s's offsets and flux ratio at 3s-1, 3s, 3s+1. */
  ghost predicate SourcesUnpacked(t: seq<real>, theta: seq<real>, n: nat, upto: nat)
    requires |t| >= 3 * n - 1 && |theta| >= 3 * n - 1 && 1 <= upto <= n
  {
    t[0] == theta[0] && t[1] == theta[1]
    && forall s :: 1 <= s < upto ==>
      t[3 * s - 1] == theta[2 * s] && t[3 * s] == theta[2 * s + 1] && t[3 * s + 1] == theta[2 * n + s - 1]
  }

  method UnpackSources(a: array<real>, theta: seq<real>, n: nat)
    requires n >= 1 && a.Length >= 3 * n - 1 && |theta| >= 3 * n - 1
    modifies a
    ensures SourcesUnpacked(a[..], theta, n, n)
    ensures forall i :: 3 * n - 1 <= i < a.Length ==> a[i] == old(a[i])
  {
    a[0], a[1] := theta[0], theta[1];
    var sdx := 1;
    while sdx < n
      invariant 1 <= sdx <= n
      invariant SourcesUnpacked(a[..], theta, n, sdx) && (forall i :: 3 * n - 1 <= i < a.Length ==> a[i] == old(a[i]))
    {
      a[3 * sdx - 1], a[3 * sdx], a[3 * sdx + 1] := theta[2 * sdx], theta[2 * sdx + 1], theta[2 * n + sdx - 1];
      sdx := sdx + 1;
    }
  }

  method UnpackNuisance(a: array<real>, o: NightOptions, theta: seq<real>, f: nat)
    requires NightShape(o) && |theta| == NightLength(o) && f < o.nfiles && a.Length == NightBase(o) + 11
    modifies a
    ensures forall i :: 0 <= i < NightBase(o) ==> a[i] == old(a[i])
    ensures forall j :: 0 <= j < 11 ==> a[NightBase(o) + j] == theta[NuisanceSlot(o, f, j)]
  {
    var j := 0;
    while j < 11
      invariant 0 <= j <= 11
      invariant forall i :: 0 <= i < NightBase(o) ==> a[i] == old(a[i])
      invariant forall i :: 0 <= i < j ==> a[NightBase(o) + i] == theta[NuisanceSlot(o, f, i)]
    {
      a[NightBase(o) + j] := theta[NuisanceSlot(o, f, j)];
      j := j + 1;
    }
  }
}
