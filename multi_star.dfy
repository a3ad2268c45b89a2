/**
 * Parameter layout of the multi-source fit (the `fit_stars` method of the
 * per-file fitter): which slot of theta holds which quantity, the prior box of
 * every slot, the list of fixed slots (`todel`), and the reduction of the vectors
 * handed to the sampler.
 *
 * With n sources, source 1 (the reference star) owns slots 0 and 1 (its offsets);
 * source k+1 for k >= 1 owns slots 3k-1, 3k, 3k+1 (offsets and log flux ratio).
 * The eleven nuisance slots start at th_rest = 3n-1 (0 when there is no source):
 * alpha BH, f BG, pc RA, pc Dec, fr BH, then one coherence loss per baseline.
 */
module MultiStar {
  import opened Common
  import opened ParamVector

  datatype ParamName =
    | DRA(src: nat) | DDEC(src: nat) | Fr(src: nat)
    | AlphaBH | FBG | PcRA | PcDec | FrBH
    | CL(baseline: nat)

  /** The coh_loss option: off, on for every baseline, or a per-baseline mask. */
  datatype CohLoss = CohOff | CohOn | CohMask(mask: seq<bool>)

  /** The nuisance starting values: the `initial` list, with log10 applied to fr BH. */
  datatype Initial = Initial(alpha: real, fBG: real, pcRA: real, pcDEC: real, logFrBH: real, cohLoss: real)

  /** The caller's arguments. Flux ratios are linear; the fit works on their log10. */
  datatype Setup = Setup(
    raList: seq<real>, deList: seq<real>, frList: seq<real>,
    fitSize: Option<seq<real>>, fitPos: Option<seq<bool>>, fitFr: Option<seq<bool>>,
    initial: Option<seq<real>>,
    fixedBHalpha: bool, fixedBG: bool, fitPhaseCentre: bool, cohLoss: CohLoss)

  /** The arguments after defaults and checks. */
  datatype Resolved = Resolved(
    ra: seq<real>, de: seq<real>, logFr: seq<real>,
    size: seq<real>, pos: seq<bool>, fr: seq<bool>, init: Initial,
    fixedBHalpha: bool, fixedBG: bool, fitPhaseCentre: bool, cohLoss: CohLoss)

  datatype Parameters = Parameters(
    theta: seq<real>, lower: seq<real>, upper: seq<real>,
    names: seq<ParamName>, todel: seq<int>, ndof: int)

  /** What the sampler sees, and what the likelihood needs to rebuild theta. */
  datatype Reduced = Reduced(
    theta: seq<real>, lower: seq<real>, upper: seq<real>,
    names: seq<ParamName>, fixed: seq<real>, todel: seq<int>)

  function ThRest(n: nat): nat
  {
    if n == 0 then 0 else 3 * n - 1
  }

  function ThetaLength(n: nat): nat
  {
    ThRest(n) + 11
  }

  /** First slot after the sources 1..k. */
  function SourceEnd(k: nat): nat
  {
    if k == 0 then 0 else 3 * k - 1
  }

  predicate NameIn(n: nat, x: ParamName)
  {
    match x
    case DRA(m) => 1 <= m <= n
    case DDEC(m) => 1 <= m <= n
    case Fr(m) => 2 <= m <= n
    case CL(b) => 1 <= b <= 6
    case _ => true
  }

  function NuisanceName(j: nat): (x: ParamName)
    requires j < 11
    ensures NameIn(0, x)
  {
    if j == 0 then AlphaBH
    else if j == 1 then FBG
    else if j == 2 then PcRA
    else if j == 3 then PcDec
    else if j == 4 then FrBH
    else CL(j - 4)
  }

  /** The name the builder appends for slot i. */
  function SlotName(n: nat, i: nat): (x: ParamName)
    requires i < ThetaLength(n)
    ensures NameIn(n, x)
  {
    if i < ThRest(n) then
      if i == 0 then DRA(1)
      else if i == 1 then DDEC(1)
      else if (i + 1) % 3 == 0 then DRA((i + 1) / 3 + 1)
      else if (i + 1) % 3 == 1 then DDEC((i + 1) / 3 + 1)
      else Fr((i + 1) / 3 + 1)
    else NuisanceName(i - ThRest(n))
  }

  /** The slot the model reads for a named quantity. */
  function SlotOf(n: nat, x: ParamName): (i: nat)
    requires NameIn(n, x)
    ensures i < ThetaLength(n)
  {
    match x
    case DRA(m) => if m == 1 then 0 else 3 * (m - 1) - 1
    case DDEC(m) => if m == 1 then 1 else 3 * (m - 1)
    case Fr(m) => 3 * (m - 1) + 1
    case AlphaBH => ThRest(n)
    case FBG => ThRest(n) + 1
    case PcRA => ThRest(n) + 2
    case PcDec => ThRest(n) + 3
    case FrBH => ThRest(n) + 4
    case CL(b) => ThRest(n) + 4 + b
  }

  /** Names and slots are in one-to-one correspondence: every slot has its own name. */
  lemma SlotNameRoundTrip(n: nat, i: nat)
    requires i < ThetaLength(n)
    ensures SlotOf(n, SlotName(n, i)) == i
  {
  }

  lemma SlotOfRoundTrip(n: nat, x: ParamName)
    requires NameIn(n, x)
    ensures SlotName(n, SlotOf(n, x)) == x
  {
  }

  /** The slots of source k+1 (k >= 1), as the builder writes them. */
  lemma CompanionSlots(n: nat, k: nat)
    requires 1 <= k < n
    ensures SlotName(n, 3 * k - 1) == DRA(k + 1)
    ensures SlotName(n, 3 * k) == DDEC(k + 1)
    ensures SlotName(n, 3 * k + 1) == Fr(k + 1)
  {
    SlotOfRoundTrip(n, DRA(k + 1));
    SlotOfRoundTrip(n, DDEC(k + 1));
    SlotOfRoundTrip(n, Fr(k + 1));
  }

  predicate WellFormed(rs: Resolved)
  {
    var n := |rs.ra|;
    |rs.de| == n && |rs.size| == n && |rs.pos| == n
    && (n > 0 ==> |rs.logFr| == n - 1 && |rs.fr| == n - 1)
    && (rs.cohLoss.CohMask? ==> |rs.cohLoss.mask| == 0 || |rs.cohLoss.mask| == 6)
  }

  function OptionOr<T>(o: Option<seq<T>>, d: seq<T>): seq<T>
  {
    if o.Some? then o.value else d
  }

  /** Defaults and the argument checks, in the order the builder makes them. */
  function Resolve(s: Setup, log10: real -> real): (r: Result<Resolved>)
    ensures r.Ok? ==> WellFormed(r.value) && r.value.ra == s.raList
    ensures r.Err? ==> r.error in {ListLengthMismatch, InitialLength, CohLossListLength}
    ensures (|s.raList| > 0 && |s.deList| != |s.raList|) ==> r == Err(ListLengthMismatch)
    ensures s.cohLoss.CohMask? && |s.cohLoss.mask| !in {0, 6} ==> r.Err?
  {
    var n := |s.raList|;
    var size := OptionOr(s.fitSize, seq(n, _ => 5.0));
    var pos := OptionOr(s.fitPos, seq(n, _ => true));
    var fr := OptionOr(s.fitFr, seq(if n == 0 then 0 else n - 1, _ => true));
    var logFr := seq(|s.frList|, i requires 0 <= i < |s.frList| => log10(s.frList[i]));
    if n > 0 && (|s.deList| != n || |pos| != n || |size| != n) then Err(ListLengthMismatch)
    else if n > 0 && (|s.frList| != n - 1 || |fr| != n - 1) then Err(ListLengthMismatch)
    else if s.initial.Some? && |s.initial.value| != 6 then Err(InitialLength)
    else if s.cohLoss.CohMask? && |s.cohLoss.mask| != 0 && |s.cohLoss.mask| != 6 then Err(CohLossListLength)
    else
      var init :=
        if s.initial.Some? then
          var v := s.initial.value;
          Initial(v[0], v[1], v[2], v[3], log10(v[4]), v[5])
        else Initial(-0.5, 0.1, 0.0, 0.0, log10(1.0), 1.0);
      var sizes := if n == 0 then [] else size;
      var poss := if n == 0 then [] else pos;
      Ok(Resolved(s.raList, if n == 0 then [] else s.deList, logFr, sizes, poss, fr, init,
                  s.fixedBHalpha, s.fixedBG, s.fitPhaseCentre, s.cohLoss))
  }

  /** Starting value of a named quantity. */
  function ValueOf(rs: Resolved, x: ParamName): real
    requires WellFormed(rs) && NameIn(|rs.ra|, x)
  {
    match x
    case DRA(m) => rs.ra[m - 1]
    case DDEC(m) => rs.de[m - 1]
    case Fr(m) => rs.logFr[m - 2]
    case AlphaBH => rs.init.alpha
    case FBG => rs.init.fBG
    case PcRA => rs.init.pcRA
    case PcDec => rs.init.pcDEC
    case FrBH => rs.init.logFrBH
    case CL(_) => rs.init.cohLoss
  }

  /** Lower edge of the prior box; log10(0.001) = -3 for flux ratios. */
  function LowerOf(rs: Resolved, x: ParamName): real
    requires WellFormed(rs) && NameIn(|rs.ra|, x)
  {
    match x
    case DRA(m) => rs.ra[m - 1] - rs.size[m - 1]
    case DDEC(m) => rs.de[m - 1] - rs.size[m - 1]
    case Fr(_) => -3.0
    case AlphaBH => -10.0
    case FBG => -2.0
    case PcRA => rs.init.pcRA - 5.0
    case PcDec => rs.init.pcDEC - 5.0
    case FrBH => -3.0
    case CL(_) => 0.1
  }

  /** Upper edge of the prior box; log10(100) = 2 for flux ratios. */
  function UpperOf(rs: Resolved, x: ParamName): real
    requires WellFormed(rs) && NameIn(|rs.ra|, x)
  {
    match x
    case DRA(m) => rs.ra[m - 1] + rs.size[m - 1]
    case DDEC(m) => rs.de[m - 1] + rs.size[m - 1]
    case Fr(_) => 2.0
    case AlphaBH => 10.0
    case FBG => 20.0
    case PcRA => rs.init.pcRA + 5.0
    case PcDec => rs.init.pcDEC + 5.0
    case FrBH => 2.0
    case CL(_) => 1.5
  }

  /** Fixed slots contributed by sources 1..k, in the order they are appended. */
  function SourceTodel(rs: Resolved, k: nat): seq<int>
    requires WellFormed(rs) && k <= |rs.ra|
  {
    if k == 0 then []
    else if k == 1 then (if !rs.pos[0] then [0, 1] else [])
    else
      SourceTodel(rs, k - 1) + CompanionTodel(rs, k - 1)
  }

  /** Fixed slots of companion j+1 (j >= 1): its offsets unless fitted, then its flux. */
  function CompanionTodel(rs: Resolved, j: nat): seq<int>
    requires WellFormed(rs) && 1 <= j < |rs.ra|
  {
    (if !rs.pos[j] then [3 * j - 1, 3 * j] else [])
    + (if !rs.fr[j - 1] then [3 * j + 1] else [])
  }

  /** Slots base + i for the baselines whose mask entry is false. */
  function MaskedOut(mask: seq<bool>, base: int): seq<int>
  {
    if mask == [] then []
    else (if !mask[0] then [base] else []) + MaskedOut(mask[1..], base + 1)
  }

  function AlphaTodel(rs: Resolved): seq<int>
  {
    if rs.fixedBHalpha then [ThRest(|rs.ra|)] else []
  }

  function BGTodel(rs: Resolved): seq<int>
  {
    if rs.fixedBG then [ThRest(|rs.ra|) + 1] else []
  }

  function PhaseCentreTodel(rs: Resolved): seq<int>
  {
    if !rs.fitPhaseCentre then [ThRest(|rs.ra|) + 2, ThRest(|rs.ra|) + 3] else []
  }

  function FrBHTodel(rs: Resolved): seq<int>
  {
    if |rs.ra| == 0 then [ThRest(|rs.ra|) + 4] else []
  }

  /**
   * The coherence-loss appends: all six slots when the option is off (or an empty
   * mask, which Python reads as false), the masked-out ones for a mask, and - when
   * the option is simply on and the background is free - the background slot.
   */
  function CohTodel(rs: Resolved): seq<int>
  {
    var r := ThRest(|rs.ra|);
    var cl := [r + 5, r + 6, r + 7, r + 8, r + 9, r + 10];
    match rs.cohLoss
    case CohOff => cl
    case CohMask(m) => if |m| == 0 then cl else MaskedOut(m, r + 5)
    case CohOn => if !rs.fixedBG then [r + 1] else []
  }

  /** The whole todel list, in the order the builder appends it. */
  function Todel(rs: Resolved): seq<int>
    requires WellFormed(rs)
  {
    SourceTodel(rs, |rs.ra|) + AlphaTodel(rs) + BGTodel(rs) + PhaseCentreTodel(rs) + FrBHTodel(rs) + CohTodel(rs)
  }

  /** The three numeric vectors the builder fills: starting value, lower and upper edge. */
  datatype Column = Start | Low | High

  function Expected(rs: Resolved, c: Column, x: ParamName): real
    requires WellFormed(rs) && NameIn(|rs.ra|, x)
  {
    match c
    case Start => ValueOf(rs, x)
    case Low => LowerOf(rs, x)
    case High => UpperOf(rs, x)
  }

  /** Slots from..to-1 of one vector hold what the layout prescribes for that column. */
  predicate ColumnFilled(rs: Resolved, c: Column, a: array<real>, from: nat, to: nat)
    requires WellFormed(rs) && from <= to <= ThetaLength(|rs.ra|) && a.Length == ThetaLength(|rs.ra|)
    reads a
  {
    forall i :: from <= i < to ==> a[i] == Expected(rs, c, SlotName(|rs.ra|, i))
  }

  /** The three vectors of the builder, filled up to slot to-1. */
  predicate ColumnsFilled(rs: Resolved, theta: array<real>, lower: array<real>, upper: array<real>, to: nat)
    requires WellFormed(rs) && to <= ThetaLength(|rs.ra|)
    requires theta.Length == lower.Length == upper.Length == ThetaLength(|rs.ra|)
    reads theta, lower, upper
  {
    ColumnFilled(rs, Start, theta, 0, to) && ColumnFilled(rs, Low, lower, 0, to) && ColumnFilled(rs, High, upper, 0, to)
  }

  predicate NamesFilled(n: nat, names: seq<ParamName>, to: nat)
    requires to <= |names| && to <= ThetaLength(n)
  {
    forall i :: 0 <= i < to ==> names[i] == SlotName(n, i)
  }

  /** Source 1: slots 0 and 1. */
  method SetPair(rs: Resolved, c: Column, a: array<real>, v0: real, v1: real)
    requires WellFormed(rs) && |rs.ra| >= 1 && a.Length == ThetaLength(|rs.ra|)
    requires v0 == Expected(rs, c, DRA(1)) && v1 == Expected(rs, c, DDEC(1))
    modifies a
    ensures ColumnFilled(rs, c, a, 0, 2)
  {
    a[0], a[1] := v0, v1;
  }

  /** Source ndx+1 (ndx >= 1): three slots from 3 ndx - 1 on; earlier slots untouched. */
  method SetTriple(rs: Resolved, c: Column, a: array<real>, ndx: nat, v0: real, v1: real, v2: real)
    requires WellFormed(rs) && 1 <= ndx < |rs.ra| && a.Length == ThetaLength(|rs.ra|)
    requires ColumnFilled(rs, c, a, 0, SourceEnd(ndx))
    requires v0 == Expected(rs, c, DRA(ndx + 1)) && v1 == Expected(rs, c, DDEC(ndx + 1))
    requires v2 == Expected(rs, c, Fr(ndx + 1))
    modifies a
    ensures ColumnFilled(rs, c, a, 0, SourceEnd(ndx + 1))
  {
    CompanionSlots(|rs.ra|, ndx);
    var e := 3 * ndx - 1;
    SetSlot(rs, c, a, e, v0);
    SetSlot(rs, c, a, e + 1, v1);
    SetSlot(rs, c, a, e + 2, v2);
  }

  /** Writes slot i, extending the filled prefix 0..i by one. */
  method SetSlot(rs: Resolved, c: Column, a: array<real>, i: nat, v: real)
    requires WellFormed(rs) && i < ThetaLength(|rs.ra|) && a.Length == ThetaLength(|rs.ra|)
    requires ColumnFilled(rs, c, a, 0, i)
    requires v == Expected(rs, c, SlotName(|rs.ra|, i))
    modifies a
    ensures ColumnFilled(rs, c, a, 0, i + 1)
  {
    a[i] := v;
  }

  lemma NuisanceSlots(n: nat, j: nat)
    requires j < 11
    ensures SlotName(n, ThRest(n) + j) == NuisanceName(j)
  {
  }

  /** One vector's nuisance block: five values, then one value for all six baselines. */
  method SetNuisance(rs: Resolved, c: Column, a: array<real>, v0: real, v1: real, v2: real, v3: real, v4: real, cl: real)
    requires WellFormed(rs) && a.Length == ThetaLength(|rs.ra|)
    requires ColumnFilled(rs, c, a, 0, ThRest(|rs.ra|))
    requires v0 == Expected(rs, c, AlphaBH) && v1 == Expected(rs, c, FBG)
    requires v2 == Expected(rs, c, PcRA) && v3 == Expected(rs, c, PcDec)
    requires v4 == Expected(rs, c, FrBH) && cl == Expected(rs, c, CL(1))
    modifies a
    ensures ColumnFilled(rs, c, a, 0, ThetaLength(|rs.ra|))
  {
    var n := |rs.ra|;
    var th := ThRest(n);
    a[th], a[th + 1], a[th + 2], a[th + 3], a[th + 4] := v0, v1, v2, v3, v4;
    forall i | th + 5 <= i < a.Length {
      a[i] := cl;
    }
    forall i | th <= i < th + 11 ensures a[i] == Expected(rs, c, SlotName(n, i)) {
      NuisanceSlots(n, i - th);
    }
  }

  /** The source loop of the builder. */
  method FillSources(rs: Resolved, theta: array<real>, lower: array<real>, upper: array<real>)
    returns (names: seq<ParamName>, todel: seq<int>)
    requires WellFormed(rs)
    requires theta.Length == lower.Length == upper.Length == ThetaLength(|rs.ra|)
    requires theta != lower && theta != upper && lower != upper
    modifies theta, lower, upper
    ensures |names| == ThRest(|rs.ra|) && NamesFilled(|rs.ra|, names, ThRest(|rs.ra|))
    ensures ColumnsFilled(rs, theta, lower, upper, ThRest(|rs.ra|))
    ensures todel == SourceTodel(rs, |rs.ra|)
  {
    var n := |rs.ra|;
    names, todel := [], [];
    var ndx := 0;
    while ndx < n
      invariant 0 <= ndx <= n
      invariant |names| == SourceEnd(ndx) && NamesFilled(n, names, SourceEnd(ndx))
      invariant ColumnsFilled(rs, theta, lower, upper, SourceEnd(ndx))
      invariant todel == SourceTodel(rs, ndx)
    {
      WriteSource(rs, theta, lower, upper, ndx);
      names, todel := NoteSource(rs, names, todel, ndx);
      ndx := ndx + 1;
    }
    assert SourceEnd(n) == ThRest(n);
  }

  /** One pass of the source loop, values: source ndx+1 gets its slots in the three vectors. */
  method WriteSource(rs: Resolved, theta: array<real>, lower: array<real>, upper: array<real>, ndx: nat)
    requires WellFormed(rs) && ndx < |rs.ra|
    requires theta.Length == lower.Length == upper.Length == ThetaLength(|rs.ra|)
    requires theta != lower && theta != upper && lower != upper
    requires ColumnsFilled(rs, theta, lower, upper, SourceEnd(ndx))
    modifies theta, lower, upper
    ensures ColumnsFilled(rs, theta, lower, upper, SourceEnd(ndx + 1))
  {
    if ndx == 0 {
      SetPair(rs, Start, theta, rs.ra[0], rs.de[0]);
      SetPair(rs, Low, lower, rs.ra[0] - rs.size[0], rs.de[0] - rs.size[0]);
      SetPair(rs, High, upper, rs.ra[0] + rs.size[0], rs.de[0] + rs.size[0]);
    } else {
      SetTriple(rs, Start, theta, ndx, rs.ra[ndx], rs.de[ndx], rs.logFr[ndx - 1]);
      SetTriple(rs, Low, lower, ndx, rs.ra[ndx] - rs.size[ndx], rs.de[ndx] - rs.size[ndx], -3.0);
      SetTriple(rs, High, upper, ndx, rs.ra[ndx] + rs.size[ndx], rs.de[ndx] + rs.size[ndx], 2.0);
    }
  }

  /** One pass of the source loop, bookkeeping: the names of source ndx+1 and its fixed slots. */
  method NoteSource(rs: Resolved, names: seq<ParamName>, todel: seq<int>, ndx: nat)
    returns (names': seq<ParamName>, todel': seq<int>)
    requires WellFormed(rs) && ndx < |rs.ra|
    requires |names| == SourceEnd(ndx) && NamesFilled(|rs.ra|, names, SourceEnd(ndx))
    requires todel == SourceTodel(rs, ndx)
    ensures |names'| == SourceEnd(ndx + 1) && NamesFilled(|rs.ra|, names', SourceEnd(ndx + 1))
    ensures todel' == SourceTodel(rs, ndx + 1)
  {
    todel' := todel;
    if ndx == 0 {
      if !rs.pos[0] {
        todel' := todel' + [0, 1];
      }
      names' := names + [DRA(1), DDEC(1)];
      NamesExtend(|rs.ra|, names, [DRA(1), DDEC(1)]);
    } else {
      if !rs.pos[ndx] {
        todel' := todel' + [3 * ndx - 1, 3 * ndx];
      }
      if !rs.fr[ndx - 1] {
        todel' := todel' + [3 * ndx + 1];
      }
      CompanionSlots(|rs.ra|, ndx);
      names' := names + [DRA(ndx + 1), DDEC(ndx + 1), Fr(ndx + 1)];
      NamesExtend(|rs.ra|, names, [DRA(ndx + 1), DDEC(ndx + 1), Fr(ndx + 1)]);
    }
  }

  /** Appending the names of the next slots keeps the name list in step with the layout. */
  lemma NamesExtend(n: nat, names: seq<ParamName>, xs: seq<ParamName>)
    requires |names| + |xs| <= ThetaLength(n) && NamesFilled(n, names, |names|)
    requires forall k :: 0 <= k < |xs| ==> xs[k] == SlotName(n, |names| + k)
    ensures NamesFilled(n, names + xs, |names| + |xs|)
  {
    forall i | 0 <= i < |names| + |xs|
      ensures (names + xs)[i] == SlotName(n, i)
    {
      if i >= |names| {
        assert (names + xs)[i] == xs[i - |names|];
      }
    }
  }

  /** The nuisance block of the builder: eleven slots from th_rest on. */
  method FillNuisance(rs: Resolved, theta: array<real>, lower: array<real>, upper: array<real>, names: seq<ParamName>)
    returns (all: seq<ParamName>)
    requires WellFormed(rs)
    requires theta.Length == lower.Length == upper.Length == ThetaLength(|rs.ra|)
    requires theta != lower && theta != upper && lower != upper
    requires |names| == ThRest(|rs.ra|) && NamesFilled(|rs.ra|, names, ThRest(|rs.ra|))
    requires ColumnsFilled(rs, theta, lower, upper, ThRest(|rs.ra|))
    modifies theta, lower, upper
    ensures |all| == ThetaLength(|rs.ra|) && NamesFilled(|rs.ra|, all, ThetaLength(|rs.ra|))
    ensures ColumnFilled(rs, Start, theta, 0, ThetaLength(|rs.ra|))
    ensures ColumnFilled(rs, Low, lower, 0, ThetaLength(|rs.ra|))
    ensures ColumnFilled(rs, High, upper, 0, ThetaLength(|rs.ra|))
  {
    var n := |rs.ra|;
    var th := ThRest(n);
    SetNuisance(rs, Start, theta, rs.init.alpha, rs.init.fBG, rs.init.pcRA, rs.init.pcDEC, rs.init.logFrBH, rs.init.cohLoss);
    SetNuisance(rs, Low, lower, -10.0, -2.0, rs.init.pcRA - 5.0, rs.init.pcDEC - 5.0, -3.0, 0.1);
    SetNuisance(rs, High, upper, 10.0, 20.0, rs.init.pcRA + 5.0, rs.init.pcDEC + 5.0, 2.0, 1.5);
    var block := [AlphaBH, FBG, PcRA, PcDec, FrBH, CL(1), CL(2), CL(3), CL(4), CL(5), CL(6)];
    all := names + block;
    forall i | 0 <= i < th + 11 ensures all[i] == SlotName(n, i) {
      if i >= th {
        NuisanceSlots(n, i - th);
        assert all[i] == block[i - th];
      }
    }
  }

  /** The appends to todel after the nuisance block is filled. */
  method AppendNuisanceTodel(rs: Resolved, todel: seq<int>) returns (t: seq<int>)
    ensures t == todel + AlphaTodel(rs) + BGTodel(rs) + PhaseCentreTodel(rs) + FrBHTodel(rs) + CohTodel(rs)
  {
    var th := ThRest(|rs.ra|);
    t := todel;
    if rs.fixedBHalpha {
      t := t + [th];
    }
    assert t == todel + AlphaTodel(rs);
    if rs.fixedBG {
      t := t + [th + 1];
    }
    assert t == todel + AlphaTodel(rs) + BGTodel(rs);
    if !rs.fitPhaseCentre {
      t := t + [th + 2, th + 3];
    }
    assert t == todel + AlphaTodel(rs) + BGTodel(rs) + PhaseCentreTodel(rs);
    if |rs.ra| == 0 {
      t := t + [th + 4];
    }
    assert t == todel + AlphaTodel(rs) + BGTodel(rs) + PhaseCentreTodel(rs) + FrBHTodel(rs);
    match rs.cohLoss {
      case CohOff =>
        t := t + [th + 5, th + 6, th + 7, th + 8, th + 9, th + 10];
      case CohMask(m) =>
        if |m| == 0 {
          t := t + [th + 5, th + 6, th + 7, th + 8, th + 9, th + 10];
        } else {
          t := t + MaskedOut(m, th + 5);
        }
      case CohOn =>
        if !rs.fixedBG {
          t := t + [th + 1];
        }
    }
  }

  /**
   * The builder: fills theta, lower and upper slot by slot, appends the names and
   * the fixed slots, and counts the free parameters.
   */
  method BuildParameters(s: Setup, log10: real -> real) returns (r: Result<Parameters>)
    ensures r.Err? <==> Resolve(s, log10).Err?
    ensures r.Err? ==> r.error == Resolve(s, log10).error
    ensures r.Ok? ==>
      var rs := Resolve(s, log10).value;
      var n := |s.raList|;
      var p := r.value;
      |p.theta| == |p.lower| == |p.upper| == |p.names| == ThetaLength(n)
      && (forall i :: 0 <= i < ThetaLength(n) ==>
            p.names[i] == SlotName(n, i)
            && p.theta[i] == ValueOf(rs, SlotName(n, i))
            && p.lower[i] == LowerOf(rs, SlotName(n, i))
            && p.upper[i] == UpperOf(rs, SlotName(n, i)))
      && p.todel == Todel(rs)
      && p.ndof == ThetaLength(n) - |Todel(rs)|
  {
    var res := Resolve(s, log10);
    if res.Err? {
      return Err(res.error);
    }
    var rs := res.value;
    var n := |rs.ra|;
    var len := ThetaLength(n);
    var theta := new real[len](_ => 0.0);
    var lower := new real[len](_ => 0.0);
    var upper := new real[len](_ => 0.0);
    var names, todel := FillSources(rs, theta, lower, upper);
    var all := FillNuisance(rs, theta, lower, upper, names);
    todel := AppendNuisanceTodel(rs, todel);
    r := Ok(Parameters(theta[..], lower[..], upper[..], all, todel, len - |todel|));
  }

  // ---------------------------------------------------------------------------
  // Shape of the todel list

  predicate AllIn(t: seq<int>, lo: int, hi: int)
  {
    forall i :: 0 <= i < |t| ==> lo <= t[i] < hi
  }

  lemma Join(a: seq<int>, b: seq<int>, lo: int, mid: int, hi: int)
    requires lo <= mid <= hi
    requires StrictlyAscending(a) && AllIn(a, lo, mid)
    requires StrictlyAscending(b) && AllIn(b, mid, hi)
    ensures StrictlyAscending(a + b) && AllIn(a + b, lo, hi)
  {
  }

  lemma AscendingDistinct(t: seq<int>)
    requires StrictlyAscending(t)
    ensures Distinct(t)
  {
  }

  lemma {:induction false} SourceTodelShape(rs: Resolved, k: nat)
    requires WellFormed(rs) && k <= |rs.ra|
    ensures StrictlyAscending(SourceTodel(rs, k)) && AllIn(SourceTodel(rs, k), 0, SourceEnd(k))
  {
    if k > 1 {
      var j := k - 1;
      var e := 3 * j - 1;
      SourceTodelShape(rs, j);
      CompanionTodelShape(rs, j);
      Join(SourceTodel(rs, j), CompanionTodel(rs, j), 0, e, e + 3);
    }
  }

  lemma CompanionTodelShape(rs: Resolved, j: nat)
    requires WellFormed(rs) && 1 <= j < |rs.ra|
    ensures StrictlyAscending(CompanionTodel(rs, j)) && AllIn(CompanionTodel(rs, j), 3 * j - 1, 3 * j + 2)
  {
  }

  lemma {:induction false} MaskedOutShape(mask: seq<bool>, base: int)
    ensures StrictlyAscending(MaskedOut(mask, base)) && AllIn(MaskedOut(mask, base), base, base + |mask|)
    decreases |mask|
  {
    if mask != [] {
      MaskedOutShape(mask[1..], base + 1);
      Join(if !mask[0] then [base] else [], MaskedOut(mask[1..], base + 1), base, base + 1, base + |mask|);
    }
  }

  /** The case in which the builder appends the background slot after larger slots. */
  predicate BackgroundAppendedLate(rs: Resolved)
  {
    rs.cohLoss.CohOn? && !rs.fixedBG && (!rs.fitPhaseCentre || |rs.ra| == 0)
  }

  /** Each single append after the source loop lies in its own range of slots. */
  lemma NuisancePieces(rs: Resolved)
    ensures var r := ThRest(|rs.ra|);
      StrictlyAscending(AlphaTodel(rs)) && AllIn(AlphaTodel(rs), r, r + 1)
      && StrictlyAscending(BGTodel(rs)) && AllIn(BGTodel(rs), r + 1, r + 2)
      && StrictlyAscending(PhaseCentreTodel(rs)) && AllIn(PhaseCentreTodel(rs), r + 2, r + 4)
      && StrictlyAscending(FrBHTodel(rs)) && AllIn(FrBHTodel(rs), r + 4, r + 5)
  {
  }

  /** Five pieces, each ascending within its own band of slots, joined in order. */
  lemma JoinPieces(S: seq<int>, A: seq<int>, B: seq<int>, P: seq<int>, F: seq<int>, r: int)
    requires 0 <= r
    requires StrictlyAscending(S) && AllIn(S, 0, r)
    requires StrictlyAscending(A) && AllIn(A, r, r + 1)
    requires StrictlyAscending(B) && AllIn(B, r + 1, r + 2)
    requires StrictlyAscending(P) && AllIn(P, r + 2, r + 4)
    requires StrictlyAscending(F) && AllIn(F, r + 4, r + 5)
    ensures StrictlyAscending(S + A) && AllIn(S + A, 0, r + 1)
    ensures StrictlyAscending(P + F) && AllIn(P + F, r + 2, r + 5)
    ensures StrictlyAscending(S + A + B + P + F) && AllIn(S + A + B + P + F, 0, r + 5)
  {
    Join(S, A, 0, r, r + 1);
    Join(S + A, B, 0, r + 1, r + 2);
    Join(S + A + B, P, 0, r + 2, r + 4);
    Join(S + A + B + P, F, 0, r + 4, r + 5);
    Join(P, F, r + 2, r + 4, r + 5);
  }

  /** Everything appended before the coherence-loss part: ascending, below th_rest + 5. */
  lemma TodelPrefixShape(rs: Resolved)
    requires WellFormed(rs)
    ensures var r := ThRest(|rs.ra|);
      var SA := SourceTodel(rs, |rs.ra|) + AlphaTodel(rs);
      var PF := PhaseCentreTodel(rs) + FrBHTodel(rs);
      StrictlyAscending(SA) && AllIn(SA, 0, r + 1)
      && StrictlyAscending(PF) && AllIn(PF, r + 2, r + 5)
      && StrictlyAscending(SA + BGTodel(rs) + PhaseCentreTodel(rs) + FrBHTodel(rs))
      && AllIn(SA + BGTodel(rs) + PhaseCentreTodel(rs) + FrBHTodel(rs), 0, r + 5)
  {
    var n := |rs.ra|;
    SourceTodelShape(rs, n);
    NuisancePieces(rs);
    assert SourceEnd(n) <= ThRest(n);
    JoinPieces(SourceTodel(rs, n), AlphaTodel(rs), BGTodel(rs), PhaseCentreTodel(rs), FrBHTodel(rs), ThRest(n));
  }

  /** The coherence-loss part: the six slots, a masked subset, the background slot, or nothing. */
  lemma CohTodelShape(rs: Resolved)
    requires WellFormed(rs)
    ensures var r := ThRest(|rs.ra|);
      StrictlyAscending(CohTodel(rs))
      && (!rs.cohLoss.CohOn? ==> AllIn(CohTodel(rs), r + 5, r + 11))
      && (rs.cohLoss.CohOn? ==> CohTodel(rs) == if rs.fixedBG then [] else [r + 1])
  {
    if rs.cohLoss.CohMask? && |rs.cohLoss.mask| == 6 {
      MaskedOutShape(rs.cohLoss.mask, ThRest(|rs.ra|) + 5);
    }
  }

  lemma AppendMissing(x: seq<int>, v: int)
    requires StrictlyAscending(x) && v !in x
    ensures Distinct(x + [v])
  {
  }

  /** Outside the late-background case the list is ascending and within theta. */
  lemma TodelAscendingCase(rs: Resolved)
    requires WellFormed(rs) && !BackgroundAppendedLate(rs)
    ensures StrictlyAscending(Todel(rs)) && AllIn(Todel(rs), 0, ThetaLength(|rs.ra|))
  {
    var n := |rs.ra|;
    var r := ThRest(n);
    var SA := SourceTodel(rs, n) + AlphaTodel(rs);
    var X := SA + BGTodel(rs) + PhaseCentreTodel(rs) + FrBHTodel(rs);
    var C := CohTodel(rs);
    assert Todel(rs) == X + C;
    TodelPrefixShape(rs);
    CohTodelShape(rs);
    if rs.cohLoss.CohOn? && !rs.fixedBG {
      assert X == SA;
      Join(X, C, 0, r + 1, r + 11);
    } else {
      Join(X, C, 0, r + 5, r + 11);
    }
  }

  /** A value below every later piece, appended after that piece, breaks the order but repeats nothing. */
  lemma AppendBelowTail(sa: seq<int>, pf: seq<int>, v: int, hi: int)
    requires 0 <= v && StrictlyAscending(sa + pf) && AllIn(sa, 0, v) && AllIn(pf, v + 1, hi) && pf != []
    ensures !StrictlyAscending(sa + pf + [v]) && Distinct(sa + pf + [v]) && AllIn(sa + pf + [v], 0, hi)
  {
    var t := sa + pf + [v];
    assert t[|sa|] == pf[0] && t[|t| - 1] == v;
    assert v !in sa + pf;
    AppendMissing(sa + pf, v);
  }

  /** In the late-background case the list is out of order, yet still without repeats. */
  lemma TodelLateCase(rs: Resolved)
    requires WellFormed(rs) && BackgroundAppendedLate(rs)
    ensures !StrictlyAscending(Todel(rs)) && Distinct(Todel(rs)) && AllIn(Todel(rs), 0, ThetaLength(|rs.ra|))
  {
    var n := |rs.ra|;
    var SA := SourceTodel(rs, n) + AlphaTodel(rs);
    var PF := PhaseCentreTodel(rs) + FrBHTodel(rs);
    PrefixJoined(rs);
    LatePieces(rs);
    AppendBelowTail(SA, PF, ThRest(n) + 1, ThRest(n) + 5);
  }

  /** Sources and alpha below th_rest + 1, phase centre and flux in th_rest+2..th_rest+4, together ascending. */
  lemma PrefixJoined(rs: Resolved)
    requires WellFormed(rs)
    ensures var r := ThRest(|rs.ra|);
      var SA := SourceTodel(rs, |rs.ra|) + AlphaTodel(rs);
      var PF := PhaseCentreTodel(rs) + FrBHTodel(rs);
      StrictlyAscending(SA + PF) && AllIn(SA, 0, r + 1) && AllIn(PF, r + 2, r + 5)
  {
    var n := |rs.ra|;
    var r := ThRest(n);
    var S := SourceTodel(rs, n);
    SourceTodelShape(rs, n);
    NuisancePieces(rs);
    assert SourceEnd(n) == r;
    Join(S, AlphaTodel(rs), 0, r, r + 1);
    Join(PhaseCentreTodel(rs), FrBHTodel(rs), r + 2, r + 4, r + 5);
    Join(S + AlphaTodel(rs), PhaseCentreTodel(rs) + FrBHTodel(rs), 0, r + 1, r + 5);
  }

  /** In the late-background case the list is the prefix, the phase-centre and flux slots, then the background slot. */
  lemma LatePieces(rs: Resolved)
    requires WellFormed(rs) && BackgroundAppendedLate(rs)
    ensures var PF := PhaseCentreTodel(rs) + FrBHTodel(rs);
      PF != []
      && Todel(rs) == SourceTodel(rs, |rs.ra|) + AlphaTodel(rs) + PF + [ThRest(|rs.ra|) + 1]
  {
    var SA := SourceTodel(rs, |rs.ra|) + AlphaTodel(rs);
    assert BGTodel(rs) == [] && CohTodel(rs) == [ThRest(|rs.ra|) + 1];
    assert SA + BGTodel(rs) == SA;
    assert SA + PhaseCentreTodel(rs) + FrBHTodel(rs) == SA + (PhaseCentreTodel(rs) + FrBHTodel(rs));
  }

  /**
   * The fixed slots are distinct and in range, and they are in ascending order
   * except in one case: coherence loss on for every baseline with a free
   * background and either a fixed phase centre or no source at all. Then the
   * background slot th_rest+1 is appended after th_rest+2 or th_rest+4.
   */
  lemma TodelShape(rs: Resolved)
    requires WellFormed(rs)
    ensures IndicesIn(Todel(rs), ThetaLength(|rs.ra|))
    ensures Distinct(Todel(rs))
    ensures StrictlyAscending(Todel(rs)) <==> !BackgroundAppendedLate(rs)
  {
    if BackgroundAppendedLate(rs) {
      TodelLateCase(rs);
    } else {
      TodelAscendingCase(rs);
      AscendingDistinct(Todel(rs));
    }
  }

  /** The builder's list in the single-source, late-background configuration. */
  lemma UnsortedExampleTodel(rs: Resolved)
    requires WellFormed(rs) && |rs.ra| == 0 && rs.cohLoss.CohOn?
    requires !rs.fixedBG && !rs.fitPhaseCentre && !rs.fixedBHalpha
    ensures Todel(rs) == [2, 3, 4, 1]
  {
    assert SourceTodel(rs, 0) == [] && AlphaTodel(rs) == [] && BGTodel(rs) == [];
    assert PhaseCentreTodel(rs) == [2, 3] && FrBHTodel(rs) == [4] && CohTodel(rs) == [1];
  }

  /** numpy.delete of slots 1..4 from an eleven-slot vector. */
  lemma DeleteExample<T>(theta: seq<T>)
    requires |theta| == 11
    ensures Delete(theta, [2, 3, 4, 1]) == [theta[0]] + theta[5..]
  {
    var t := [2, 3, 4, 1];
    assert forall i :: 5 <= i < 11 ==> i !in t;
    assert forall i :: 1 <= i < 5 ==> i in t;
    DeleteKeepsPrefix(theta, t, 0, 1);
    DeleteSkipsListed(theta[1..], t, 1, 4);
    assert theta[1..][4..] == theta[5..];
    DeleteKeepsPrefix(theta[5..], t, 5, 6);
    assert theta[5..][6..] == [] && theta[5..][..6] == theta[5..];
  }

  lemma InsertAfter<T>(pre: seq<T>, x: T, rest: seq<T>)
    ensures Insert(pre + rest, |pre|, x) == pre + [x] + rest
  {
    assert (pre + rest)[..|pre|] == pre && (pre + rest)[|pre|..] == rest;
  }

  /** The rebuild loop on the reduced vector, one insertion at a time. */
  lemma ExpandExample<T>(a0: T, a1: T, a2: T, a3: T, a4: T, a5: T, rest: seq<T>)
    ensures Expand([a0, a5] + rest, [2, 3, 4, 1], [a2, a3, a4, a1]) == Some([a0, a1, a5, a2, a3, a4] + rest)
  {
    var r0 := [a0, a5] + rest;
    var r1 := [a0, a5, a2] + rest;
    var r2 := [a0, a5, a2, a3] + rest;
    var r3 := [a0, a5, a2, a3, a4] + rest;
    var r4 := [a0, a1, a5, a2, a3, a4] + rest;
    InsertAfter([a0, a5], a2, rest);
    assert Insert(r0, 2, a2) == r1;
    InsertAfter([a0, a5, a2], a3, rest);
    assert Insert(r1, 3, a3) == r2;
    InsertAfter([a0, a5, a2, a3], a4, rest);
    assert Insert(r2, 4, a4) == r3;
    InsertAfter([a0], a1, [a5, a2, a3, a4] + rest);
    assert Insert(r3, 1, a1) == r4;
    assert Expand(r4, [], []) == Some(r4);
    assert Expand(r3, [1], [a1]) == Expand(r4, [], []);
    assert Expand(r2, [4, 1], [a4, a1]) == Expand(r3, [1], [a1]);
    assert Expand(r1, [3, 4, 1], [a3, a4, a1]) == Expand(r2, [4, 1], [a4, a1]);
    assert Expand(r0, [2, 3, 4, 1], [a2, a3, a4, a1]) == Expand(r1, [3, 4, 1], [a3, a4, a1]);
  }

  /** The same eleven-slot vector cut and written out in the two shapes used above. */
  lemma ExampleSlices<T>(theta: seq<T>)
    requires |theta| == 11
    ensures [theta[0]] + theta[5..] == [theta[0], theta[5]] + theta[6..]
    ensures [theta[0], theta[1], theta[5], theta[2], theta[3], theta[4]] + theta[6..]
         == theta[..2] + [theta[5], theta[2], theta[3], theta[4]] + theta[6..]
    ensures Gather(theta, [2, 3, 4, 1]) == [theta[2], theta[3], theta[4], theta[1]]
  {
    ReducedSlice(theta);
    RebuiltSlice(theta);
    GatheredExample(theta);
  }

  lemma GatheredExample<T>(theta: seq<T>)
    requires |theta| == 11
    ensures Gather(theta, [2, 3, 4, 1]) == [theta[2], theta[3], theta[4], theta[1]]
  {
    var t := [2, 3, 4, 1];
    var g := Gather(theta, t);
    var e := [theta[2], theta[3], theta[4], theta[1]];
    assert g[0] == theta[t[0]] == e[0];
    assert g[1] == theta[t[1]] == e[1];
    assert g[2] == theta[t[2]] == e[2];
    assert g[3] == theta[t[3]] == e[3];
  }

  lemma ReducedSlice<T>(theta: seq<T>)
    requires |theta| == 11
    ensures [theta[0]] + theta[5..] == [theta[0], theta[5]] + theta[6..]
  {
    var a := [theta[0]] + theta[5..];
    var b := [theta[0], theta[5]] + theta[6..];
    assert |a| == 7 && |b| == 7;
    forall i | 0 <= i < 7 ensures a[i] == b[i] {
      if i >= 2 {
        assert a[i] == theta[i + 4] && b[i] == theta[i + 4];
      }
    }
  }

  lemma RebuiltSlice<T>(theta: seq<T>)
    requires |theta| == 11
    ensures [theta[0], theta[1], theta[5], theta[2], theta[3], theta[4]] + theta[6..]
         == theta[..2] + [theta[5], theta[2], theta[3], theta[4]] + theta[6..]
  {
    assert theta[..2] == [theta[0], theta[1]];
    assert theta[..2] + [theta[5], theta[2], theta[3], theta[4]] == [theta[0], theta[1], theta[5], theta[2], theta[3], theta[4]];
  }

  /**
   * Finding: with a single source (no companion), a fixed phase centre, a free
   * background and coherence loss on, the builder lists [2, 3, 4, 1]. Inserting
   * the kept values back in that order puts the first coherence-loss value in the
   * pc RA slot and shifts pc RA, pc Dec and fr BH one slot up.
   */
  lemma UnsortedTodelShiftsSlots(rs: Resolved, theta: seq<real>)
    requires WellFormed(rs) && |rs.ra| == 0 && rs.cohLoss.CohOn?
    requires !rs.fixedBG && !rs.fitPhaseCentre && !rs.fixedBHalpha
    requires |theta| == ThetaLength(0)
    ensures Todel(rs) == [2, 3, 4, 1]
    ensures Expand(Delete(theta, [2, 3, 4, 1]), [2, 3, 4, 1], Gather(theta, [2, 3, 4, 1]))
         == Some(theta[..2] + [theta[5], theta[2], theta[3], theta[4]] + theta[6..])
    ensures theta[2] != theta[5] ==>
            Expand(Delete(theta, [2, 3, 4, 1]), [2, 3, 4, 1], Gather(theta, [2, 3, 4, 1])) != Some(theta)
  {
    UnsortedExampleTodel(rs);
    DeleteExample(theta);
    ExampleSlices(theta);
    ExpandExample(theta[0], theta[1], theta[2], theta[3], theta[4], theta[5], theta[6..]);
    if theta[2] != theta[5] {
      var e := theta[..2] + [theta[5], theta[2], theta[3], theta[4]] + theta[6..];
      assert e[2] != theta[2];
    }
  }

  /**
   * The intended reduction: sorting the fixed slots (as the night fit does) gives
   * the same reduced vector and a rebuild that restores every slot.
   */
  lemma SortedTodelRestoresTheta<T>(rs: Resolved, theta: seq<T>)
    requires WellFormed(rs) && |theta| == ThetaLength(|rs.ra|)
    ensures Delete(theta, Todel(rs)) == Delete(theta, SortUnique(Todel(rs)))
    ensures IndicesIn(SortUnique(Todel(rs)), |theta|)
         && Expand(Delete(theta, SortUnique(Todel(rs))), SortUnique(Todel(rs)), Gather(theta, SortUnique(Todel(rs))))
            == Some(theta)
  {
    TodelShape(rs);
    ReducedLength(theta, Todel(rs));
    SortedIndicesIn(Todel(rs), |theta|);
    RoundTrip(theta, SortUnique(Todel(rs)));
  }

  /** Without the late background slot, the builder's own order already round-trips. */
  lemma BuilderTodelRoundTrip<T>(rs: Resolved, theta: seq<T>)
    requires WellFormed(rs) && |theta| == ThetaLength(|rs.ra|) && !BackgroundAppendedLate(rs)
    ensures IndicesIn(Todel(rs), |theta|)
         && Expand(Delete(theta, Todel(rs)), Todel(rs), Gather(theta, Todel(rs))) == Some(theta)
  {
    TodelShape(rs);
    RoundTrip(theta, Todel(rs));
  }

  /**
   * The reduction the builder hands to the sampler: names by one `del` per fixed
   * slot, largest first; numeric vectors by numpy.delete; the fixed values in list
   * order. All four reduced lists have the same length, the number of free
   * parameters.
   */
  method ReduceParameters(p: Parameters) returns (red: Reduced)
    requires |p.lower| == |p.theta| && |p.upper| == |p.theta| && |p.names| == |p.theta|
    requires Distinct(p.todel) && IndicesIn(p.todel, |p.theta|)
    ensures red.theta == Delete(p.theta, p.todel) && red.names == Delete(p.names, p.todel)
    ensures red.lower == Delete(p.lower, p.todel) && red.upper == Delete(p.upper, p.todel)
    ensures red.fixed == Gather(p.theta, p.todel) && red.todel == p.todel
    ensures |red.theta| == |red.lower| == |red.upper| == |red.names| == |p.theta| - |p.todel|
  {
    var names := DeleteNames(p.names, p.todel);
    var fixed := Gather(p.theta, p.todel);
    ReducedLength(p.theta, p.todel);
    ReducedLength(p.lower, p.todel);
    ReducedLength(p.upper, p.todel);
    red := Reduced(Delete(p.theta, p.todel), Delete(p.lower, p.todel), Delete(p.upper, p.todel), names, fixed, p.todel);
  }

  // ---------------------------------------------------------------------------
  // Where the visibility model reads a companion's flux ratio

  /** Index read for source k+1's log flux ratio when phase maps are used. */
  function CompanionFluxIndex(k: nat): nat
  {
    3 * k + 1
  }

  /** Index read for source k+1's log flux ratio when phase maps are not used. */
  function NoPhasemapFluxIndex(k: nat): nat
  {
    3 * k + 2
  }

  lemma CompanionFluxSlot(n: nat, k: nat)
    requires 1 <= k < n
    ensures CompanionFluxIndex(k) < ThetaLength(n) && SlotName(n, CompanionFluxIndex(k)) == Fr(k + 1)
  {
    CompanionSlots(n, k);
  }

  /**
   * Finding: the index read without phase maps is the next source's RA offset, or
   * alpha BH for the last source, never a flux ratio.
   */
  lemma NoPhasemapFluxReadsOtherSlot(n: nat, k: nat)
    requires 1 <= k < n
    ensures NoPhasemapFluxIndex(k) < ThetaLength(n)
    ensures SlotName(n, NoPhasemapFluxIndex(k)) == if k + 1 < n then DRA(k + 2) else AlphaBH
    ensures !SlotName(n, NoPhasemapFluxIndex(k)).Fr?
  {
    if k + 1 < n {
      CompanionSlots(n, k + 1);
    }
  }
}
