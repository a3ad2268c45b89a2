/**
 * Phase-map bookkeeping: which files are loaded and when loading fails, the
 * per-slice maximum normalisation, the readout positions fed to the
 * interpolators, the six-baseline pairing of per-telescope couplings, and the
 * centred crop/pad of maps. The interpolators and cos/sin of the rotation are
 * inputs; only the index layout around them is modelled.
 */
module PhaseMap {
  import opened Common

  /** The map-slot pairs of the six baselines, in the order the couplings are tabulated. */
  const BaselineSlots: seq<(nat, nat)> := [(0, 1), (0, 2), (0, 3), (1, 2), (1, 3), (2, 3)]

  /** The UT pairs of the six baselines in the binary and unary fits. */
  const BaselineTelescopes: seq<(int, int)> := [(4, 3), (4, 2), (4, 1), (3, 2), (3, 1), (2, 1)]

  /** Map slot t holds the maps of UT 4 - t. */
  function SlotLabel(t: int): int
  {
    4 - t
  }

  /** The per-telescope flux and OPD tables are indexed by UT - 1. */
  function TableIndex(ut: int): int
  {
    ut - 1
  }

  predicate OnBaseline(i: nat, t: nat)
    requires i < 6
  {
    BaselineSlots[i].0 == t || BaselineSlots[i].1 == t
  }

  /** The number of baselines, among the first k, that contain map slot t. */
  function CountOn(t: nat, k: nat): nat
    requires k <= 6
  {
    if k == 0 then 0 else CountOn(t, k - 1) + (if OnBaseline(k - 1, t) then 1 else 0)
  }

  /** Every telescope lies on exactly three of the six baselines. */
  lemma EachTelescopeOnThreeBaselines(t: nat)
    requires t < 4
    ensures CountOn(t, 6) == 3
  {
    if t == 0 {
      assert CountOn(0, 6) == 3;
    } else if t == 1 {
      assert CountOn(1, 6) == 3;
    } else if t == 2 {
      assert CountOn(2, 6) == 3;
    } else {
      assert CountOn(3, 6) == 3;
    }
  }

  /** Baseline i lies on map slot t exactly when it lies on the UT that slot is labelled with. */
  lemma SlotsAndTelescopesAgree(i: nat, t: nat)
    requires i < 6 && t < 4
    ensures OnBaseline(i, t) <==> BaselineTelescopes[i].0 == SlotLabel(t) || BaselineTelescopes[i].1 == SlotLabel(t)
  {
  }

  /**
   * The two tables agree: baseline i joins map slots BaselineSlots[i], labelled
   * UTs BaselineTelescopes[i], and the flux/OPD tables read the same telescope
   * at index 3 - slot.
   */
  lemma TablesAgree(i: nat)
    requires i < 6
    ensures SlotLabel(BaselineSlots[i].0) == BaselineTelescopes[i].0
    ensures SlotLabel(BaselineSlots[i].1) == BaselineTelescopes[i].1
    ensures TableIndex(BaselineTelescopes[i].0) == 3 - BaselineSlots[i].0
    ensures TableIndex(BaselineTelescopes[i].1) == 3 - BaselineSlots[i].1
  {
  }

  /** The per-baseline couplings from the per-telescope ones: both ends of each baseline. */
  function PairUp<T>(x: seq<T>): (p: seq<(T, T)>)
    requires |x| == 4
    ensures |p| == 6
    ensures forall i :: 0 <= i < 6 ==> p[i] == (x[BaselineSlots[i].0], x[BaselineSlots[i].1])
  {
    [(x[0], x[1]), (x[0], x[2]), (x[0], x[3]), (x[1], x[2]), (x[1], x[3]), (x[2], x[3])]
  }

  /** A change to one telescope's coupling reaches only the three baselines on it. */
  lemma PairUpLocal<T>(x: seq<T>, y: seq<T>, t: nat)
    requires |x| == 4 && |y| == 4 && t < 4
    requires forall j :: 0 <= j < 4 && j != t ==> x[j] == y[j]
    ensures forall i :: 0 <= i < 6 && !OnBaseline(i, t) ==> PairUp(x)[i] == PairUp(y)[i]
  {
  }

  /** The two map files for a data year: the 2019 names, or the 2020 names with "_2020data"; other years raise. */
  function PhaseMapFiles(stem: string, year: int): (r: Result<(string, string)>)
    ensures r.Err? <==> year != 2019 && year != 2020
    ensures r.Err? ==> r.error == UnknownDataYear
    ensures year == 2019 ==> r == Ok((stem + ".npy", stem + "_denom.npy"))
    ensures year == 2020 ==> r == Ok((stem + "_2020data.npy", stem + "_2020data_denom.npy"))
  {
    if year == 2019 then Ok((stem + ".npy", stem + "_denom.npy"))
    else if year == 2020 then Ok((stem + "_2020data.npy", stem + "_2020data_denom.npy"))
    else Err(UnknownDataYear)
  }

  /**
   * The checks of loading, in order: the data year, then the files' presence,
   * then the channel count of the map against the data.
   */
  function LoadPhaseMaps(stem: string, year: int, filesExist: bool, mapChannels: nat, nwave: nat): (r: Result<(string, string)>)
    ensures r.Ok? <==> (year == 2019 || year == 2020) && filesExist && mapChannels == nwave
    ensures r.Ok? ==> r == PhaseMapFiles(stem, year)
    ensures (year == 2019 || year == 2020) && !filesExist ==> r == Err(MissingPhaseMap)
    ensures (year == 2019 || year == 2020) && filesExist && mapChannels != nwave ==> r == Err(ChannelCountMismatch)
  {
    match PhaseMapFiles(stem, year)
    case Err(e) => Err(e)
    case Ok(names) =>
      if !filesExist then Err(MissingPhaseMap)
      else if mapChannels != nwave then Err(ChannelCountMismatch)
      else Ok(names)
  }

  /** The largest entry. */
  function MaxOf(s: seq<real>): (mx: real)
    requires |s| > 0
    ensures forall i :: 0 <= i < |s| ==> s[i] <= mx
    ensures exists i :: 0 <= i < |s| && s[i] == mx
  {
    if |s| == 1 then s[0]
    else
      var m := MaxOf(s[1..]);
      assert forall i :: 1 <= i < |s| ==> s[i] == s[1..][i - 1];
      if s[0] >= m then s[0] else m
  }

  /** Every entry divided by d. */
  function Divided(s: seq<real>, d: real): (r: seq<real>)
    requires d != 0.0
    ensures |r| == |s|
  {
    seq(|s|, i requires 0 <= i < |s| => s[i] / d)
  }

  /** After dividing a slice with a positive maximum by that maximum, every entry is at most 1 and the maximum is 1. */
  lemma NormalisedPeakIsOne(s: seq<real>)
    requires |s| > 0 && MaxOf(s) > 0.0
    ensures forall i :: 0 <= i < |s| ==> Divided(s, MaxOf(s))[i] <= 1.0
    ensures MaxOf(Divided(s, MaxOf(s))) == 1.0
  {
    var mx := MaxOf(s);
    AllBelowOne(s, mx);
    var k :| 0 <= k < |s| && s[k] == mx;
    PeakEntry(s, mx, k);
    MaxIsBound(Divided(s, mx), 1.0, k);
  }

  lemma AllBelowOne(s: seq<real>, mx: real)
    requires mx > 0.0 && forall i :: 0 <= i < |s| ==> s[i] <= mx
    ensures forall i :: 0 <= i < |s| ==> Divided(s, mx)[i] <= 1.0
  {
    forall i | 0 <= i < |s|
      ensures Divided(s, mx)[i] <= 1.0
    {
      DivideBelow(s[i], mx);
    }
  }

  lemma PeakEntry(s: seq<real>, mx: real, k: nat)
    requires mx > 0.0 && k < |s| && s[k] == mx
    ensures Divided(s, mx)[k] == 1.0
  {
  }

  /** A bound that some entry reaches is the maximum. */
  lemma MaxIsBound(s: seq<real>, b: real, k: nat)
    requires k < |s| && s[k] == b && forall i :: 0 <= i < |s| ==> s[i] <= b
    ensures MaxOf(s) == b
  {
    var j :| 0 <= j < |s| && s[j] == MaxOf(s);
  }

  lemma DivideBelow(x: real, m: real)
    requires x <= m && m > 0.0
    ensures x / m <= 1.0
  {
    assert x / m * m == x;
  }

  lemma MulAtLeast(x: int, n: int)
    requires x >= 1 && n > 0
    ensures x * n >= n
  {
  }

  lemma ZeroFactor(x: int, n: int)
    requires n > 0 && -n < x * n < n
    ensures x == 0
  {
    if x >= 1 {
      MulAtLeast(x, n);
    } else if x <= -1 {
      MulAtLeast(-x, n);
    }
  }

  /** Euclidean division is unique: q = a*n + b with 0 <= b < n fixes q / n and q % n. */
  lemma DivModUnique(q: int, n: int, a: int, b: int)
    requires n > 0 && 0 <= b < n && q == a * n + b
    ensures q / n == a && q % n == b
  {
    var d := q / n;
    assert (a - d) * n == q % n - b;
    ZeroFactor(a - d, n);
  }

  lemma DivBelow(i: int, n: int, k: int)
    requires n > 0 && 0 <= i < k * n
    ensures i / n < k
  {
    var d := i / n;
    if d >= k {
      MulAtLeast(d - k + 1, n);
    }
  }

  /** Row r of a two-dimensional array. */
  function Row(m: array2<real>, r: nat): (s: seq<real>)
    requires r < m.Length0
    reads m
    ensures |s| == m.Length1 && forall c :: 0 <= c < m.Length1 ==> s[c] == m[r, c]
  {
    seq(m.Length1, c requires 0 <= c < m.Length1 reads m => m[r, c])
  }

  /**
   * The normalisation after loading: each (wave, telescope) slice, one row
   * here with row index 4*wave + telescope, divided in place by its own
   * maximum.
   */
  method NormaliseSlices(m: array2<real>)
    requires m.Length1 > 0
    requires forall r :: 0 <= r < m.Length0 ==> MaxOf(Row(m, r)) != 0.0
    modifies m
    ensures forall r, c :: 0 <= r < m.Length0 && 0 <= c < m.Length1 ==> m[r, c] == old(m[r, c]) / old(MaxOf(Row(m, r)))
  {
    var r := 0;
    while r < m.Length0
      invariant 0 <= r <= m.Length0
      invariant forall i, c :: 0 <= i < r && 0 <= c < m.Length1 ==> m[i, c] == old(m[i, c]) / old(MaxOf(Row(m, i)))
      invariant forall i, c :: r <= i < m.Length0 && 0 <= c < m.Length1 ==> m[i, c] == old(m[i, c])
    {
      assert Row(m, r) == old(Row(m, r));
      var mx := MaxOf(Row(m, r));
      NormaliseRow(m, r, mx);
      r := r + 1;
    }
  }

  method NormaliseRow(m: array2<real>, r: nat, mx: real)
    requires r < m.Length0 && mx != 0.0
    modifies m
    ensures forall c :: 0 <= c < m.Length1 ==> m[r, c] == old(m[r, c]) / mx
    ensures forall i, c :: 0 <= i < m.Length0 && i != r && 0 <= c < m.Length1 ==> m[i, c] == old(m[i, c])
  {
    var c := 0;
    while c < m.Length1
      invariant 0 <= c <= m.Length1
      invariant forall j :: 0 <= j < c ==> m[r, j] == old(m[r, j]) / mx
      invariant forall j :: c <= j < m.Length1 ==> m[r, j] == old(m[r, j])
      invariant forall i, j :: 0 <= i < m.Length0 && i != r && 0 <= j < m.Length1 ==> m[i, j] == old(m[i, j])
    {
      m[r, c] := m[r, c] / mx;
      c := c + 1;
    }
  }

  /**
   * A telescope's position on its map before rotation: the sky offset plus the
   * fibre offset, scaled by 1/4.4 for the auxiliary telescopes, plus an optional
   * extra offset.
   */
  function FibrePosition(ra: real, dec: real, dra: real, ddec: real, auxiliary: bool, extra: Option<(real, real)>): (real, real)
  {
    var x := if auxiliary then (ra + dra) / 4.4 else ra + dra;
    var y := if auxiliary then (dec + ddec) / 4.4 else dec + ddec;
    if extra.Some? then (x + extra.value.0, y + extra.value.1) else (x, y)
  }

  /** The rotation by the north angle, given by its cosine and sine, shifted to the map centre (100, 100). */
  function Rotated(cs: real, sn: real, p: (real, real)): (q: (real, real))
  {
    (cs * p.0 + sn * p.1 + 100.0, -sn * p.0 + cs * p.1 + 100.0)
  }

  /** The rotation keeps the distance from the map centre. */
  lemma RotationKeepsDistance(cs: real, sn: real, p: (real, real))
    requires cs * cs + sn * sn == 1.0
    ensures var q := Rotated(cs, sn, p);
            (q.0 - 100.0) * (q.0 - 100.0) + (q.1 - 100.0) * (q.1 - 100.0) == p.0 * p.0 + p.1 * p.1
  {
    var a := cs * p.0 + sn * p.1;
    var b := -sn * p.0 + cs * p.1;
    calc {
      a * a + b * b;
      == (cs * cs) * (p.0 * p.0) + (sn * sn) * (p.1 * p.1) + (sn * sn) * (p.0 * p.0) + (cs * cs) * (p.1 * p.1);
      == (cs * cs + sn * sn) * (p.0 * p.0 + p.1 * p.1);
    }
  }

  /** The readout position of telescope t: its fibre position, rotated by the telescope's angle. */
  function TelescopeReadout(t: nat, ra: real, dec: real, dra: seq<real>, ddec: seq<real>, angle: seq<(real, real)>, auxiliary: bool, extra: Option<(real, real)>): (real, real)
    requires t < 4 && |dra| == 4 && |ddec| == 4 && |angle| == 4
  {
    Rotated(angle[t].0, angle[t].1, FibrePosition(ra, dec, dra[t], ddec[t], auxiliary, extra))
  }

  /** The row of (wave w, telescope t) in the readout table and in its reshape. */
  function RowOf(w: nat, t: nat, nwave: nat): nat
  {
    t * nwave + w
  }

  lemma RowOfRoundTrip(w: nat, t: nat, nwave: nat)
    requires w < nwave
    ensures RowOf(w, t, nwave) % nwave == w && RowOf(w, t, nwave) / nwave == t
  {
    DivModUnique(RowOf(w, t, nwave), nwave, t, w);
  }

  /**
   * The readout table: 4*nwave rows of (wave, telescope, rotated y, rotated x).
   * Columns 0 and 1 tile the wave index and repeat the telescope index; then
   * for each telescope the rows whose column 1 names it receive its position,
   * the two rotated coordinates swapped.
   */
  method ReadoutPositions(nwave: nat, ra: real, dec: real, dra: seq<real>, ddec: seq<real>, angle: seq<(real, real)>, auxiliary: bool, extra: Option<(real, real)>)
    returns (rp: array2<real>)
    requires |dra| == 4 && |ddec| == 4 && |angle| == 4
    ensures fresh(rp) && rp.Length0 == 4 * nwave && rp.Length1 == 4
    ensures forall r :: 0 <= r < 4 * nwave ==>
      r / nwave < 4
      && rp[r, 0] == (r % nwave) as real && rp[r, 1] == (r / nwave) as real
      && rp[r, 2] == TelescopeReadout(r / nwave, ra, dec, dra, ddec, angle, auxiliary, extra).1
      && rp[r, 3] == TelescopeReadout(r / nwave, ra, dec, dra, ddec, angle, auxiliary, extra).0
  {
    var positions := seq(4, t requires 0 <= t < 4 => TelescopeReadout(t, ra, dec, dra, ddec, angle, auxiliary, extra));
    rp := new real[4 * nwave, 4];
    LabelRows(rp, nwave);
    label labelled:
    FillPositions(rp, nwave, positions);
    forall r | 0 <= r < 4 * nwave
      ensures rp[r, 2] == positions[r / nwave].1 && rp[r, 3] == positions[r / nwave].0
    {
      assert old@labelled(rp[r, 1]) == (r / nwave) as real;
    }
  }

  /** Row r labelled (r mod nwave, r div nwave): the tiled wave index and the repeated telescope index. */
  method LabelRows(rp: array2<real>, nwave: nat)
    requires rp.Length0 == 4 * nwave && rp.Length1 == 4
    modifies rp
    ensures forall i :: 0 <= i < 4 * nwave ==> i / nwave < 4 && rp[i, 0] == (i % nwave) as real && rp[i, 1] == (i / nwave) as real
  {
    var r := 0;
    while r < 4 * nwave
      invariant 0 <= r <= 4 * nwave
      invariant forall i :: 0 <= i < r ==> i / nwave < 4 && rp[i, 0] == (i % nwave) as real && rp[i, 1] == (i / nwave) as real
    {
      DivBelow(r, nwave, 4);
      rp[r, 0] := (r % nwave) as real;
      rp[r, 1] := (r / nwave) as real;
      r := r + 1;
    }
  }

  /** For each telescope in turn, its rows receive its rotated position, coordinates swapped. */
  method FillPositions(rp: array2<real>, nwave: nat, positions: seq<(real, real)>)
    requires rp.Length0 == 4 * nwave && rp.Length1 == 4 && |positions| == 4
    modifies rp
    ensures forall i, j :: 0 <= i < 4 * nwave && 0 <= j < 2 ==> rp[i, j] == old(rp[i, j])
    ensures forall i, t :: 0 <= i < 4 * nwave && 0 <= t < 4 && old(rp[i, 1]) == t as real ==>
      rp[i, 2] == positions[t].1 && rp[i, 3] == positions[t].0
  {
    var tel := 0;
    while tel < 4
      invariant 0 <= tel <= 4
      invariant forall i, j :: 0 <= i < 4 * nwave && 0 <= j < 2 ==> rp[i, j] == old(rp[i, j])
      invariant forall i, t :: 0 <= i < 4 * nwave && 0 <= t < tel && old(rp[i, 1]) == t as real ==>
        rp[i, 2] == positions[t].1 && rp[i, 3] == positions[t].0
    {
      SetTelescopeRows(rp, nwave, tel, positions[tel]);
      tel := tel + 1;
    }
  }

  /** readout_pos[readout_pos[:, 1] == tel, 2:4] = (y, x): every row labelled tel, and no other. */
  method SetTelescopeRows(rp: array2<real>, nwave: nat, tel: nat, pos: (real, real))
    requires rp.Length0 == 4 * nwave && rp.Length1 == 4 && tel < 4
    modifies rp
    ensures forall i :: 0 <= i < 4 * nwave && rp[i, 1] == tel as real ==> rp[i, 2] == pos.1 && rp[i, 3] == pos.0
    ensures forall i, j :: 0 <= i < 4 * nwave && 0 <= j < 4 && (old(rp[i, 1]) != tel as real || j < 2) ==> rp[i, j] == old(rp[i, j])
  {
    var r := 0;
    while r < 4 * nwave
      invariant 0 <= r <= 4 * nwave
      invariant forall i :: 0 <= i < r && rp[i, 1] == tel as real ==> rp[i, 2] == pos.1 && rp[i, 3] == pos.0
      invariant forall i, j :: 0 <= i < 4 * nwave && 0 <= j < 4 && (old(rp[i, 1]) != tel as real || j < 2 || r <= i) ==> rp[i, j] == old(rp[i, j])
    {
      if rp[r, 1] == tel as real {
        rp[r, 2] := pos.1;
        rp[r, 3] := pos.0;
      }
      r := r + 1;
    }
  }

  /** reshape(4, nwave) of the interpolated values: row t, column w is the value at readout row t*nwave + w. */
  function Reshape(flat: seq<real>, nwave: nat): (m: seq<seq<real>>)
    requires |flat| == 4 * nwave
    ensures |m| == 4 && forall t :: 0 <= t < 4 ==> |m[t]| == nwave
    ensures forall t, w :: 0 <= t < 4 && 0 <= w < nwave ==> m[t][w] == flat[RowOf(w, t, nwave)]
  {
    seq(4, t requires 0 <= t < 4 => seq(nwave, w requires 0 <= w < nwave => flat[t * nwave + w]))
  }

  /**
   * The coupling the reshape puts at (telescope t, wave w) was looked up at
   * the readout row labelled with exactly that wave and telescope.
   */
  lemma ReshapeMatchesReadoutLabels(flat: seq<real>, nwave: nat, t: nat, w: nat)
    requires |flat| == 4 * nwave && t < 4 && w < nwave
    ensures RowOf(w, t, nwave) < 4 * nwave
    ensures RowOf(w, t, nwave) % nwave == w && RowOf(w, t, nwave) / nwave == t
    ensures Reshape(flat, nwave)[t][w] == flat[RowOf(w, t, nwave)]
  {
    RowOfRoundTrip(w, t, nwave);
  }

  /** One dimension of the centred crop or pad: where the copy starts in the source and in the target, and its length. */
  datatype Window = Window(srcStart: nat, dstStart: nat, len: nat)

  /**
   * a larger than the target: crop [floor(d), a - ceil(d)) with d = (a - t)/2;
   * a smaller: place it at [floor(d), t - ceil(d)) with d = (t - a)/2.
   */
  function CentreWindow(a: nat, t: nat): (w: Window)
    ensures w.len == if a <= t then a else t
    ensures w.srcStart + w.len <= a && w.dstStart + w.len <= t
    ensures a >= t ==> w.dstStart == 0 && 0 <= (a - w.len - w.srcStart) - w.srcStart <= 1
    ensures a <= t ==> w.srcStart == 0 && 0 <= (t - w.len - w.dstStart) - w.dstStart <= 1
  {
    if a > t then
      var diff := a - t;
      Window(diff / 2, 0, a - (diff + 1) / 2 - diff / 2)
    else if a < t then
      var diff := t - a;
      Window(0, diff / 2, t - (diff + 1) / 2 - diff / 2)
    else Window(0, 0, a)
  }

  /** Padding to a larger size and cropping back use the same offset, so the round trip restores the map. */
  lemma PadThenCropAligned(a: nat, t: nat)
    requires a <= t
    ensures CentreWindow(t, a).srcStart == CentreWindow(a, t).dstStart
    ensures CentreWindow(t, a).len == CentreWindow(a, t).len == a
  {
  }

  predicate InWindow(i: int, w: Window)
  {
    w.dstStart <= i < w.dstStart + w.len
  }

  /**
   * The two-dimensional crop/pad: a new t0 x t1 array of padval, with the
   * centred window of a copied in.
   */
  method Procrustes(a: array2<real>, t0: nat, t1: nat, padval: real) returns (b: array2<real>)
    ensures fresh(b) && b.Length0 == t0 && b.Length1 == t1
    ensures forall i, j :: 0 <= i < t0 && 0 <= j < t1 ==>
      var w0 := CentreWindow(a.Length0, t0);
      var w1 := CentreWindow(a.Length1, t1);
      b[i, j] == if InWindow(i, w0) && InWindow(j, w1) then a[i - w0.dstStart + w0.srcStart, j - w1.dstStart + w1.srcStart] else padval
  {
    var w0 := CentreWindow(a.Length0, t0);
    var w1 := CentreWindow(a.Length1, t1);
    b := new real[t0, t1]((i, j) => padval);
    var i := 0;
    while i < w0.len
      invariant 0 <= i <= w0.len
      invariant forall p, q :: 0 <= p < t0 && 0 <= q < t1 ==>
        b[p, q] == if w0.dstStart <= p < w0.dstStart + i && InWindow(q, w1) then a[p - w0.dstStart + w0.srcStart, q - w1.dstStart + w1.srcStart] else padval
    {
      CopyRow(a, b, w0.srcStart + i, w0.dstStart + i, w1);
      i := i + 1;
    }
  }

  method CopyRow(a: array2<real>, b: array2<real>, src: nat, dst: nat, w1: Window)
    requires a != b && src < a.Length0 && dst < b.Length0
    requires w1.srcStart + w1.len <= a.Length1 && w1.dstStart + w1.len <= b.Length1
    modifies b
    ensures forall q :: 0 <= q < b.Length1 && InWindow(q, w1) ==> b[dst, q] == a[src, q - w1.dstStart + w1.srcStart]
    ensures forall p, q :: 0 <= p < b.Length0 && 0 <= q < b.Length1 && (p != dst || !InWindow(q, w1)) ==> b[p, q] == old(b[p, q])
  {
    var j := 0;
    while j < w1.len
      invariant 0 <= j <= w1.len
      invariant forall q :: w1.dstStart <= q < w1.dstStart + j ==> b[dst, q] == a[src, q - w1.dstStart + w1.srcStart]
      invariant forall p, q :: 0 <= p < b.Length0 && 0 <= q < b.Length1 && (p != dst || !(w1.dstStart <= q < w1.dstStart + j)) ==> b[p, q] == old(b[p, q])
    {
      b[dst, w1.dstStart + j] := a[src, w1.srcStart + j];
      j := j + 1;
    }
  }
}
