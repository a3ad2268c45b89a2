/**
 * Data preparation before a fit: NaN values replaced by zero (and flagged for
 * amplitudes; phases and closure amplitudes are only zeroed), out of range
 * amplitudes flagged, errors of flagged amplitudes set to 1, zero phase
 * errors flagged and set to 100, the channel window flagged, the unary fit's
 * data-quality test and its telescope/baseline masks. NaN is a boolean mask
 * beside each value array; flags are only ever set.
 */
module Preprocess {
  import opened Common
  import PhaseMap

  /** How an observable is prepared. */
  datatype Kind =
    | Amplitude(rangeCheck: bool)   // visibility amplitude or squared visibility
    | ClosureAmplitude
    | Phase                         // visibility phase or closure phase

  datatype Entry = Entry(val: real, err: real, flag: bool)

  /** An amplitude outside [1e-5, 1]; a NaN compares false both ways and is caught by its own mask. */
  predicate OutOfRange(v: real)
  {
    v > 1.0 || v < 0.00001
  }

  /** The preparation of one entry. */
  function Prepare(kind: Kind, v: real, e: real, f: bool, isNan: bool): (r: Entry)
    ensures f ==> r.flag
    ensures r.val == if isNan then 0.0 else v
    ensures kind.Amplitude? ==> (r.flag <==> f || isNan || (kind.rangeCheck && OutOfRange(v)))
    ensures kind.Amplitude? ==> r.err == if r.flag then 1.0 else e
    ensures kind.ClosureAmplitude? ==> r.flag == f && r.err == if f then 1.0 else e
    ensures kind.Phase? ==> (r.flag <==> f || e == 0.0)
    ensures kind.Phase? ==> r.err != 0.0 && (e != 0.0 ==> r.err == e)
  {
    var val := if isNan then 0.0 else v;
    match kind
    case Amplitude(rangeCheck) =>
      var flag := f || (rangeCheck && OutOfRange(v)) || isNan;
      Entry(val, if flag then 1.0 else e, flag)
    case ClosureAmplitude =>
      Entry(val, if f then 1.0 else e, f)
    case Phase =>
      Entry(val, if e == 0.0 then 100.0 else e, f || e == 0.0)
  }

  /** Preparing prepared data again changes nothing. */
  lemma PrepareIdempotent(kind: Kind, v: real, e: real, f: bool, isNan: bool)
    ensures var r := Prepare(kind, v, e, f, isNan);
            Prepare(kind, r.val, r.err, r.flag, false) == r
  {
  }

  /**
   * After preparation every error the likelihood divides by is non-zero where
   * it counts: a flagged amplitude has error 1, and no phase error is zero.
   */
  lemma PreparedErrorsUsable(kind: Kind, v: real, e: real, f: bool, isNan: bool)
    ensures var r := Prepare(kind, v, e, f, isNan);
            (r.flag && !kind.Phase? ==> r.err == 1.0) && (kind.Phase? ==> r.err != 0.0)
  {
  }

  /** An unflagged amplitude after a range-checked preparation is a number in [1e-5, 1]. */
  lemma UnflaggedAmplitudeInRange(v: real, e: real, f: bool, isNan: bool)
    requires !Prepare(Amplitude(true), v, e, f, isNan).flag
    ensures !isNan && 0.00001 <= Prepare(Amplitude(true), v, e, f, isNan).val <= 1.0
  {
  }

  /**
   * The preparation of one observable, entry by entry and in place: values,
   * errors and flags of a (rows x channels) block.
   */
  method PrepareObservable(val: array2<real>, err: array2<real>, flag: array2<bool>, nan: array2<bool>, kind: Kind)
    requires val != err && flag != nan
    requires err.Length0 == val.Length0 && flag.Length0 == val.Length0 && nan.Length0 == val.Length0
    requires err.Length1 == val.Length1 && flag.Length1 == val.Length1 && nan.Length1 == val.Length1
    modifies val, err, flag
    ensures forall i, j :: 0 <= i < val.Length0 && 0 <= j < val.Length1 ==>
      Entry(val[i, j], err[i, j], flag[i, j]) == Prepare(kind, old(val[i, j]), old(err[i, j]), old(flag[i, j]), nan[i, j])
  {
    var i := 0;
    while i < val.Length0
      invariant 0 <= i <= val.Length0
      invariant forall p, q :: 0 <= p < i && 0 <= q < val.Length1 ==>
        Entry(val[p, q], err[p, q], flag[p, q]) == Prepare(kind, old(val[p, q]), old(err[p, q]), old(flag[p, q]), nan[p, q])
      invariant forall p, q :: i <= p < val.Length0 && 0 <= q < val.Length1 ==>
        val[p, q] == old(val[p, q]) && err[p, q] == old(err[p, q]) && flag[p, q] == old(flag[p, q])
    {
      PrepareRow(val, err, flag, nan, kind, i);
      i := i + 1;
    }
  }

  method PrepareRow(val: array2<real>, err: array2<real>, flag: array2<bool>, nan: array2<bool>, kind: Kind, i: nat)
    requires val != err && flag != nan && i < val.Length0
    requires err.Length0 == val.Length0 && flag.Length0 == val.Length0 && nan.Length0 == val.Length0
    requires err.Length1 == val.Length1 && flag.Length1 == val.Length1 && nan.Length1 == val.Length1
    modifies val, err, flag
    ensures forall q :: 0 <= q < val.Length1 ==>
      Entry(val[i, q], err[i, q], flag[i, q]) == Prepare(kind, old(val[i, q]), old(err[i, q]), old(flag[i, q]), nan[i, q])
    ensures forall p, q :: 0 <= p < val.Length0 && p != i && 0 <= q < val.Length1 ==>
      val[p, q] == old(val[p, q]) && err[p, q] == old(err[p, q]) && flag[p, q] == old(flag[p, q])
  {
    var j := 0;
    while j < val.Length1
      invariant 0 <= j <= val.Length1
      invariant forall q :: 0 <= q < j ==>
        Entry(val[i, q], err[i, q], flag[i, q]) == Prepare(kind, old(val[i, q]), old(err[i, q]), old(flag[i, q]), nan[i, q])
      invariant forall p, q :: 0 <= p < val.Length0 && (p != i || j <= q) && 0 <= q < val.Length1 ==>
        val[p, q] == old(val[p, q]) && err[p, q] == old(err[p, q]) && flag[p, q] == old(flag[p, q])
    {
      var r := Prepare(kind, val[i, j], err[i, j], flag[i, j], nan[i, j]);
      val[i, j] := r.val;
      err[i, j] := r.err;
      flag[i, j] := r.flag;
      j := j + 1;
    }
  }

  /** Channel c falls outside the kept window [flagtill, flagfrom): only when both bounds are positive. */
  predicate OutsideWindow(c: int, flagtill: int, flagfrom: int)
  {
    flagtill > 0 && flagfrom > 0 && (c < flagtill || c >= flagfrom)
  }

  /** A channel left unflagged by the window lies inside it, when a window is set. */
  lemma WindowKeepsOnlyInside(f: bool, c: int, flagtill: int, flagfrom: int)
    requires flagtill > 0 && flagfrom > 0
    requires !(f || OutsideWindow(c, flagtill, flagfrom))
    ensures flagtill <= c < flagfrom && !f
  {
  }

  /** flag[:, 0:flagtill] = True and flag[:, flagfrom:] = True, when both bounds are positive. */
  method FlagWindow(flag: array2<bool>, flagtill: int, flagfrom: int)
    modifies flag
    ensures forall i, c :: 0 <= i < flag.Length0 && 0 <= c < flag.Length1 ==>
      flag[i, c] == (old(flag[i, c]) || OutsideWindow(c, flagtill, flagfrom))
  {
    if flagtill > 0 && flagfrom > 0 {
      var i := 0;
      while i < flag.Length0
        invariant 0 <= i <= flag.Length0
        invariant forall p, c :: 0 <= p < flag.Length0 && 0 <= c < flag.Length1 ==>
          flag[p, c] == (old(flag[p, c]) || (p < i && OutsideWindow(c, flagtill, flagfrom)))
      {
        var c := 0;
        while c < flag.Length1
          invariant 0 <= c <= flag.Length1
          invariant forall p, q :: 0 <= p < flag.Length0 && 0 <= q < flag.Length1 ==>
            flag[p, q] == (old(flag[p, q]) || ((p < i || (p == i && q < c)) && OutsideWindow(q, flagtill, flagfrom)))
        {
          if c < flagtill || c >= flagfrom {
            flag[i, c] := true;
          }
          c := c + 1;
        }
        i := i + 1;
      }
    }
  }

  /** The number of unflagged channels of a row: its size minus its count of set flags. */
  function Unflagged(row: seq<bool>): (n: nat)
    ensures n <= |row|
    ensures n == 0 <==> forall c :: 0 <= c < |row| ==> row[c]
  {
    if row == [] then 0 else (if row[0] then 0 else 1) + Unflagged(row[1..])
  }

  /** No coordinate of the baseline vector is exactly zero. */
  predicate NoZero(u: seq<real>)
  {
    forall i :: 0 <= i < |u| ==> u[i] != 0.0
  }

  /** A baseline keeps at least one channel and at least mindatapoints of them. */
  predicate RowUsable(row: seq<bool>, mindatapoints: int)
  {
    Unflagged(row) > 0 && Unflagged(row) >= mindatapoints
  }

  /** Baselines 0..upto-1 are all usable. */
  predicate RowsUsable(flags: seq<seq<bool>>, mindatapoints: int, upto: nat)
    requires upto <= |flags|
  {
    forall bl :: 0 <= bl < upto ==> RowUsable(flags[bl], mindatapoints)
  }

  /** The unary fit's test: no zero u or v, no baseline fully flagged, none with fewer than mindatapoints unflagged channels. */
  predicate GoodEnough(u: seq<real>, v: seq<real>, flags: seq<seq<bool>>, mindatapoints: int)
  {
    NoZero(u) && NoZero(v) && RowsUsable(flags, mindatapoints, |flags|)
  }

  /** The check as the fit runs it: dofit starts true and each failed test clears it. */
  method DoFit(u: seq<real>, v: seq<real>, flags: seq<seq<bool>>, mindatapoints: int) returns (dofit: bool)
    ensures dofit == GoodEnough(u, v, flags, mindatapoints)
  {
    dofit := true;
    if exists i :: 0 <= i < |u| && u[i] == 0.0 {
      dofit := false;
    }
    if exists i :: 0 <= i < |v| && v[i] == 0.0 {
      dofit := false;
    }
    var bl := 0;
    while bl < |flags|
      invariant 0 <= bl <= |flags|
      invariant dofit == (NoZero(u) && NoZero(v) && RowsUsable(flags, mindatapoints, bl))
    {
      assert RowsUsable(flags, mindatapoints, bl + 1)
        == (RowsUsable(flags, mindatapoints, bl) && RowUsable(flags[bl], mindatapoints));
      if forall c :: 0 <= c < |flags[bl]| ==> flags[bl][c] {
        dofit := false;
      } else if Unflagged(flags[bl]) < mindatapoints {
        dofit := false;
      }
      bl := bl + 1;
    }
  }

  /** Flags only ever remove channels: more flags never lower the unflagged count less. */
  lemma {:induction false} UnflaggedMonotone(a: seq<bool>, b: seq<bool>)
    requires |a| == |b| && forall c :: 0 <= c < |a| && a[c] ==> b[c]
    ensures Unflagged(b) <= Unflagged(a)
  {
    if a != [] {
      UnflaggedMonotone(a[1..], b[1..]);
    }
  }

  /** Data that fails the test keeps failing after more flags are set. */
  lemma MoreFlagsNeverRescue(u: seq<real>, v: seq<real>, a: seq<seq<bool>>, b: seq<seq<bool>>, mindatapoints: int)
    requires |a| == |b| && forall bl :: 0 <= bl < |a| ==> |a[bl]| == |b[bl]| && forall c :: 0 <= c < |a[bl]| && a[bl][c] ==> b[bl][c]
    requires GoodEnough(u, v, b, mindatapoints)
    ensures GoodEnough(u, v, a, mindatapoints)
  {
    forall bl | 0 <= bl < |a|
      ensures RowUsable(a[bl], mindatapoints)
    {
      UnflaggedMonotone(a[bl], b[bl]);
    }
  }

  /** The baselines (0-based rows) that contain UT `ut`. */
  function TelescopeRows(ut: int): (rows: set<int>)
    ensures forall bl :: bl in rows <==> 0 <= bl < 6 && (PhaseMap.BaselineTelescopes[bl].0 == ut || PhaseMap.BaselineTelescopes[bl].1 == ut)
  {
    set bl | 0 <= bl < 6 && (PhaseMap.BaselineTelescopes[bl].0 == ut || PhaseMap.BaselineTelescopes[bl].1 == ut)
  }

  /** A valid telescope is on exactly three baselines. */
  lemma TelescopeOnThreeRows(ut: int)
    requires 1 <= ut <= 4
    ensures |TelescopeRows(ut)| == 3
  {
    if ut == 4 {
      assert TelescopeRows(4) == {0, 1, 2};
    } else if ut == 3 {
      assert TelescopeRows(3) == {0, 3, 4};
    } else if ut == 2 {
      assert TelescopeRows(2) == {1, 3, 5};
    } else {
      assert TelescopeRows(1) == {2, 4, 5};
    }
  }

  /** The baseline exclusion of the unary fit: none, one baseline number, or a list of them. */
  datatype BaselineChoice = NoBaselines | OneBaseline(b: int) | BaselineList(bs: seq<int>)

  /** The rows flagged by a baseline list, read front to back, and whether it stops at an error. */
  function ListMask(bs: seq<int>, telescopeGiven: bool): (r: (Result<()>, set<int>))
    ensures forall x :: x in r.1 ==> 0 <= x < 6
  {
    if bs == [] then (Ok(()), {})
    else if !(1 <= bs[0] <= 6) then (Err(BadBaseline), {})
    else if telescopeGiven then (Err(TelescopeAndBaseline), {})
    else
      var rest := ListMask(bs[1..], telescopeGiven);
      (rest.0, {bs[0] - 1} + rest.1)
  }

  /** A list passes exactly when every number is a baseline and no telescope was given; it then flags exactly its rows. */
  lemma {:induction false} ListMaskMeaning(bs: seq<int>, telescopeGiven: bool)
    ensures ListMask(bs, telescopeGiven).0.Ok? <==> forall k :: 0 <= k < |bs| ==> 1 <= bs[k] <= 6 && !telescopeGiven
    ensures ListMask(bs, telescopeGiven).0.Ok? ==> ListMask(bs, telescopeGiven).1 == set k | 0 <= k < |bs| :: bs[k] - 1
  {
    ListMaskPasses(bs, telescopeGiven);
    if ListMask(bs, telescopeGiven).0.Ok? {
      ListMaskRows(bs, telescopeGiven);
    }
  }

  lemma {:induction false} ListMaskPasses(bs: seq<int>, telescopeGiven: bool)
    ensures ListMask(bs, telescopeGiven).0.Ok? <==> forall k :: 0 <= k < |bs| ==> 1 <= bs[k] <= 6 && !telescopeGiven
  {
    if bs != [] && 1 <= bs[0] <= 6 && !telescopeGiven {
      ListMaskPasses(bs[1..], telescopeGiven);
      assert forall k :: 1 <= k < |bs| ==> bs[k] == bs[1..][k - 1];
    }
  }

  lemma {:induction false} ListMaskRows(bs: seq<int>, telescopeGiven: bool)
    requires ListMask(bs, telescopeGiven).0.Ok?
    ensures ListMask(bs, telescopeGiven).1 == set k | 0 <= k < |bs| :: bs[k] - 1
  {
    if bs != [] {
      ListMaskRows(bs[1..], telescopeGiven);
      RowsOfHead(bs);
    }
  }

  /** The rows named by a list: the head's row and the rows named by the rest. */
  lemma RowsOfHead(bs: seq<int>)
    requires bs != []
    ensures (set k | 0 <= k < |bs| :: bs[k] - 1) == {bs[0] - 1} + (set k | 0 <= k < |bs[1..]| :: bs[1..][k] - 1)
  {
    var all := set k | 0 <= k < |bs| :: bs[k] - 1;
    var tail := set k | 0 <= k < |bs[1..]| :: bs[1..][k] - 1;
    forall x | x in all ensures x in {bs[0] - 1} + tail {
      var k :| 0 <= k < |bs| && x == bs[k] - 1;
      if k > 0 {
        assert x == bs[1..][k - 1] - 1;
      }
    }
    forall x | x in tail ensures x in all {
      var k :| 0 <= k < |bs[1..]| && x == bs[1..][k] - 1;
      assert x == bs[k + 1] - 1;
    }
  }

  /**
   * The outcome of the masks and the rows they flag: the telescope first (an
   * invalid one raises before anything is flagged), then the baselines, which
   * raise on a number outside 1..6 or when a telescope was also given.
   */
  function MaskPlan(dontfit: Option<int>, choice: BaselineChoice): (r: (Result<()>, set<int>))
    ensures dontfit.Some? && !(1 <= dontfit.value <= 4) ==> r == (Err(BadTelescope), {})
    ensures dontfit.None? && choice.NoBaselines? ==> r == (Ok(()), {})
    ensures dontfit.Some? && 1 <= dontfit.value <= 4 && choice.NoBaselines? ==> r == (Ok(()), TelescopeRows(dontfit.value))
    ensures dontfit.Some? && choice.OneBaseline? ==> r.0.Err?
    ensures dontfit.None? && choice.OneBaseline? ==> (r.0.Ok? <==> 1 <= choice.b <= 6) && (r.0.Ok? ==> r.1 == {choice.b - 1})
    ensures forall x :: x in r.1 ==> 0 <= x < 6
  {
    var first: (Result<()>, set<int>) :=
      if dontfit.None? then (Ok(()), {})
      else if !(1 <= dontfit.value <= 4) then (Err(BadTelescope), {})
      else (Ok(()), TelescopeRows(dontfit.value));
    if first.0.Err? then first
    else match choice
      case NoBaselines => first
      case OneBaseline(b) =>
        if !(1 <= b <= 6) then (Err(BadBaseline), first.1)
        else if dontfit.Some? then (Err(TelescopeAndBaseline), first.1)
        else (Ok(()), first.1 + {b - 1})
      case BaselineList(bs) =>
        var rest := ListMask(bs, dontfit.Some?);
        (rest.0, first.1 + rest.1)
  }

  /** Telescope and baselines together always raise, after the telescope's rows are flagged. */
  lemma BothMasksRaise(ut: int, choice: BaselineChoice)
    requires 1 <= ut <= 4 && (choice.OneBaseline? || (choice.BaselineList? && choice.bs != []))
    ensures MaskPlan(Some(ut), choice).0.Err?
    ensures MaskPlan(Some(ut), choice).1 == TelescopeRows(ut)
  {
  }

  /** Flag every channel of row `bl`. */
  method FlagRow(flag: array2<bool>, bl: int)
    requires 0 <= bl < flag.Length0
    modifies flag
    ensures forall i, c :: 0 <= i < flag.Length0 && 0 <= c < flag.Length1 ==> flag[i, c] == (old(flag[i, c]) || i == bl)
  {
    var c := 0;
    while c < flag.Length1
      invariant 0 <= c <= flag.Length1
      invariant forall i, q :: 0 <= i < flag.Length0 && 0 <= q < flag.Length1 ==> flag[i, q] == (old(flag[i, q]) || (i == bl && q < c))
    {
      flag[bl, c] := true;
      c := c + 1;
    }
  }

  /**
   * The telescope and baseline masks on the phase flags (six rows), in place:
   * the result and the flagged rows are those of MaskPlan; rows flagged before
   * an error stay flagged.
   */
  method MaskTelescopes(flag: array2<bool>, dontfit: Option<int>, choice: BaselineChoice) returns (r: Result<()>)
    requires flag.Length0 == 6
    modifies flag
    ensures r == MaskPlan(dontfit, choice).0
    ensures forall i, c :: 0 <= i < 6 && 0 <= c < flag.Length1 ==> flag[i, c] == (old(flag[i, c]) || i in MaskPlan(dontfit, choice).1)
  {
    var rows: set<int> := {};
    if dontfit.Some? {
      if !(1 <= dontfit.value <= 4) {
        return Err(BadTelescope);
      }
      var bl := 0;
      while bl < 6
        invariant 0 <= bl <= 6
        invariant rows == set x | x in TelescopeRows(dontfit.value) && x < bl
        invariant forall i, c :: 0 <= i < 6 && 0 <= c < flag.Length1 ==> flag[i, c] == (old(flag[i, c]) || i in rows)
      {
        if PhaseMap.BaselineTelescopes[bl].0 == dontfit.value || PhaseMap.BaselineTelescopes[bl].1 == dontfit.value {
          FlagRow(flag, bl);
          rows := rows + {bl};
        }
        bl := bl + 1;
      }
      assert rows == TelescopeRows(dontfit.value);
    }
    match choice {
      case NoBaselines =>
        r := Ok(());
      case OneBaseline(b) =>
        if !(1 <= b <= 6) {
          return Err(BadBaseline);
        }
        if dontfit.Some? {
          return Err(TelescopeAndBaseline);
        }
        FlagRow(flag, b - 1);
        r := Ok(());
      case BaselineList(bs) =>
        r := MaskList(flag, bs, dontfit.Some?);
    }
  }

  /** The list branch: each number in turn is checked, then its row flagged. */
  method MaskList(flag: array2<bool>, bs: seq<int>, telescopeGiven: bool) returns (r: Result<()>)
    requires flag.Length0 == 6
    modifies flag
    ensures r == ListMask(bs, telescopeGiven).0
    ensures forall i, c :: 0 <= i < 6 && 0 <= c < flag.Length1 ==> flag[i, c] == (old(flag[i, c]) || i in ListMask(bs, telescopeGiven).1)
  {
    var k := 0;
    ghost var done: set<int> := {};
    assert bs[0..] == bs;
    while k < |bs|
      invariant 0 <= k <= |bs|
      invariant ListMask(bs, telescopeGiven).0 == ListMask(bs[k..], telescopeGiven).0
      invariant ListMask(bs, telescopeGiven).1 == done + ListMask(bs[k..], telescopeGiven).1
      invariant forall i, c :: 0 <= i < 6 && 0 <= c < flag.Length1 ==> flag[i, c] == (old(flag[i, c]) || i in done)
    {
      var b := bs[k];
      assert bs[k..][0] == b;
      if !(1 <= b <= 6) {
        return Err(BadBaseline);
      }
      if telescopeGiven {
        return Err(TelescopeAndBaseline);
      }
      assert bs[k..][1..] == bs[k + 1..];
      assert ListMask(bs[k..], telescopeGiven).1 == {b - 1} + ListMask(bs[k + 1..], telescopeGiven).1;
      FlagRow(flag, b - 1);
      done := done + {b - 1};
      k := k + 1;
    }
    r := Ok(());
  }
}
