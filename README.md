# mygravipy fitting core in Dafny

mygravipy fits point-source models to GRAVITY interferometry data. The data
come from four telescopes, which form six baselines and four closure
triangles. Under the transcendental numerics sits a discrete layer, and
every sampler step goes through it:

- the parameter vector of each fitter has a fixed slot layout;
- a list `todel` names the slots held fixed;
- the vector handed to the sampler is reduced with `numpy.delete` and rebuilt
  with a loop of `numpy.insert`;
- the model visibilities are wrapped, closed over triangles and scaled by
  coherence-loss factors;
- each likelihood is a flag-masked Gaussian sum, with a box prior in front;
- the data are flagged and cleaned before a fit;
- phase maps are looked up through an index table.

This project models that layer on three code bases:

- the packaged multi-source fitter, `src/mygravipy/gravmfit.py`;
- the older multi-source fitter, `gravmfit.py`;
- the binary, triple and unary fitters, `gravfit.py`.

It proves what the code promises about the layer, and where it falls short.

The model works on these terms:

- Every number is a Dafny `real`.
- The band-integrated kernels, `10**x`, `log10`, `sqrt`, `angle` and cos/sin
  are inputs or arrow-typed parameters, and so are the chord phase residual
  of the packaged fitter, the Gaussian log-density of the night prior and
  `norm.ppf`.
- NaN is a boolean mask carried beside each value array.
- An exception is an `Err` of the `Common.Error` enumeration.
- Minus infinity is `Common.NegInf`.

Where the code builds a vector, flags an array or accumulates a sum in a
loop, the model is a method over arrays or sequences. That method is proved
against a specification function. The remaining members are functions and
lemmas.

The modules:

- `Common`: Option, Result, the error conditions and the log-probability.
- `ParamVector`: `numpy.delete`, the insertion loop, `sorted(set(...))`, and
  the round-trip of the reduced-parameter protocol.
- `MultiStar`: the slot layout, builder and `todel` of the packaged
  multi-source fitter, and the reduction.
- `Phase`: the wrap, closure phases and amplitudes, coherence loss and the
  phase residuals.
- `Likelihood`: the masked sums, the likelihoods of every fitter, the box
  and night priors, reduced chi^2 and the prior transform.
- `Visibility`: fit-mode dispatch, projected offsets and the accumulation of
  numerator and denominators.
- `PhaseMap`: file choice and load checks, slice normalisation, readout
  table, baseline pairing and the centred crop/pad.
- `Preprocess`: NaN and range flags, error fixes, the channel window, and
  the unary fit's quality test and masks.
- `FitConfig`: channel windows, fit-mode settings, burn-in, the `todel`
  lists of the binary, triple, unary, root and night fits, walkers and the
  night unpacking.

## Model

| member | source | states |
|---|---|---|
| ParamVector.Gather | src/mygravipy/gravmfit.py:1425 | `theta[todel]` has one value per listed slot, and the k-th value is the entry at slot `todel[k]` |
| ParamVector.Expand | src/mygravipy/gravmfit.py:855-856 | a successful rebuild is longer than the reduced vector by exactly the number of inserted values |
| ParamVector.ExpandTheta | src/mygravipy/gravmfit.py:855-856 | the insertion loop succeeds exactly when the specification `Expand` does and returns its vector; an insertion position beyond the vector is the error InsertOutOfRange |
| ParamVector.DeleteNothing | src/mygravipy/gravmfit.py:1426 | `numpy.delete` with an empty list returns the vector unchanged |
| ParamVector.DeleteKeepsPrefix | src/mygravipy/gravmfit.py:1426 | entries at unlisted positions pass through unchanged and in order |
| ParamVector.DeleteSkipsListed | src/mygravipy/gravmfit.py:1426 | a run of listed positions is dropped and the rest continues behind it |
| ParamVector.DeleteDependsOnMembers | src/mygravipy/gravmfit.py:1426 | the reduction depends only on which positions are listed, not on their order or repetitions |
| ParamVector.InsertUndoesSmallestDelete | src/mygravipy/gravmfit.py:855-856 | inserting the value of the smallest deleted position back at that position undoes that one deletion |
| ParamVector.RoundTrip | src/mygravipy/gravmfit.py:855-856 | for a strictly ascending, in-range `todel`, rebuilding the reduced vector from `fixed = theta[todel]` restores the full vector exactly |
| ParamVector.InsertSorted | src/mygravipy/gravmfit.py:2676 | inserting into a strictly ascending list keeps it strictly ascending, adds exactly the new value, and grows by one only when the value was absent |
| ParamVector.SortUnique | src/mygravipy/gravmfit.py:2676 | `sorted(list(set(t)))` is strictly ascending, has exactly the members of `t`, and keeps the length of a list without repeats |
| ParamVector.SortedIndicesIn | src/mygravipy/gravmfit.py:2676 | sorting keeps every listed position inside the vector |
| ParamVector.ReducedLength | src/mygravipy/gravmfit.py:1426-1428 | reduction by distinct in-range positions removes exactly `len(todel)` entries and equals reduction by the sorted list |
| ParamVector.DeleteNames | src/mygravipy/gravmfit.py:1423-1424 | deleting names one at a time, largest position first, gives the same list as `numpy.delete`, so names stay aligned with the values |
| MultiStar.SlotName | src/mygravipy/gravmfit.py:1277-1355 | the name the builder appends for each slot is a name of the layout for that source count |
| MultiStar.SlotOf | src/mygravipy/gravmfit.py:901-910 | every quantity the model reads sits at a slot inside theta |
| MultiStar.SlotNameRoundTrip | src/mygravipy/gravmfit.py:1277-1355 | the model reads each named quantity from the slot where the builder wrote that name, so slots and names are one-to-one |
| MultiStar.SlotOfRoundTrip | src/mygravipy/gravmfit.py:901-910 | the converse: the builder names each slot the model reads with the quantity it reads there |
| MultiStar.CompanionSlots | src/mygravipy/gravmfit.py:1294-1314 | companion k+1 occupies slots 3k-1, 3k and 3k+1 as its RA offset, Dec offset and log flux ratio |
| MultiStar.NuisanceSlots | src/mygravipy/gravmfit.py:1316-1355 | slot `th_rest + j` carries the j-th nuisance name (alpha BH, f BG, pc RA, pc Dec, fr BH, CL1..CL6) |
| MultiStar.Resolve | src/mygravipy/gravmfit.py:1213-1267 | on success the arguments are consistent and the RA list is kept; a Dec list of the wrong length fails with ListLengthMismatch; a coherence-loss mask of a length other than six fails; no other error arises |
| MultiStar.SetPair | src/mygravipy/gravmfit.py:1283-1288 | after writing the reference source, slots 0 and 1 of the vector hold the layout's value |
| MultiStar.SetTriple | src/mygravipy/gravmfit.py:1295-1305 | after writing companion ndx+1, its three slots hold the layout's values and the earlier slots are kept |
| MultiStar.SetNuisance | src/mygravipy/gravmfit.py:1321-1349 | after the nuisance block, every slot of the vector holds the layout's value |
| MultiStar.FillSources | src/mygravipy/gravmfit.py:1277-1314 | after the source loop, the names, the three vectors up to `th_rest`, and `todel` are exactly what the layout prescribes |
| MultiStar.WriteSource | src/mygravipy/gravmfit.py:1281-1305 | one pass writes the source's slots in theta, lower and upper and extends the filled prefix |
| MultiStar.NoteSource | src/mygravipy/gravmfit.py:1289-1314 | one pass appends the source's names and its fixed slots in the builder's order |
| MultiStar.FillNuisance | src/mygravipy/gravmfit.py:1316-1355 | after the nuisance block, all names and all three vectors match the layout slot by slot |
| MultiStar.AppendNuisanceTodel | src/mygravipy/gravmfit.py:1360-1378 | the appends after the source loop come in the builder's order: alpha, background, phase centre, fr BH, coherence loss |
| MultiStar.BuildParameters | src/mygravipy/gravmfit.py:1213-1380 | fails exactly when the argument checks fail, with the same error; otherwise every slot's name, start value, lower and upper edge is the layout's, `todel` is the builder's list, and `ndof = len(theta) - len(todel)` |
| MultiStar.SourceTodelShape | src/mygravipy/gravmfit.py:1289-1311 | the fixed slots of the sources are strictly ascending and lie before the first nuisance slot |
| MultiStar.CompanionTodelShape | src/mygravipy/gravmfit.py:1307-1311 | a companion's fixed slots are ascending and inside its own three slots |
| MultiStar.MaskedOutShape | src/mygravipy/gravmfit.py:1375-1376 | the masked-out coherence-loss slots are ascending and inside the six coherence-loss slots |
| MultiStar.NuisancePieces | src/mygravipy/gravmfit.py:1360-1368 | each single append after the source loop lies in its own band of slots |
| MultiStar.TodelPrefixShape | src/mygravipy/gravmfit.py:1360-1368 | everything appended before the coherence-loss part is ascending and below `th_rest + 5` |
| MultiStar.CohTodelShape | src/mygravipy/gravmfit.py:1369-1378 | the coherence-loss part is all six slots, a masked subset, the background slot alone, or nothing |
| MultiStar.TodelAscendingCase | src/mygravipy/gravmfit.py:1360-1378 | outside the late-background case, `todel` is strictly ascending and inside theta |
| MultiStar.TodelLateCase | src/mygravipy/gravmfit.py:1377-1378 | in the late-background case, `todel` is out of order but still free of repeats and inside theta |
| MultiStar.TodelShape | src/mygravipy/gravmfit.py:1360-1378 | `todel` is distinct and in range, and it is strictly ascending exactly when the background slot is not appended late |
| MultiStar.UnsortedExampleTodel | src/mygravipy/gravmfit.py:1360-1378 | with no companion, coherence loss on, a free background and a fixed phase centre, the builder lists `[2, 3, 4, 1]` |
| MultiStar.DeleteExample | src/mygravipy/gravmfit.py:1426 | deleting `[2, 3, 4, 1]` from the eleven slots keeps slot 0 and slots 5..10 |
| MultiStar.ExpandExample | src/mygravipy/gravmfit.py:855-856 | inserting at 2, 3, 4, then 1 puts the saved slot-1 value at 1 and pushes the others one place up |
| MultiStar.UnsortedTodelShiftsSlots | src/mygravipy/gravmfit.py:855-856 | for that list the rebuild moves the first coherence-loss value into the pc RA slot and differs from theta whenever those two values differ |
| MultiStar.SortedTodelRestoresTheta | src/mygravipy/gravmfit.py:2676 | sorting the builder's list gives the same reduced vector and an in-range ascending list, so the rebuild restores every slot |
| MultiStar.BuilderTodelRoundTrip | src/mygravipy/gravmfit.py:855-856 | without the late background slot, the builder's own list already round-trips |
| MultiStar.ReduceParameters | src/mygravipy/gravmfit.py:1423-1428 | theta, lower, upper and the names are each reduced by the same positions, `fixed = theta[todel]`, and all four reduced lists have length `len(theta) - len(todel)` |
| MultiStar.CompanionFluxSlot | src/mygravipy/gravmfit.py:1007-1012 | with phase maps, companion k+1's flux is read at 3k+1, the slot the builder named `fr(k+1)` |
| MultiStar.NoPhasemapFluxReadsOtherSlot | src/mygravipy/gravmfit.py:1023-1025 | without phase maps, the index read is 3k+2: the next source's RA offset, or alpha BH for the last source, and never a flux ratio |
| Phase.Wrap | src/mygravipy/gravmfit.py:1041-1042 | one wrap step moves by -360, 0 or +360; it maps [-540, 540] into [-180, 180] and leaves [-180, 180] alone |
| Phase.WrapIdempotent | src/mygravipy/gravmfit.py:1041-1042 | on [-540, 540], wrapping twice equals wrapping once |
| Phase.WrapSingleStep | src/mygravipy/gravmfit.py:1041-1042 | a single step does not reach [-180, 180] beyond three half-turns: 600 becomes 240 |
| Phase.ClosureSum | src/mygravipy/gravmfit.py:1036-1039 | for phases in [-180, 180], the unwrapped closure `phi[b0] + phi[b1] - phi[b2]` lies in [-540, 540], where one wrap step suffices |
| Phase.ClosureProductProperties | gravfit.py:1193 | the closure amplitude of non-negative amplitudes is non-negative and does not depend on the order of the triangle's baselines |
| Phase.Closures | gravfit.py:1187-1196 | closures come from the unwrapped phases and amplitudes through the bispectrum table; closure phases and phases are then wrapped, and for phases already in [-180, 180] they are unchanged |
| Phase.WrapRows | gravmfit.py:748-749 | the vectorised wrap applies `Wrap` to every entry and is the identity on a table inside [-180, 180] |
| Phase.FinishMultiStar | src/mygravipy/gravmfit.py:1033-1045 | closures are taken before the wrap; amplitude row i is multiplied by coherence-loss factor i; phases and closures do not depend on the factors |
| Phase.CircularResidual | gravmfit.py:774-777 | within a turn, the folded residual equals `min(abs(d), 360 - abs(d))` and lies in [0, 180] |
| Phase.CircularResidualSymmetric | gravmfit.py:774-777 | the residual is symmetric in model and data, and adding a full turn to a model below the data leaves it unchanged |
| Phase.CircularResidualTurns | gravmfit.py:780-783 | phases a full turn apart, or equal, have residual 0; half a turn apart is the worst case, 180 |
| Phase.UnarySquareAsWritten | gravfit.py:3370-3372 | the unary fit's square as written is non-negative and never exceeds the plain squared difference |
| Phase.UnarySquare | gravfit.py:3370-3372 | the corrected, folded square lies in [0, 180^2] within a turn |
| Phase.UnaryResidualAsymmetric | gravfit.py:3370-3372 | as written, a model 350 degrees below the data counts as 350 off, but 350 above counts as 10; folded, both count as 10 |
| Phase.UnarySquareCorrected | gravfit.py:3370-3372 | the folded square is symmetric in model and data, and agrees with the code as written whenever the model lies at or above the data |
| Likelihood.EntryTerm | src/mygravipy/gravmfit.py:867 | one entry's term is never positive for a non-negative squared residual, and is exactly 0 when the entry is flagged |
| Likelihood.MaskedSum | src/mygravipy/gravmfit.py:867-868 | a flag-masked sum of non-negative squared residuals is never positive, and is 0 when every entry is flagged |
| Likelihood.MaskedSumIgnoresFlagged | src/mygravipy/gravmfit.py:867-868 | two residual lists that agree on every unflagged entry give the same sum, whatever the mismatch at flagged entries |
| Likelihood.MaskedSumSplit | src/mygravipy/gravmfit.py:867-868 | the sum splits at any point into the sums of its two parts |
| Likelihood.SquaredDiffs | src/mygravipy/gravmfit.py:867-868 | amplitude residuals are the entry-wise squared differences and are non-negative |
| Likelihood.SquaredResiduals | gravmfit.py:774-784 | phase residuals are the residual function's values squared, entry by entry, and are non-negative |
| Likelihood.Squares | src/mygravipy/gravmfit.py:860 | the model's squared visibility is the entry-wise square of its amplitude |
| Likelihood.HalfWeighted | src/mygravipy/gravmfit.py:877-880 | half the weighted sum of non-positive terms with non-negative weights is never positive |
| Likelihood.AmpTerm | src/mygravipy/gravmfit.py:867-868 | an amplitude term is never positive |
| Likelihood.PhaseTerm | src/mygravipy/gravmfit.py:870-876 | a phase term is never positive, whatever the residual function |
| Likelihood.Terms | src/mygravipy/gravmfit.py:867-876 | the four observable terms are each never positive |
| Likelihood.LnLikeMultiStar | src/mygravipy/gravmfit.py:860-881 | the packaged fitter's likelihood is never positive when the `fit_for` weights are non-negative |
| Likelihood.LnLikeCircular | gravmfit.py:760-790 | the older fitter's likelihood, with the folded residual, is never positive when the weights are non-negative |
| Likelihood.LnLikeBinary | gravfit.py:1206-1243 | the binary fit's five-term likelihood, including closure amplitudes, is never positive when the weights are non-negative |
| Likelihood.AmpTermIgnoresFlagged | src/mygravipy/gravmfit.py:867-868 | data differing only at flagged entries give the same amplitude term |
| Likelihood.PhaseTermIgnoresFlagged | src/mygravipy/gravmfit.py:870-876 | data differing only at flagged entries give the same phase term |
| Likelihood.TermsIgnoreFlagged | src/mygravipy/gravmfit.py:867-876 | data differing only at flagged entries give the same four terms |
| Likelihood.LnLikeIgnoresFlagged | src/mygravipy/gravmfit.py:860-881 | any value at a flagged entry leaves both multi-source likelihoods unchanged |
| Likelihood.LnProb | src/mygravipy/gravmfit.py:834-838 | minus infinity exactly when some component lies below its lower or above its upper edge; otherwise the likelihood unchanged |
| Likelihood.NightLnPrior | src/mygravipy/gravmfit.py:2177-2187 | minus infinity exactly outside the box; inside, the Gaussian log-density summed over the coherence-loss parameters |
| Likelihood.SumWhereOnlyPicked | src/mygravipy/gravmfit.py:2180-2186 | only the coherence-loss parameters enter the Gaussian part of the night prior |
| Likelihood.NightLnProb | src/mygravipy/gravmfit.py:2170-2174 | minus infinity exactly when the prior is; otherwise prior plus likelihood |
| Likelihood.CountFlagged | src/mygravipy/gravmfit.py:1796-1799 | `np.sum(flag)` never exceeds the number of entries |
| Likelihood.ReducedChi2 | src/mygravipy/gravmfit.py:1786-1799 | defined exactly when `size - #flagged - ndof` is non-zero; times that denominator it gives the unflagged chi^2 sum; it is non-negative for a positive denominator |
| Likelihood.CountFlaggedMonotone | src/mygravipy/gravmfit.py:1796-1799 | flagging more entries never lowers the flagged count the denominator subtracts |
| Likelihood.UniformPrior | src/mygravipy/gravmfit.py:2201 | the uniform branch maps [0, 1] onto [mean - width, mean + width], 0 to the lower end and 1 to the upper end |
| Likelihood.UniformPriorMonotone | src/mygravipy/gravmfit.py:2201 | the uniform branch preserves order for a non-negative width |
| Likelihood.PriorTransform | src/mygravipy/gravmfit.py:2190-2202 | each coordinate goes through the Gaussian quantile where `gprior` is set and through the uniform map otherwise; the length is kept |
| Likelihood.PriorTransformInBox | src/mygravipy/gravmfit.py:2196-2201 | a unit-cube point whose coordinates all take the uniform branch lands inside the box around `mean` |
| Likelihood.KeptSum | gravfit.py:3371-3374 | half the flag-masked sum over the entries whose term is a number is never positive for non-negative squares; only kept entries need a non-zero error |
| Likelihood.KeptSumIgnoresDropped | gravfit.py:3373 | squares at NaN or flagged entries do not affect the sum |
| Likelihood.UnarySquares | gravfit.py:3370-3371 | each non-NaN entry holds the signed `min(d**2, (360-d)**2)` of its model and data phase, and every entry is non-negative |
| Likelihood.UnaryLnLike | gravfit.py:3367-3374 | the unary likelihood as written, with the signed square and NaN terms dropped, is never positive |
| Likelihood.UnaryLnLikeDropsNaN | gravfit.py:3373 | entries whose term is NaN or flagged do not affect either unary likelihood, whatever the model says there |
| Likelihood.UnaryLnLikeAgreesAboveData | gravfit.py:3370-3372 | as-written and folded likelihoods agree whenever every kept model phase lies between its data phase and a turn above it |
| Likelihood.UnaryLnLikeBelowDataExample | gravfit.py:3370-3374 | one entry with model 0, data 350 and error 1 gives -61250 as written and -50 folded |
| Likelihood.FoldedSquares | gravfit.py:3370-3371 | corrected: each non-NaN entry holds the folded square, and every entry is non-negative |
| Likelihood.UnaryLnLikeFolded | gravfit.py:3367-3374 | corrected: the same likelihood over the folded squares is never positive |
| Visibility.ParseFitMode | src/mygravipy/gravmfit.py:822-830 | a fit mode is accepted exactly when it is approx, analytic or numeric, and any other string is UnknownFitMode |
| Visibility.ParseModeName | src/mygravipy/gravmfit.py:822-830 | parsing a mode's name gives back that mode |
| Visibility.IndVisibility | src/mygravipy/gravmfit.py:818-831 | the dispatch returns the output of the kernel the mode names, and raises exactly for an unknown mode |
| Visibility.SourcePosition | src/mygravipy/gravmfit.py:955-961 | source 0's coordinates are read at slots 0 and 1, source k's at 3k-1 and 3k |
| Visibility.Offsets | src/mygravipy/gravmfit.py:948-966 | the central source sits at the phase centre and each source at its offsets plus the phase centre, one offset per source; with phase maps each offset is reduced by `(pha0 - pha1)/360 * wave` of its own map phases |
| Visibility.RelativeOffset | src/mygravipy/gravmfit.py:948-966 | a companion's offset relative to the central source is its own projected position less the difference of the two map delays, whatever the phase centre |
| Visibility.CentredSourceSharesOffset | src/mygravipy/gravmfit.py:948-966 | a source exactly at the phase centre, with the phase centre's map phases, has the central source's offset on every baseline |
| Visibility.RootPhaseCentre | gravmfit.py:694-699 | with `fit_for[3] == 0` the phase centre is (0, 0); otherwise, or without `fit_for`, it is the parameters' |
| Visibility.RootOffsets | gravmfit.py:701-713 | the older fitter's offsets use that phase centre, with source k at slots 3k and 3k+1, each reduced by its map delay when phase maps are used |
| Visibility.PhaseCentreIgnoredWhenPhasesOff | gravmfit.py:694-699 | with `fit_for[3] == 0`, vectors that differ only in the phase-centre slots give the same offsets |
| Visibility.Accumulate | src/mygravipy/gravmfit.py:973-1029 | the accumulation loop yields the numerator and both denominators of the specification sums |
| Visibility.SumsAgreeAtCentre | src/mygravipy/gravmfit.py:1015-1025 | with balanced weights and every source at zero offset, the source sums in the numerator and both denominators agree |
| Visibility.UnresolvedSceneHasUnitRatio | src/mygravipy/gravmfit.py:973-1029 | an unresolved scene without background has numerator equal to both denominators, that is unit visibility |
| Visibility.BackgroundOnlyInDenominators | src/mygravipy/gravmfit.py:1027-1029 | the background adds the same term to both denominators and leaves the numerator alone |
| Visibility.SourceCoefficients | src/mygravipy/gravmfit.py:992-1025 | one weight triple per source; without phase maps each is balanced and the reference source's is (1, 1, 1) |
| Visibility.CoefficientsReadFluxSlot | src/mygravipy/gravmfit.py:1007-1011 | companion k's weights depend on theta only through slot 3k+1, the builder's flux slot |
| Visibility.HeadCoefficients | src/mygravipy/gravmfit.py:973-990 | without phase maps the central source's weights are balanced |
| Visibility.MultiStarBaseline | src/mygravipy/gravmfit.py:948-1029 | one baseline's numerator and denominators are those of the weights above, with the background ratio read at `th_rest + 1` |
| Visibility.MultiStarUnresolved | src/mygravipy/gravmfit.py:1014-1029 | without phase maps and without background, a scene with every source at the phase centre gives equal numerator and denominators |
| Visibility.RootCoefficients | gravmfit.py:723-734 | without phase maps, source k's weights are all `10**theta[3k+2]` |
| Visibility.RootBaseline | gravmfit.py:715-738 | the older fitter's numerator and denominators from those weights, with the background ratio at slot 3n+1 |
| PhaseMap.EachTelescopeOnThreeBaselines | src/mygravipy/gravmfit.py:643-660 | each map slot lies on exactly three of the six baselines |
| PhaseMap.SlotsAndTelescopesAgree | gravfit.py:1028-1033 | baseline i contains map slot t exactly when it contains the UT that slot is labelled with |
| PhaseMap.TablesAgree | gravfit.py:1028-1033 | the slot-pair table and the UT-pair table name the same telescopes, and the flux and OPD tables read UT `u` at index `u - 1` |
| PhaseMap.PairUp | src/mygravipy/gravmfit.py:643-660 | the six per-baseline pairs take the two ends of each baseline from the per-telescope values |
| PhaseMap.PairUpLocal | src/mygravipy/gravmfit.py:643-660 | changing one telescope's coupling changes only the three baselines on it |
| PhaseMap.PhaseMapFiles | src/mygravipy/gravmfit.py:508-517 | data year 2019 and 2020 name their two files; any other year is an error |
| PhaseMap.LoadPhaseMaps | src/mygravipy/gravmfit.py:505-531 | loading succeeds exactly for a known year, present files and a matching channel count; a missing file is MissingPhaseMap and a count mismatch is ChannelCountMismatch |
| PhaseMap.MaxOf | src/mygravipy/gravmfit.py:539 | `np.max` is an upper bound that some entry reaches |
| PhaseMap.NormalisedPeakIsOne | src/mygravipy/gravmfit.py:537-540 | after dividing a slice with a positive maximum by that maximum, every entry is at most 1 and the maximum is 1 |
| PhaseMap.NormaliseSlices | src/mygravipy/gravmfit.py:537-540 | every (wave, telescope) slice is divided in place by its own maximum as it was before the division |
| PhaseMap.NormaliseRow | src/mygravipy/gravmfit.py:539-540 | one slice is divided by its maximum and no other slice changes |
| PhaseMap.RotationKeepsDistance | src/mygravipy/gravmfit.py:625 | the rotation keeps the distance from the map centre (100, 100) |
| PhaseMap.RowOfRoundTrip | src/mygravipy/gravmfit.py:613-614 | row `t*n + w` of the readout table decodes back to wave w and telescope t |
| PhaseMap.ReadoutPositions | src/mygravipy/gravmfit.py:611-628 | row r holds wave `r mod n`, telescope `r div n`, and that telescope's rotated position with its two coordinates swapped |
| PhaseMap.LabelRows | src/mygravipy/gravmfit.py:612-614 | columns 0 and 1 tile the wave index and repeat the telescope index |
| PhaseMap.FillPositions | src/mygravipy/gravmfit.py:616-628 | after the telescope loop, every row gets the position of the telescope its label names, and the labels are kept |
| PhaseMap.SetTelescopeRows | src/mygravipy/gravmfit.py:626-627 | the masked write touches every row labelled with the telescope, and no other |
| PhaseMap.Reshape | src/mygravipy/gravmfit.py:630-632 | `reshape(4, n)` puts the value of readout row `t*n + w` at (t, w) |
| PhaseMap.ReshapeMatchesReadoutLabels | src/mygravipy/gravmfit.py:613-632 | the coupling at (telescope t, wave w) was looked up at the row labelled with exactly that wave and telescope |
| PhaseMap.CentreWindow | src/mygravipy/gravmfit.py:134-142 | the copied length is the smaller size, within both arrays, and the margins on either side differ by at most one |
| PhaseMap.PadThenCropAligned | src/mygravipy/gravmfit.py:134-142 | padding to a larger size and cropping back use the same offset and length, so the round trip restores the map |
| PhaseMap.Procrustes | src/mygravipy/gravmfit.py:117-144 | the result has the target shape; inside the centred window it holds the source entries, and outside it holds the pad value |
| PhaseMap.CopyRow | src/mygravipy/gravmfit.py:143 | one row of the slice assignment copies the window and changes nothing else |
| Preprocess.Prepare | src/mygravipy/gravmfit.py:1513-1539 | flags are only set; NaN becomes 0; an amplitude is flagged iff it was flagged, is NaN or, with the range check, lies outside [1e-5, 1], and a flagged amplitude gets error 1; a zero phase error is flagged and replaced by 100 |
| Preprocess.PrepareIdempotent | src/mygravipy/gravmfit.py:1513-1539 | preparing prepared data again changes nothing |
| Preprocess.PreparedErrorsUsable | src/mygravipy/gravmfit.py:1513-1539 | after preparation a flagged amplitude has error 1 and no phase error is zero |
| Preprocess.UnflaggedAmplitudeInRange | src/mygravipy/gravmfit.py:1513-1520 | an amplitude left unflagged by the range-checked preparation is a number in [1e-5, 1] |
| Preprocess.PrepareObservable | src/mygravipy/gravmfit.py:1513-1539 | every entry of a (rows x channels) block becomes its prepared value, error and flag |
| Preprocess.PrepareRow | src/mygravipy/gravmfit.py:1513-1539 | one row is prepared and no other row changes |
| Preprocess.WindowKeepsOnlyInside | src/mygravipy/gravmfit.py:1541-1557 | with both bounds positive, a channel left unflagged lies in `[flagtill, flagfrom)` |
| Preprocess.FlagWindow | src/mygravipy/gravmfit.py:1541-1557 | channels `[0, flagtill)` and `[flagfrom, end)` of every row are flagged when both bounds are positive; other flags are kept |
| Preprocess.Unflagged | gravfit.py:3739 | the number of unflagged channels is at most the row size, and is zero exactly when every channel is flagged |
| Preprocess.DoFit | gravfit.py:3725-3742 | the loop clears `dofit` exactly when some u or v is zero, or some baseline is fully flagged or has fewer than `mindatapoints` unflagged channels |
| Preprocess.UnflaggedMonotone | gravfit.py:3739 | more flags never raise the unflagged count |
| Preprocess.MoreFlagsNeverRescue | gravfit.py:3725-3742 | data that fail the test keep failing after more flags are set |
| Preprocess.TelescopeRows | gravfit.py:3750-3753 | the rows `dontfit` flags are exactly the baselines containing that UT |
| Preprocess.TelescopeOnThreeRows | gravfit.py:3750-3753 | a valid UT lies on exactly three baselines |
| Preprocess.ListMask | gravfit.py:3763-3771 | a baseline list flags only rows 0..5 |
| Preprocess.ListMaskMeaning | gravfit.py:3763-3771 | a list passes exactly when every number lies in 1..6 and no telescope was given; it then flags exactly the rows `bl - 1` of its numbers |
| Preprocess.ListMaskPasses | gravfit.py:3763-3771 | the error part of the list check: it passes exactly when every number is a baseline and no telescope was given |
| Preprocess.ListMaskRows | gravfit.py:3763-3771 | the flagging part: a passing list flags exactly the rows its numbers name |
| Preprocess.MaskPlan | gravfit.py:3745-3771 | an invalid telescope raises before anything is flagged; a valid one flags its three baselines; a single baseline raises when a telescope is also given, and otherwise flags row `bl - 1` when it lies in 1..6 |
| Preprocess.BothMasksRaise | gravfit.py:3745-3771 | a telescope together with baselines always raises, after the telescope's rows are flagged |
| Preprocess.FlagRow | gravfit.py:3753 | every channel of the named row is flagged and nothing else changes |
| Preprocess.MaskTelescopes | gravfit.py:3745-3771 | the in-place masks return MaskPlan's outcome and flag exactly its rows on top of the old flags, also when an error stops them |
| Preprocess.MaskList | gravfit.py:3763-3771 | the list loop returns ListMask's outcome and flags exactly its rows |
| FitConfig.ChannelWindow | src/mygravipy/gravmfit.py:1150-1159 | with no bounds, LOW gives (3, 13), MEDIUM (30, 200) and HIGH raises; given bounds are kept; a single bound raises unless it disables the window |
| FitConfig.LowDefaultKeepsMiddle | src/mygravipy/gravmfit.py:1541-1557 | the LOW default keeps exactly channels 3..12 |
| FitConfig.LegacyWindow | gravmfit.py:870-871 | the older fitters raise exactly when data that are not LOW keep the default window |
| FitConfig.FitModeSettings | src/mygravipy/gravmfit.py:1161-1170 | exactly the four modes are accepted; phasefit becomes approx with `fit_for = [0, 0, 0, 1]` and only phases; other modes keep their name and weights |
| FitConfig.Last | src/mygravipy/gravmfit.py:1666-1671 | `chain[-k:]` is the last k steps, or all of them when there are fewer |
| FitConfig.BurnIn | src/mygravipy/gravmfit.py:1666-1671 | the retained chain is the last 200 steps above the first threshold, the last 100 above the second, otherwise all |
| FitConfig.BinaryBurnIn | gravfit.py:1856-1864 | above 300 steps keep 200, above 200 keep 100, otherwise keep all |
| FitConfig.TripleBurnIn | gravfit.py:2886-2894 | above 299 steps keep 200, above 199 keep 100, otherwise keep all |
| FitConfig.BurnInWindowsDiffer | gravfit.py:2886-2894 | the two rules disagree exactly for chains of 200 and 300 steps |
| FitConfig.BinaryBlocks | gravfit.py:1546-1566 | each option's append lists exactly the fixed slots of its own range |
| FitConfig.OnlyPosBlock | gravfit.py:1543-1545 | with `onlypos`, slots 2..15 are listed, in order |
| FitConfig.BinaryTodel | gravfit.py:1541-1568 | `todel` is ascending and lists exactly the slots the options fix; `onlypos` leaves two free parameters; `ndof = 16 - len(todel)` |
| FitConfig.OnlyPosTodel | gravfit.py:1543-1545 | the `onlypos` loop lists the fourteen slots 2..15 in ascending order |
| FitConfig.OptionTodel | gravfit.py:1546-1566 | the option appends give an ascending list of exactly the fixed slots |
| FitConfig.OptionTodelHead | gravfit.py:1547-1556 | the appends up to the background give an ascending list of the fixed slots below 9 |
| FitConfig.TripleBlocks | gravfit.py:2673-2686 | each option's append lists exactly the fixed slots of its range |
| FitConfig.TripleTodel | gravfit.py:2671-2687 | `todel` is ascending and lists exactly the slots the options fix; `ndof = 11 - len(todel)` |
| FitConfig.UnaryBlocks | gravfit.py:3604-3615 | each option's append lists exactly the fixed slots of its range |
| FitConfig.OpdBlock | gravfit.py:3610-3612 | the OPD of telescope `tel` is listed exactly when its `fitopds` entry is not 1 |
| FitConfig.UnaryTodel | gravfit.py:3603-3616 | `todel` is ascending and lists exactly the slots the options fix; `ndof = 10 - len(todel)` |
| FitConfig.RootSourceSlot | gravmfit.py:995-999 | slot j of source k is fixed exactly for unfitted offsets (j < 2) or an unfitted flux (j = 2) |
| FitConfig.RootSourceBlock | gravmfit.py:995-999 | one source's appends list exactly its fixed slots, ascending |
| FitConfig.RootNuisanceBlock | gravmfit.py:1031-1035 | the nuisance appends list exactly the fixed nuisance slots, ascending |
| FitConfig.RootTodel | gravmfit.py:977-1036 | the older fitter's `todel` is ascending, lists exactly the fixed slots of its `3n + 4` slots, and `ndof = ndim - len(todel)` |
| FitConfig.RootStartInBox | gravmfit.py:977-1017 | with sensible arguments the starting vector lies inside its own prior box |
| FitConfig.RootStart | gravmfit.py:907-1017 | a per-source list (de, fr, fit_size, fit_pos, fit_fr) whose length differs from ra_list raises ListLengthMismatch first; then an `initial` list without four values raises; otherwise source k sits at 3k..3k+2 with its box (offsets boxed by fit_size, default 5), followed by the four nuisance values and their boxes |
| FitConfig.RootFitSize | gravmfit.py:907-908 | without fit_size every source's box half-width is 5 |
| FitConfig.SetNuisance | gravmfit.py:1001-1017 | the last four slots get the nuisance values and boxes; earlier slots are kept |
| FitConfig.FillSources | gravmfit.py:982-993 | after the source loop every source's three slots and boxes are set |
| FitConfig.SetSource | gravmfit.py:983-993 | one source's three slots in the three vectors are written and nothing else changes |
| FitConfig.WalkerStart | gravmfit.py:1238-1244 | each walker sits exactly on theta at fixed slots, and at theta plus width times its noise elsewhere |
| FitConfig.WalkerKeepsFixed | gravmfit.py:1238-1244 | a walker that agrees with theta on the fixed slots holds exactly theta's fixed values |
| FitConfig.NightFileSlot | src/mygravipy/gravmfit.py:2649-2660 | slot j of file f in the night vector is fixed exactly as the per-file rules say |
| FitConfig.FileBlock | src/mygravipy/gravmfit.py:2649-2660 | file f's appends list exactly the fixed slots of its eleven |
| FitConfig.FileTodelSlot | src/mygravipy/gravmfit.py:2649-2660 | a file slot is in the file's appends exactly when it is fixed |
| FitConfig.OffsetBlock | src/mygravipy/gravmfit.py:2592-2594 | a source's offsets are listed exactly when its position is not fitted |
| FitConfig.FluxBlock | src/mygravipy/gravmfit.py:2607-2608 | a flux ratio is listed exactly when it is not fitted |
| FitConfig.NightTodel | src/mygravipy/gravmfit.py:2579-2681 | after sorting, the night `todel` is strictly ascending, in range, and lists exactly the fixed slots; `ndof = ndim - len(todel)` |
| FitConfig.NightRoundTrip | src/mygravipy/gravmfit.py:2214-2215 | for the sorted night `todel` (exactly the fixed slots), the likelihood's insertion loop restores the night vector, and the sampler sees one entry per fitted slot |
| FitConfig.NuisanceSlot | src/mygravipy/gravmfit.py:2228-2241 | a file's nuisance slot j reads file 0's alpha when alpha is shared, otherwise the file's own slot (the background too, whatever `oneBG`), always inside the vector |
| FitConfig.BackgroundSlotAsWritten | src/mygravipy/gravmfit.py:2233-2236 | as written, both branches read the file's own background slot |
| FitConfig.NuisanceSlotFixed | src/mygravipy/gravmfit.py:2228-2241 | what the unpacking reads is fixed exactly when the slot it comes from is fixed in its file: file 0's for a shared alpha, the file's own otherwise |
| FitConfig.SharedBackgroundFixedAsWritten | src/mygravipy/gravmfit.py:2233-2236 | with one shared background, a later file reads its own background slot, which is fixed and differs from file 0's |
| FitConfig.NuisanceSlotCorrected | src/mygravipy/gravmfit.py:2228-2236 | corrected: with `oneBG` the background comes from file 0 like a shared alpha; it differs from the as-written read only there, and only for later files |
| FitConfig.BackgroundAlwaysFitted | src/mygravipy/gravmfit.py:2654-2655 | corrected: every file reads a background slot that is fitted |
| FitConfig.UnpackFile | src/mygravipy/gravmfit.py:2218-2241 | the per-file vector has `3n + 10` slots: source offsets and flux ratios in the multi-source layout, then the file's eleven nuisance values |
| FitConfig.UnpackSources | src/mygravipy/gravmfit.py:2220-2226 | source s >= 1's offsets and flux ratio land at 3s-1, 3s and 3s+1; the nuisance part is untouched |
| FitConfig.UnpackNuisance | src/mygravipy/gravmfit.py:2228-2241 | the eleven nuisance slots receive the slots `NuisanceSlot` names; the source part is untouched |

## Left out

- The band-integrated visibility kernels, `10**x`, `log10`, `sqrt`, `np.angle`, the rotation's cos/sin and the chord residual of the packaged fitter: these are transcendental floating point, so their values are inputs.
- The Gaussian log-density of the night prior and `norm.ppf`: these are inputs too.
- The walkers' normal draws are an input matrix.
- Floating-point rounding, NaN propagation and infinities are not modelled; NaN is a separate boolean mask.
- The interpolator lookups and the conversion of a complex map into amplitude and phase: only the index layout around them is modelled.
- `_read_phasemaps` (src/mygravipy/gravmfit.py:673-725) refers to `self` outside a class. The name error is caught, so the extra offset is never added. The model covers it as `ReadoutPositions` with no auxiliary scaling and no extra offset.
- Procrustes' checks of the target's dimension count and of the pad value are left out; the model is two-dimensional.
- FITS headers, `.npy` files, pandas pickles, text and PDF reports, and plotting are I/O.
- emcee, dynesty and multiprocessing are external samplers and concurrency. The likelihoods are modelled as the functions those samplers call.
- The phase-screen generation, `fixS29` fibre coupling, `star_orbits.py` and the cosmetic helpers are left out.
- The night fit is modelled for at least one source, as its layout `3n - 1 + 11 * nfiles` assumes.
- The per-file loops of the night likelihood and of the fitters' DIT and polarisation loops are not modelled. One file, DIT or polarisation is modelled at a time.
- Zero errors on any entry, flagged or not, of the multi-source and binary likelihoods are excluded by their precondition. numpy would produce infinities there, or NaN on flagged entries. The packaged fitter replaces zero phase and closure-phase errors before the fit (src/mygravipy/gravmfit.py:1537-1540), but leaves zero amplitude errors on unflagged entries alone. The unary likelihood requires non-zero errors only on entries that are neither flagged nor NaN.
- Visibility.Offsets, Visibility.RootOffsets: the map phases of each source are inputs per baseline and channel; their lookup in the interpolated maps, at the phase centre the parameters give, is not modelled.
- Visibility.SourceFlux, Visibility.SourceCoefficients, Visibility.MultiStarBaseline, Visibility.MultiStarUnresolved: these read the companion flux at the builder's slot 3k+1 in both branches, the corrected read. The code as written reads 3k+2 without phase maps (src/mygravipy/gravmfit.py:1023-1025); `MultiStar.NoPhasemapFluxIndex` and `MultiStar.NoPhasemapFluxReadsOtherSlot` model that read.
- Preprocess.PrepareObservable: the per-DIT slices of the object's stored arrays (src/mygravipy/gravmfit.py:1496-1510) are views, and the phase flags come from the amplitude flag array (1448, 1477). So every error and flag write on a sliced view lands in the stored arrays in place: the error writes at 1521, 1523, 1533, 1538 and 1540, the phase and closure flag writes at 1537 and 1539, and the window writes to the visphi, closure and closamp flags at 1550-1552 and 1556-1558. The amplitude and squared-visibility flags are new arrays by then (1518-1519, 1530-1531). Each DIT and polarisation works on its own rows, so the fit itself is unaffected; only later readers of the stored arrays on the same object (a second fit, say) see the changes. The model prepares each observable on its own arrays and does not capture this aliasing.
- MultiStar.Resolve: when several arguments are wrong at once, the contract does not say which error is raised first. It states only the set of possible errors and two of the triggering cases.
- Preprocess.ListMask: its own contract states only the range of the flagged rows. `ListMaskMeaning` gives the full characterisation.
- Phase.UnarySquareAsWritten: its contract states only bounds. `UnaryResidualAsymmetric` pins the discrepancy down on concrete inputs.
- Visibility.SourceCoefficients: with phase maps, the weights are stated only through `CoefficientsReadFluxSlot` (their dependence on theta), not as closed formulas.
- FitConfig.ChannelWindow: the window test in the data loop is modelled by `Preprocess.OutsideWindow`. With a single bound given, the code compares None with 0 and raises unless `flagtill <= 0` short-circuits; the model returns IncompleteWindow for that case and otherwise the pair (flagtill, 0), which flags nothing.
- Only the packaged fitter skips the amplitude range check when `vis_flag` is off (src/mygravipy/gravmfit.py:1515-1516). The older fitters always check; `Kind.Amplitude(rangeCheck)` covers both.

## Findings

| source | as written | input that shows it | evidently intended | confidence | as-written member | corrected member |
|---|---|---|---|---|---|---|
| src/mygravipy/gravmfit.py:1377-1378 | `fit_stars` appends the background slot `th_rest+1` after slots `th_rest+2..4`. The likelihood inserts the fixed values in list order (855-856). | No companion (`ra_list` empty), `coh_loss=True`, `fixedBG=False`, `fit_for[3]=0`: `todel = [2, 3, 4, 1]`, and the rebuild puts the first coherence-loss value into the pc RA slot | sort `todel` before reducing, as the night fit does (2676) | high, not executed | MultiStar.UnsortedTodelShiftsSlots | MultiStar.SortedTodelRestoresTheta |
| src/mygravipy/gravmfit.py:1023-1025 | without phase maps, companion k+1's flux is read at `theta[3k+2]` | two sources: slot 5 is alpha BH, so alpha BH is used as the companion's log flux | read slot `3k+1`, where the builder puts the flux, as the phase-map branch does (1007-1011) | high, not executed | MultiStar.NoPhasemapFluxReadsOtherSlot | Visibility.CoefficientsReadFluxSlot |
| gravfit.py:3370-3372 | `min(d**2, (360-d)**2)` with the signed difference d | model 0, data 350: d = -350 gives 122500 instead of 100 | fold the absolute difference, as `lnlike` does | high, not executed | Phase.UnaryResidualAsymmetric | Phase.UnarySquareCorrected |
| src/mygravipy/gravmfit.py:2233-2236 | both `oneBG` branches read the file's own background slot | `oneBG=True`, two files: file 1 reads its slot, which `todel` fixes (2654-2655), so its background stays at its start value | with `oneBG`, read file 0's background slot, as `oneBHalpha` does for alpha | medium, not executed | FitConfig.SharedBackgroundFixedAsWritten | FitConfig.NuisanceSlotCorrected |
