# DFT-D4 reference interpolation, modelled in Dafny

This project models the reference-interpolation core of the DFT-D4 dispersion model in
`src/tad_dftd4/model.py`. It covers these parts:

- the normalisation of array names in `load_from_npz`;
- the 23-point Casimir–Polder quadrature `trapzd`;
- the Gaussian CN weight `weight_cn`;
- the charge scaling `zeta`, and its elementwise form `zeta2`.

It also covers the three `D4Model` methods:

- `weight_references` builds the Gaussian weights of the reference states. It has two parts: the vectorised path it returns, and the per-atom loops whose tables it throws away but whose exceptions still propagate.
- `_set_refalpha_eeq` builds the table of clipped reference polarisabilities, laid out as `23 * iref + k`.
- `get_atomic_c6` mixes reference pairs into the atom-pair C6 matrix.

The numbers are Dafny `real`s. `torch.exp` and `torch.pow` are function values held in an
`ExpPow`. Lemmas that need their properties require `Sound`: `exp` is positive, `exp(0) = 1`,
`pow(x, w)` is positive for positive `x`, and `pow(exp(x), w) = exp(w x)`. The archive arrays and
the per-element `zeff` and `gam` are a `RefTables` value that every routine takes as a parameter.
`ValidTables` states their shape: 87 elements, 7 reference slots, 23 frequencies, and padding
exactly where `refc` is 0.

Files follow the structure of the source:

- `keys.dfy`: `load_from_npz`.
- `quadrature.dfy`: `trapzd`, as a loop proved against `CasimirPolder`.
- `charge_scaling.dfy`: `zeta` and `zeta2`.
- `vectorised.dfy`: the `torch.where` weighting.
- `loop_path.dfy`: the triple loops, which write the `gwks` and `gwvec` arrays in place.
- `weighting.dfy`: `weight_references` as a whole.
- `polarizability.dfy`: `_set_refalpha_eeq`, which fills an `array2`.
- `dispersion.dfy`: `get_atomic_c6`, with four nested loops that fill `c6`.
- `outcome.dfy`: the exceptions.
- `tables.dfy`: the constants and the `refn` table.
- `transcendental.dfy`: `ExpPow`.
- `sums.dfy`: left-to-right sums and double sums.

The model follows the source as written, including these behaviours:

- A reference with multiplicity code 2, or any other positive code except 1 and 3, gets the raw Gaussian `tmp` (line 174), with no `wf` exponent.
- A zero norm is not caught by the exceptional test (line 192), so it does not select the max-CN fallback. It yields the 0/0 weights that `Weights` reports as `NonFiniteWeights`.
- An element without references has no dedicated error. Its atom raises Python's `1.0 / 0.0` on a float in the loop (line 244), and in `get_atomic_c6` it gets an all-zero row and column.
- The fallback indicator takes the maximum over all seven reference slots, so it also marks padding slots whose reference CN equals that maximum (lines 196-204).

## Model

| member | source | states |
|---|---|---|
| Tables.RefnShape | src/tad_dftd4/model.py:12-17 | `refn` has 87 entries, each at most 7; element 0 has none and every other element has at least one |
| Tables.StandardRefn | src/tad_dftd4/model.py:12-17 | tables using the model's own `refn` give the dummy element 0 no reference and every real element one |
| Tables.MaxRefOf | src/tad_dftd4/model.py:150 | `torch.max(refn[numbers])` bounds every atom's count, is attained by some atom, and is at most 7 |
| Keys.Without | src/tad_dftd4/model.py:41 | `str.replace(ch, "")` leaves no `ch`, keeps every other character as often as it occurs (multisets), and changes nothing when `ch` is absent |
| Keys.WithoutAppend | src/tad_dftd4/model.py:41 | removing `ch` from a concatenation removes it from each part and concatenates the results, so the kept characters stay in order |
| Keys.Lower | src/tad_dftd4/model.py:41 | `str.lower` on ASCII keys: the length is kept, each capital A-Z becomes its small letter in place, and every other character is kept |
| Keys.NormaliseKey | src/tad_dftd4/model.py:41 | the archive key is the name with `-` and then `+` removed, lower-cased |
| Keys.NormalisedKeyIsClean | src/tad_dftd4/model.py:41 | a normalised key holds no `-`, no `+` and no upper-case letter |
| Keys.NormaliseIdempotent | src/tad_dftd4/model.py:41 | normalising a normalised key leaves it unchanged |
| Keys.LoadFromNpz | src/tad_dftd4/model.py:41-42 | the lookup succeeds exactly when the normalised key is in the archive |
| Keys.LoadIgnoresSpelling | src/tad_dftd4/model.py:41-42 | looking up a name and looking up its normalised key find the same array |
| Quadrature.WeightsPositive | src/tad_dftd4/model.py:59-85 | there are 23 quadrature weights and all are positive |
| Quadrature.CasimirPolder | src/tad_dftd4/model.py:87-90 | the integral is half the sum over the 23 frequencies of weight times both samples |
| Quadrature.Trapzd | src/tad_dftd4/model.py:87-90 | the 23-step loop returns half the weighted sum of products of the two samples |
| Quadrature.CasimirPolderSymmetric | src/tad_dftd4/model.py:87-90 | the integral does not depend on the order of its arguments |
| Quadrature.CasimirPolderNonnegative | src/tad_dftd4/model.py:87-90 | non-negative samples give a non-negative integral |
| LoopPath.WeightCn | src/tad_dftd4/model.py:95-97 | `weight_cn(wf, cn, cnref)` is `exp(-wf (cn - cnref)^2)` |
| LoopPath.WeightCnIsPower | src/tad_dftd4/model.py:95-97 | `weight_cn(wf, cn, cnref)` is the `wf`-th power of `exp(-(cn - cnref)^2)` |
| ChargeScaling.Zeta | src/tad_dftd4/model.py:100-104 | `exp(a)` for a non-positive `qmod` (the ceiling the first branch means), else `exp(a (1 - exp(c (1 - qref / qmod))))` |
| ChargeScaling.ZetaIgnoresReferenceBelowZero | src/tad_dftd4/model.py:100-102 | for a non-positive effective charge `zeta` is `exp(a)` whatever the reference charge |
| ChargeScaling.ZetaAtReferenceCharge | src/tad_dftd4/model.py:104 | at the reference charge the scaling is exactly 1 |
| ChargeScaling.ZetaPositive | src/tad_dftd4/model.py:100-104 | the scaling is always positive |
| ChargeScaling.ZetaAsWritten | src/tad_dftd4/model.py:100-104 | the written `zeta`: the `TypeError` of `torch.exp` on a Python float for a non-positive `qmod`, else the scaling |
| ChargeScaling.ZetaAsWrittenRaises | src/tad_dftd4/model.py:101-102 | the written `zeta` raises on the branch meant to return `exp(a)`, which the corrected `Zeta` returns |
| ChargeScaling.ZetaAsWrittenAgrees | src/tad_dftd4/model.py:104 | for a positive effective charge the written `zeta` computes `Zeta` |
| ChargeScaling.Zeta2Row | src/tad_dftd4/model.py:210-215 | the `torch.where` of one row keeps the length, and its entry `r` is `zeta` at reference charge `qref[r]`: the ceiling `exp(scale)` where `qmod <= 0`, the scaling elsewhere |
| ChargeScaling.Zeta2 | src/tad_dftd4/model.py:210-215 | `zeta2` has the shape of `qref`, and entry `(i, r)` is `zeta` with the row's `gam[i]` and `qmod[i]` broadcast to every reference `r` |
| Vectorised.Gaussian | src/tad_dftd4/model.py:161-162 | `tmp` is `exp(-(cn - refcn)^2)`, the plain Gaussian of the CN difference |
| Vectorised.CodedWeight | src/tad_dftd4/model.py:164-178 | the `torch.where` chain: 0 for code 0 or less, `tmp^wf` for code 1, the three powers `tmp^wf + tmp^(2 wf) + tmp^(3 wf)` for code 3, and `tmp` itself for any other code |
| Vectorised.CodedWeightPositive | src/tad_dftd4/model.py:164-178 | a reference that is not padding has a positive unnormalised weight |
| Vectorised.ReferenceWeights | src/tad_dftd4/model.py:161-178 | `expw[r]` is 0 for padding, three powers for code 3, one power for code 1, else the raw Gaussian |
| Vectorised.Normalised | src/tad_dftd4/model.py:189 | `expw / norm` divides every entry by the norm |
| Vectorised.MaxCnIndicator | src/tad_dftd4/model.py:196-204 | the fallback is 1 exactly where the reference CN equals the element's largest, else 0 |
| Vectorised.AtomWeights | src/tad_dftd4/model.py:180-204 | an atom's `f` row is undefined (0/0) exactly when the norm is zero and not exceptional |
| Vectorised.AtomWeightsSumToOne | src/tad_dftd4/model.py:189 | outside the fallback the weights of an atom sum to 1 |
| Vectorised.AtomWeightsPadding | src/tad_dftd4/model.py:164-189 | outside the fallback padding references get weight 0 |
| Vectorised.AtomWeightsBounded | src/tad_dftd4/model.py:189 | outside the fallback each weight lies in [0, 1] |
| Vectorised.AtomWeightsDefined | src/tad_dftd4/model.py:180-189 | an element with a reference has a positive norm, so its weights are defined |
| Vectorised.FallbackSelectsMaxCn | src/tad_dftd4/model.py:196-204 | in the fallback exactly the max-CN references get 1 (ties included), the rest 0, with no renormalisation |
| Vectorised.ReferenceCharges | src/tad_dftd4/model.py:223 | the reference charges passed to `zeta2` are `refq + zeff` |
| Vectorised.ChargeScalingMatrix | src/tad_dftd4/model.py:218-223 | `z` has one row of 7 entries per atom |
| Vectorised.ChargeScalingEntry | src/tad_dftd4/model.py:218-223 | `z[i][r]` scales from the reference's effective charge to the atom's, with the atom's hardness |
| Vectorised.AllAtomWeights | src/tad_dftd4/model.py:196-204 | `f` is defined exactly when every atom's row is, and row `i` is that atom's row |
| Vectorised.ScaledTransposed | src/tad_dftd4/model.py:270 | `(f * z).mT` has 7 rows of one entry per atom, entry `(r, i)` being `z[i][r] * f[i][r]` |
| Vectorised.VectorisedWeights | src/tad_dftd4/model.py:223-270 | the vectorised result is defined exactly when `f` is, with entry `(r, i)` the scaled weight |
| Vectorised.VectorisedEntry | src/tad_dftd4/model.py:270 | a returned entry is the atom's weight times the reference's charge scaling |
| LoopPath.Count | src/tad_dftd4/model.py:240 | `range(refc)` runs `refc` times for a positive code, else not at all |
| LoopPath.ExpwIsNormSeries | src/tad_dftd4/model.py:240-251 | the `expw` loop and the `norm` loop add up the same powers |
| LoopPath.NormSeriesPositive | src/tad_dftd4/model.py:240-242 | the `norm` terms of a reference are positive, so at least one term gives a positive sum |
| LoopPath.TouchesIffReferences | src/tad_dftd4/model.py:236-244 | the norm loop runs at all exactly when the element has references |
| LoopPath.LoopNorm | src/tad_dftd4/model.py:236-242 | the `norm` after the first `n` references adds, per reference, `pow(tmp, (igw + 1) wf)` for each of its `refc` rounds |
| LoopPath.LoopFallback | src/tad_dftd4/model.py:255-259 | the loop's NaN fallback is 1 for a reference below `refn` at the largest reference CN, and 0 elsewhere, padding included |
| LoopPath.LoopScaledSeries | src/tad_dftd4/model.py:246-253 | the loop weight of a reference is its `expw` series times the inverted norm, 0 past `refn` |
| LoopPath.LoopAtomWeights | src/tad_dftd4/model.py:231-261 | an atom raises the float division exactly when no Gaussian was summed, and the ambiguous truth value only with several atoms |
| LoopPath.LoopNormPositive | src/tad_dftd4/model.py:236-242 | the norm of an element with references is positive |
| LoopPath.AtomLoopError | src/tad_dftd4/model.py:244-259 | atom `i` raises the float division when no Gaussian was summed, the ambiguous truth value when its norm is exceptional or zero in a molecule of several atoms, and nothing otherwise |
| LoopPath.AtomLoopErrorCases | src/tad_dftd4/model.py:231-259 | an atom raises exactly when its element has no reference, or its norm is exceptional in a molecule of several atoms |
| LoopPath.CodedAgreesWithSeries | src/tad_dftd4/model.py:164-178 | for padding and codes 1 and 3 the `torch.where` weight equals the loop's sum of powers |
| LoopPath.NormSeriesOne | src/tad_dftd4/model.py:240-242 | one round of the norm loop gives the code-1 power |
| LoopPath.NormSeriesThree | src/tad_dftd4/model.py:240-242 | three rounds of the norm loop give the three code-3 powers |
| LoopPath.ExpwSeriesAtReference | src/tad_dftd4/model.py:249-251 | at the reference's own CN, `k` rounds of the `expw` loop add up to `k` |
| LoopPath.CodedDisagreesAtReference | src/tad_dftd4/model.py:172-174 | for code 2 and codes above 3 the two paths differ: 1 against `code` at the reference CN |
| LoopPath.LoopNormIsSum | src/tad_dftd4/model.py:236-242 | with agreeing codes the loop's norm over `n` references is the vectorised sum of the first `n` |
| LoopPath.LoopNormAgrees | src/tad_dftd4/model.py:180 | with agreeing codes the loop's norm is the vectorised `norm` |
| LoopPath.LoopEntryAgrees | src/tad_dftd4/model.py:253 | `expw * (1 / norm)` equals `expw / norm` for an agreeing code |
| LoopPath.LoopAgreesWithVectorised | src/tad_dftd4/model.py:231-261 | where every code is 0, 1 or 3 and there is no fallback, the loop computes the vectorised weights |
| LoopPath.ScaledEntries | src/tad_dftd4/model.py:263-264 | each `gwvec` entry is the `gwks` entry times the atom's `zeta` for that reference |
| LoopPath.ReferenceZetaOfAtom | src/tad_dftd4/model.py:233-263 | `zeta` from the per-atom `zi` and `gi` is the reference's charge scaling |
| LoopPath.LoopRowPadding | src/tad_dftd4/model.py:229 | both tables stay 0 past the references of an atom's element |
| LoopPath.WriteEntry | src/tad_dftd4/model.py:261-264 | writing `gwks[iat, iref]` and `gwvec[iref, iat]` extends the written part by one entry |
| LoopPath.AtomNorm | src/tad_dftd4/model.py:236-242 | the norm loop returns the accumulated norm and whether any Gaussian was summed |
| LoopPath.ReferenceExpw | src/tad_dftd4/model.py:247-251 | the `expw` loop returns the sum of `weight_cn` over `refc` powers |
| LoopPath.FillReference | src/tad_dftd4/model.py:246-264 | one reference's round raises exactly when the NaN test fires with several atoms, and otherwise writes the final entries |
| LoopPath.FillAtom | src/tad_dftd4/model.py:231-264 | one atom's round raises that atom's exception or writes its row of `gwks` and column of `gwvec` |
| LoopPath.ZeroTables | src/tad_dftd4/model.py:151 | `gwvec` (`mref` x atoms) and `gwks` (atoms x 7) start as zeros |
| LoopPath.FillAtoms | src/tad_dftd4/model.py:231-264 | the loop over atoms raises the first atom's exception, or fills both tables |
| LoopPath.WeightReferencesLoop | src/tad_dftd4/model.py:229-264 | on success `gwks` and `gwvec` hold the loop rows and the scaled loop rows; otherwise the first exception |
| Weighting.Defaulted | src/tad_dftd4/model.py:145-148 | a missing `cn` or `q` is zeros of the molecule's length |
| Weighting.Weights | src/tad_dftd4/model.py:139-270 | returned weights have 7 rows of one entry per atom |
| Weighting.WeightReferences | src/tad_dftd4/model.py:139-270 | the method returns what `Weights` specifies, running the discarded loop for its exceptions |
| Weighting.NoLoopError | src/tad_dftd4/model.py:231-264 | the loop raises nothing exactly when no atom raises in it |
| Weighting.NoLoopErrorHasReferences | src/tad_dftd4/model.py:236-244 | a loop that raised nothing saw a reference for every atom |
| Weighting.LoopErrorKinds | src/tad_dftd4/model.py:244-256 | the loop raises only the float division or the ambiguous truth value |
| Weighting.WeightsEmptyMolecule | src/tad_dftd4/model.py:150 | the call fails with the empty-molecule error exactly for zero atoms |
| Weighting.LoopSucceeds | src/tad_dftd4/model.py:231-264 | the loop succeeds exactly when every element has references and, with several atoms, no norm is exceptional |
| Weighting.AllAtomWeightsDefined | src/tad_dftd4/model.py:180-204 | with references for every atom, every row of `f` is defined |
| Weighting.WeightsSucceed | src/tad_dftd4/model.py:139-270 | in exact arithmetic, the call returns weights exactly when there are atoms, all with references, and no exceptional norm unless there is only one atom; a zero norm, and so the 0/0 NaN, cannot then occur |
| Weighting.WeightsZeroDivision | src/tad_dftd4/model.py:244 | without exceptional norms, the call fails exactly when an element lacks references, and then with the float division |
| Weighting.StandardWeightsZeroDivision | src/tad_dftd4/model.py:244 | with the model's own `refn` that failure happens exactly for the dummy element 0 |
| Weighting.WeightsAmbiguous | src/tad_dftd4/model.py:255-256 | with several atoms whose elements all have references, one exceptional norm makes the call raise the ambiguous truth value |
| Weighting.WeightsValue | src/tad_dftd4/model.py:270 | the returned weights are the vectorised weights of the defaulted arguments |
| Weighting.WeightsEntry | src/tad_dftd4/model.py:270 | entry `(k, i)` is atom `i`'s weight of reference `k` times that reference's charge scaling |
| Weighting.WeightsNonnegative | src/tad_dftd4/model.py:196-270 | every returned weight is non-negative |
| Weighting.WeightsColumnIsDistribution | src/tad_dftd4/model.py:189-270 | without an exceptional norm an atom's weights lie in [0, 1] and sum to 1, and its padding entries are 0 |
| Weighting.ScalarScaledTransposed | src/tad_dftd4/model.py:270 | `(f * z).mT` with a scalar `z` scales every weight by the same factor |
| Weighting.LastLoopZeta | src/tad_dftd4/model.py:263 | the `z` the loop leaves behind: the `zeta` of the last reference of the last atom |
| Weighting.AtomLoopErrorAsWritten | src/tad_dftd4/model.py:244-263 | an atom of the written loop raises what it raises in `AtomLoopError`, and otherwise the `TypeError` of `zeta` exactly when its effective charge `q + zeff` is not positive |
| Weighting.LoopErrorsAsWritten | src/tad_dftd4/model.py:231-264 | the written loop's outcome for each of the first `k` atoms is that atom's `AtomLoopErrorAsWritten` |
| Weighting.AsWrittenLoopErrorKinds | src/tad_dftd4/model.py:244-263 | the written loop raises only the float division, the ambiguous truth value or the `TypeError` of `zeta` |
| Weighting.AsWrittenNoLoopError | src/tad_dftd4/model.py:231-264 | the written loop raises nothing exactly when the corrected loop raises nothing and every atom's effective charge is positive |
| Weighting.AsWrittenLoopErrorIsFloat | src/tad_dftd4/model.py:263 | when the corrected loop raises nothing, whatever the written loop raises is the `TypeError` of `zeta` |
| Weighting.WeightsAsWritten | src/tad_dftd4/model.py:263-270 | the written routine raises for no atoms exactly, and otherwise returns 7 rows of one entry per atom |
| Weighting.WeightsOk | src/tad_dftd4/model.py:139-270 | unfolding of the definition of `Weights`, used as a proof step: it returns exactly when there are atoms, its loop raises nothing and `f` is defined |
| Weighting.WeightsAsWrittenOk | src/tad_dftd4/model.py:139-270 | unfolding of the definition of `WeightsAsWritten`, used as a proof step: it returns exactly when there are atoms, its written loop raises nothing and `f` is defined |
| Weighting.WeightsAsWrittenLoopError | src/tad_dftd4/model.py:231-264 | unfolding of the definition of `WeightsAsWritten`, used as a proof step: when its loop raises, it raises that loop's first exception |
| Weighting.WeightsAsWrittenSucceeds | src/tad_dftd4/model.py:263-270 | the written routine returns exactly when `Weights` returns and every atom's effective charge `q + zeff` is positive |
| Weighting.WeightsAsWrittenFailure | src/tad_dftd4/model.py:263 | where `Weights` returns, the written routine can fail only with the `TypeError` of `zeta` |
| Weighting.WeightsAsWrittenRaisesOnNeutralAtom | src/tad_dftd4/model.py:263 | where `Weights` returns, one atom with `q + zeff <= 0` (a charge of `-zeff` or below) makes the written routine raise the `TypeError` |
| Weighting.WeightsAsWrittenDiffers | src/tad_dftd4/model.py:263-270 | with positive effective charges the written routine returns, and its entry differs from the intended one at every non-zero weight whose own charge scaling is not the last loop `zeta` |
| Polarizability.NonNegativePart | src/tad_dftd4/model.py:299-308 | `max(0.0, x)` is non-negative, at least `x`, and is either `x` or 0 |
| Polarizability.Secondary | src/tad_dftd4/model.py:289 | the secondary element of a reference is an atomic number |
| Polarizability.SecondaryZeta | src/tad_dftd4/model.py:289-297 | the charge scaling of the secondary element `refsys`, from its `zeff` to the reference's `refsq`, with hardness `gam * gc` |
| Polarizability.SecondaryZetaAsWritten | src/tad_dftd4/model.py:297 | the written `zeta` there raises the `TypeError` exactly when `refsq` is not positive, and otherwise computes `SecondaryZeta` |
| Polarizability.AlphaAsWrittenRaises | src/tad_dftd4/model.py:288-297 | the written `_set_refalpha_eeq` raises exactly when some reference of some atom has a non-positive `refsq` |
| Polarizability.RawAlpha | src/tad_dftd4/model.py:294-307 | the unclipped value `refascale * (refalpha[23 r + k] - refscount * aiw)`, with `aiw` the secondary element's scaled polarisability |
| Polarizability.ReferenceAlpha | src/tad_dftd4/model.py:294-308 | the clipped polarisability is non-negative, at least the unclipped one, equal to it when that is non-negative, and 0 otherwise |
| Polarizability.AlphaEntry | src/tad_dftd4/model.py:283-308 | every entry of `alpha` is non-negative, and 0 past the element's references |
| Polarizability.AlphaEntryOfReference | src/tad_dftd4/model.py:299-304 | column `23 * iref + k` holds the clipped polarisability of reference `iref` at frequency `k` |
| Polarizability.SecondaryAtOwnCharge | src/tad_dftd4/model.py:294-298 | at the secondary element's own effective charge its polarisability is subtracted unscaled |
| Polarizability.WriteAlpha | src/tad_dftd4/model.py:293-308 | one round of the frequency loop writes the final entry and keeps the rest |
| Polarizability.FillAlphaAtom | src/tad_dftd4/model.py:288-308 | the reference and frequency loops complete one atom's row |
| Polarizability.SetRefAlpha | src/tad_dftd4/model.py:273-310 | raises for no atoms; otherwise `alpha` is atoms x `23 * mref` with the entries of `AlphaEntry`, all non-negative |
| Dispersion.AlphaSamples | src/tad_dftd4/model.py:330 | the first `n` frequency samples of a reference |
| Dispersion.AlphaSlice | src/tad_dftd4/model.py:330 | the 23 samples of a reference, as the corrected slice passes them to `trapzd` |
| Dispersion.RefC6 | src/tad_dftd4/model.py:329-331 | `refc6` is `THOPI` times the Casimir–Polder integral of the 23 samples of the two references |
| Dispersion.RefC6Row | src/tad_dftd4/model.py:328-331 | a row of the reference C6 table holds `THOPI * trapzd` for each partner reference |
| Dispersion.RefC6Table | src/tad_dftd4/model.py:327-331 | the table has one such row per reference of the first element |
| Dispersion.PairTable | src/tad_dftd4/model.py:327-331 | the reference C6 table of a pair is `refn[Z_a]` x `refn[Z_b]` |
| Dispersion.PairTableFits | src/tad_dftd4/model.py:327-332 | weights with at least `mref` rows and one column per atom cover every index the two reference loops read |
| Dispersion.PairRowStep | src/tad_dftd4/model.py:332 | unfolding of the definition of `PairRow`, used as a proof step: one `dc6 +=` adds weight times weight times `refc6` |
| Dispersion.C6Pair | src/tad_dftd4/model.py:326-332 | `dc6` of a pair sums, with `a`'s references outside, the products of both weights and `refc6` |
| Dispersion.C6PairIsGridSum | src/tad_dftd4/model.py:326-332 | `dc6` is the double sum of the reference terms over both atoms' references |
| Dispersion.RefC6Symmetric | src/tad_dftd4/model.py:329-331 | the reference C6 does not depend on which reference comes first |
| Dispersion.PairTableTransposed | src/tad_dftd4/model.py:327-331 | the table of `(b, a)` is the transpose of that of `(a, b)` |
| Dispersion.C6PairSymmetric | src/tad_dftd4/model.py:334-335 | the coefficient of `(a, b)` equals that of `(b, a)` |
| Dispersion.C6PairWithoutReferences | src/tad_dftd4/model.py:327-328 | an atom whose element has no reference has coefficient 0 with every atom |
| Dispersion.RefC6Nonnegative | src/tad_dftd4/model.py:329-331 | a reference C6 is non-negative |
| Dispersion.C6PairNonnegative | src/tad_dftd4/model.py:326-332 | with non-negative weights every coefficient is non-negative |
| Dispersion.ReadSlice | src/tad_dftd4/model.py:330 | reads `alpha[i, start : start + 23]` |
| Dispersion.RowSliceIsAlphaSlice | src/tad_dftd4/model.py:330 | the 23 entries of reference `r` in a filled `alpha` are that reference's samples |
| Dispersion.ReferenceC6 | src/tad_dftd4/model.py:329-331 | `THOPI * trapzd(...)` on the two slices is the reference C6 |
| Dispersion.AccumulateRow | src/tad_dftd4/model.py:328-332 | the `jref` loop adds row `iref` of the double sum |
| Dispersion.PairC6 | src/tad_dftd4/model.py:326-332 | the two reference loops compute the pair's coefficient |
| Dispersion.WriteC6 | src/tad_dftd4/model.py:334-335 | both `c6[iat, jat]` and `c6[jat, iat]` receive the pair's coefficient |
| Dispersion.FillC6Row | src/tad_dftd4/model.py:323-335 | the `jat` loop completes atom `iat`'s row and column |
| Dispersion.GetAtomicC6 | src/tad_dftd4/model.py:312-337 | raises for no atoms; otherwise `c6[a, b]` is the pair's coefficient for every pair, diagonal included, and `c6` is symmetric |
| Dispersion.GetAtomicC6AsWritten | src/tad_dftd4/model.py:297-331 | the written routine raises for no atoms; otherwise it raises the `TypeError` of `zeta` exactly when some reference has a non-positive `refsq`, then the index error when some atom has a reference, and returns the zero matrix only when no atom has one |
| Dispersion.GetAtomicC6AsWrittenFailsOnHydrogen | src/tad_dftd4/model.py:297-331 | a single hydrogen atom, which has two references, makes the written routine raise, with the index error when both `refsq` are positive |
| Dispersion.GetAtomicC6AsWrittenFails | src/tad_dftd4/model.py:297-331 | with the model's own `refn` the written routine raises for any molecule with a real element, with the index error unless `zeta` raised first |
| Dispersion.WeightsFitC6 | src/tad_dftd4/model.py:312 | the weights `weight_references` returns have the shape `get_atomic_c6` needs |
| Dispersion.C6OfWeightsNonnegative | src/tad_dftd4/model.py:312-337 | the coefficients from the returned weights are non-negative for every pair |
| Outcome.FirstErrorMeaning | src/tad_dftd4/model.py:231 | a loop raises nothing exactly when no round raises, and otherwise raises the earliest round's exception |
| Outcome.FirstErrorSticks | src/tad_dftd4/model.py:231 | once a round has raised, later rounds change nothing |
| Outcome.FirstErrorUnique | src/tad_dftd4/model.py:231 | an outcome that is the earliest round's exception, or none when no round raises, is the one the loop raises |

## Left out

- The `print` diagnostics (lines 184-208, 225-227, 266-268) have no effect on any value. The `return gwvec` on line 271 is unreachable.
- Loading `params.npz` at import time (line 9) and the numpy-to-torch conversion in `load_from_npz` (line 42) are file I/O and library code. The tables are a `RefTables` parameter, and `LoadFromNpz` models only the key lookup.
- The per-element constants `data.zeff` and `data.gam` are not part of this model. They are fields of `RefTables`.
- Floating point is not modelled: dtype, precision, device, `float(...)` conversions, rounding, underflow and reduction order. In particular `exp(-k wf dcn^2)` can underflow to 0 for a large CN difference (in `float32` with `wf = 6` already near `dcn = 4.2`), which gives a zero norm and the 0/0 weights that `Weighting.WeightsSucceed` rules out in exact arithmetic.
  - `torch.isnan(norm) | norm > finfo.max` is the boolean input `exceptional`, one per atom, not a value computed from the norm.
  - In the loop path an exceptional atom's NaN test fires for every one of its references, as it does for a zero norm.
- `torch.exp` and `torch.pow` are uninterpreted functions that satisfy `Sound`.
- Keys.Lower: lower-cases only the ASCII letters A-Z. Python's `str.lower` also maps other Unicode capitals; the archive's key names are ASCII.
- Tables.ValidNumbers: requires atomic numbers in 0..86. The source indexes `refn` and the other tables with `numbers`, so a negative number wraps around (`-1` selects element 86) and a number of 87 or more raises an `IndexError`; neither is modelled.
- Autograd, gradients and Hessians are not modelled, nor is the `D4Model` constructor's device and dtype handling.
- Dispersion.GetAtomicC6: a `gwvec` of fewer than `mref` rows or with fewer columns than atoms raises an `IndexError` in the source, and extra columns are accepted and never read. `Dispersion.GetAtomicC6` instead requires `WeightShape`: at least `mref` rows, each with exactly one entry per atom. The weights `weight_references` returns always meet it (`Dispersion.WeightsFitC6`).
- Weighting.Weights: computes the corrected `zeta` (see Findings). A non-positive effective charge `q + zeff` in the discarded loop therefore yields `exp(ga)`. The `TypeError` the written code raises there is modelled by `Weighting.WeightsAsWritten`. `Weights` also scales each weight by its own entry of the `zeta2` matrix, not by the last loop `zeta` that rebinds `z` at line 263 and is used at line 270 (see Findings); `Weighting.WeightsAsWritten` models that rebinding.
- Weighting.WeightReferences: returns only the vectorised weights, which the source returns. The `gwks` and `gwvec` tables of the loop are specified by `LoopPath.WeightReferencesLoop` and then dropped.
- Polarizability.SetRefAlpha: computes the corrected `zeta`. A reference whose `refsq` is not positive gets the ceiling `exp(ga)` instead of the written code's `TypeError`, which `Polarizability.AlphaAsWrittenRaises` and `Dispersion.GetAtomicC6AsWritten` model.
- Dispersion.GetAtomicC6: models the intended 23-sample slices of `alpha`, not the 0-dimensional entries the source passes to `trapzd` (see Findings).

## Findings

| source | as written | input that shows it | evidently intended | confidence | as-written member | corrected member |
|---|---|---|---|---|---|---|
| src/tad_dftd4/model.py:100-102 | `zeta` returns `torch.exp(a)` for `qmod <= 0`, where `a` is the Python float `ga`; `torch.exp` accepts only tensors and raises `TypeError` | `zeta(3.0, 2.0, 1.0, torch.tensor(0.0))`, for example an atom whose charge `q` equals `-zeff` | the ceiling `exp(a)`, as `zeta2` computes it with `new_tensor(scale)` | not executed | ChargeScaling.ZetaAsWrittenRaises | ChargeScaling.ZetaIgnoresReferenceBelowZero |
| src/tad_dftd4/model.py:263-270 | the loop variable `z = zeta(...)` rebinds the name of the charge-scaling matrix, so `(f * z).mT` scales every weight by the last reference's `zeta` of the last atom | two atoms with different charges, e.g. `q = [0.5, -0.5]`, so the first atom's own scaling differs from the last loop `zeta` | each weight scaled by its own entry of the `zeta2` matrix | not executed | Weighting.WeightsAsWrittenDiffers | Weighting.WeightsEntry |
| src/tad_dftd4/model.py:329-331 | `trapzd(alpha[iat][23 * iref], alpha[jat][23 * jref])` passes single 0-dimensional entries, and `trapzd` indexes them with `[w]` and raises `IndexError` | one hydrogen atom, `numbers = [1]`, whose two references have a positive `refsq` | the 23 samples `alpha[iat][23 * iref : 23 * iref + 23]` of the reference | not executed | Dispersion.GetAtomicC6AsWrittenFailsOnHydrogen | Dispersion.GetAtomicC6 |
