# Vehicle ramp simulation, function finder and data comparison, in Dafny

This project models the computational core of a set of Python tools. The tools simulate a small vehicle rolling down a curved ramp and then along flat ground, and compare the result with measured data.

- **PhysicsSimulation.py**, `simulation()`:
  - The ramp loop integrates segment by segment.
  - The ground phase is a forward Euler loop under the drag force `-k v`.
  - The two runs are joined into one time line, the energies are computed along it, and the experimental samples are filtered up to the end time.
  - `createPlot` computes the y-axis limits.
- **FunctionFinder1155.py**:
  - The two-point coordinate converter, an affine map `z |-> z1 z + z2` of the complex plane, and the pair of converters built from the reference points.
  - The strings `polynomialBuilder` generates.
  - The data preparation of `curve_fitting`: sorting, default interval, and clamping for the exponential fit.
  - The fitting gate and the 21-character line wrapping of `updateFunction`.
  - The mouse clicks: moving a reference point with rollback and the rounded refresh of every point's user coordinates, adding a point, removing a point, each with the failure of the refit that follows.
- **DataComparison.py**:
  - The colour pool and the parallel lists of loaded files, labels and remove buttons, changed by `addFile`, `removeFile`, `removeAllFiles` and the start-up loop.
  - The series gathering of `plotMovement` and its symmetric y limits.
- **FrictionCoefficientsFinder.py** and **kRampe_calculator.py**:
  - `find_k`, the first-crossing search for the ramp friction coefficient.
  - The closed-form ground coefficient.
  - The structural skeleton of their ramp `simulation`.

## How the model is built

**Floats.** Python floats are Dafny `real`s, so rounding is not modelled. numpy's elementwise functions (`sqrt`, `sin`, `cos`, `arctan`, `exp` for the profile, `log`) are uninterpreted functions, gathered in the `Ramp.Numpy` datatype. numpy's float division is also uninterpreted (`Numpy.div`), because it returns inf or nan instead of raising. The only facts the proofs use are `sin(0) = 0` and `cos(0) = 1` (`Ramp.Sane`).

**Errors.** A Python exception the source does not catch becomes an `Option` result, or a `ZeroDivision` or `Exhausted` outcome: `None` where Python raises.

**Array lengths.** The lengths of `np.arange` grids are parameters (`n`, `rampCount`, `groundCount`), since they depend on float rounding.

**Shared code.**
- The ramp loop is the same code in three files (PhysicsSimulation.py:24-51, FrictionCoefficientsFinder.py:22-50, kRampe_calculator.py:5-35). It is modelled once, in module `Ramp`.
- `find_k` is the same code in both friction files. It is modelled once, in `Friction.FindK`.
- kRampe_calculator.py annotates `find_k` with `-> float` but returns the tuple `(k, k_pente)`. The model follows the code and returns both coefficients.

**Where the code is kept imperative.**
- The loops of the source are methods with loop invariants:
  - `Ramp.Simulate`;
  - `PhysicsSimulation.Ground`;
  - `FunctionFinder.ClampNonPositive` and `FunctionFinder.WrapLines`;
  - `FinderSession.Replay` and `FinderSession.Session.RefreshUserPoints`;
  - `DataComparison.LoadSaved`, `DataComparison.Replace`, `DataComparison.ReadColumns` and `DataComparison.GatherSeries`;
  - `Friction.FindK`.
  Each is proved equal to a specification function, and the properties are proved about that function.
- Two sets of module globals the source updates in place are classes with `modifies` frames:
  - `DataComparison.Comparison`: the file list, tables, colours, labels and buttons;
  - `FinderSession.Session`: the reference points, converters and placed points.
- The preallocated numpy arrays that are filled index by index, once per index in increasing order, are built by appending one sample per pass. The array that `curve_fitting` clamps in place is a Dafny `array`.

## Model

| member | source | states |
|---|---|---|
| Ramp.ProfileX | FrictionCoefficientsFinder.py:22 | `np.arange(-w, 0, step)` with `n` samples: sample `i` is `-w + i * step`. |
| Ramp.ProfileY | FrictionCoefficientsFinder.py:23 | Each ramp height is `h * e^(-3.5 x / w - 3.5)` of the sample at the same index. |
| Ramp.States | FrictionCoefficientsFinder.py:29-49 | The run of the ramp loop has one carried state (`vf`, `angle`, `aPente[i]`, `tPente[i]`) per sample. |
| Ramp.StatesNext | FrictionCoefficientsFinder.py:33-49 | One more sample is exactly one more segment solved from the state of the previous sample. |
| Ramp.Accels | FrictionCoefficientsFinder.py:37 | `aPente[j]` is the acceleration carried at sample `j`. |
| Ramp.Times | FrictionCoefficientsFinder.py:43 | `tPente[j]` is the time carried at sample `j`. |
| Ramp.Vxs | FrictionCoefficientsFinder.py:48 | `vxPente[j]` is `vf cos(angle)` of sample `j`; sample 0 keeps the 0 of `zeros_like`. |
| Ramp.Vys | FrictionCoefficientsFinder.py:49 | `vyPente[j]` is `-vf sin(angle)` of sample `j`; sample 0 keeps 0. |
| Ramp.ColumnsAppend | FrictionCoefficientsFinder.py:37-49 | Each pass of the loop adds one entry at the end of each of the four arrays. |
| Ramp.TimeRecurrence | FrictionCoefficientsFinder.py:29-43 | `aPente[0] == g`, `tPente[0] == 0`, and `tPente[i] == tPente[i-1] + dt`, where `dt` is solved with `aPente[i]` and the speed carried from sample `i-1` (identical at kRampe_calculator.py:14-28). |
| Ramp.ExitIsHorizontal | FrictionCoefficientsFinder.py:45-50 | The angle after the last sample is forced to 0. So the returned `vxPente[-1]` equals the final `vf`, and `vyPente[-1]` is 0 (identical at kRampe_calculator.py:30-35). |
| Ramp.Simulate | FrictionCoefficientsFinder.py:29-49 | The loop that carries `vf` and `angle` fills `aPente`, `tPente`, `vxPente` and `vyPente` with exactly the columns of the specified run. |
| Ramp.RampOf | FrictionCoefficientsFinder.py:22-27 | The ramp built from `(kp, m, h, w, g, step)` has `n` samples on the `arange` grid and carries `kp`, `m` and `g`. |
| Ramp.RampExitSpeed | FrictionCoefficientsFinder.py:6-50 | `simulation` fails exactly when there are fewer than two samples (IndexError) or `m == 0` (ZeroDivisionError on the first pass). Otherwise it returns the exit speed, which is the final `vf`. |
| PhysicsSimulation.GroundPositions | PhysicsSimulation.py:55-71 | `x[i]` is the position after `i` Euler steps from 0. |
| PhysicsSimulation.GroundSpeeds | PhysicsSimulation.py:56-70 | `v[i]` is the speed after `i` Euler steps from `v[0]`. |
| PhysicsSimulation.GroundAccels | PhysicsSimulation.py:57-68 | `a[i] == -k v[i] / m` for `i < n-1`, and `a[n-1]` keeps its 0. |
| PhysicsSimulation.EulerLawsExactly | PhysicsSimulation.py:57-71 | The three arrays satisfy the loop's laws exactly when they are the ground columns. The laws are: `x[0] == 0`, `v[0] == v0`, `a[i] == -k v[i] / m`, `v[i+1] == v[i] + a[i] step` and `x[i+1] == x[i] + v[i] step` (old speed), with `a[n-1] == 0`. |
| PhysicsSimulation.EulerLawsSolution | PhysicsSimulation.py:61-71 | Arrays obeying the Euler laws hold the iterated positions and speeds at every index. |
| PhysicsSimulation.GroundColumnsNext | PhysicsSimulation.py:63-71 | One pass of the ground loop appends one Euler step to `x` and `v` and one drag acceleration to `a`. |
| PhysicsSimulation.Ground | PhysicsSimulation.py:54-71 | The ground loop fills `x`, `v` and `a` with exactly the ground columns, from `x[0] = 0` and `v[0]` the given exit speed. |
| PhysicsSimulation.NoDrag | PhysicsSimulation.py:67-71 | With `k == 0` every ground speed is `v[0]`, and `x[i] == i * step * v[0]`. |
| PhysicsSimulation.DragStep | PhysicsSimulation.py:67-70 | One Euler step multiplies the speed by `1 - k step / m`. |
| PhysicsSimulation.SpeedStep | PhysicsSimulation.py:70 | Consecutive ground speeds differ by the factor `1 - k step / m`. |
| PhysicsSimulation.GeometricDecay | PhysicsSimulation.py:67-70 | The ground speeds are the geometric sequence `v0 (1 - k step / m)^i`. |
| PhysicsSimulation.Slows | PhysicsSimulation.py:67-71 | If `v[0] >= 0`, `k >= 0`, `m > 0` and `k step <= m`, the speed stays non-negative and never increases, and the position never decreases. |
| PhysicsSimulation.Shifted | PhysicsSimulation.py:74 | `-tPente[-1] + tPente` ends exactly at 0 and keeps every interval between ramp samples. |
| PhysicsSimulation.GroundTimes | PhysicsSimulation.py:54 | `np.arange(0, end, step)` starts at 0, and consecutive times are `step` apart. |
| PhysicsSimulation.Magnitudes | PhysicsSimulation.py:77 | The ramp speed at each sample is `sqrt(vx^2 + vy^2)` of that sample. |
| PhysicsSimulation.PotentialEnergy | PhysicsSimulation.py:81 | `e_pot[i] == m g y[i]` at every sample. |
| PhysicsSimulation.KineticEnergy | PhysicsSimulation.py:82 | `e_cin[i] == m v[i]^2 / 2` at every sample. |
| PhysicsSimulation.Sum | PhysicsSimulation.py:83 | `e_tot[i] == e_pot[i] + e_cin[i]` at every sample. |
| PhysicsSimulation.KeptIndices | PhysicsSimulation.py:87 | The kept indices are increasing. Each index is kept exactly when its sample has `tExp[i] <= Fin`. |
| PhysicsSimulation.KeepPicksKeptIndices | PhysicsSimulation.py:87-91 | Each comprehension keeps its list's entries at the kept indices, in order, whatever the list holds. |
| PhysicsSimulation.KeepUntilRows | PhysicsSimulation.py:87-91 | The five filtered lists have equal lengths and stay index-aligned. Row `j` is the original row at the `j`-th kept index, taken no later than `Fin`. |
| PhysicsSimulation.SlopeOf | PhysicsSimulation.py:20-28 | The ramp built from the settings has `rampCount` samples and runs exactly when `rampCount >= 2` and `m != 0`. |
| PhysicsSimulation.RampSeries | PhysicsSimulation.py:74-78 | The ramp's series are equal-length, one entry per ramp sample, and the shifted time ends at 0. |
| PhysicsSimulation.GroundSeries | PhysicsSimulation.py:54-62 | The ground's series start at time 0, position 0 and the given speed, and the height is 0 throughout. |
| PhysicsSimulation.ConcatenateLayout | PhysicsSimulation.py:74-83 | Each joined series has `len(ramp) + len(ground)` entries, the ramp's first. Pointwise, `e_pot == m g y`, `e_cin == m v^2 / 2` and `e_tot == e_pot + e_cin`. |
| PhysicsSimulation.ConcatenateJunction | PhysicsSimulation.py:74-83 | Where a ramp ending at time 0 meets a ground at height 0: the joined time line reads 0 at both sides of the junction, and on the ground the potential energy is 0 and the total energy is kinetic. |
| PhysicsSimulation.Simulation | PhysicsSimulation.py:16-91 | `simulation()` fails exactly when the ramp has fewer than two samples, `m == 0`, or the ground grid is empty. Otherwise it leaves the joined run: the ramp loop, then the ground loop from the ramp's `vxPente[-1]`, then the concatenation, the energies and the filter. |
| PhysicsSimulation.Junction | PhysicsSimulation.py:54-83 | In the result of `simulation()`: the time line reads 0 at the last ramp sample and at the first ground sample, the ground starts at the ramp's exit speed, and on the ground all the energy is kinetic. |
| PlotLimits.Max | PhysicsSimulation.py:116 | `np.amax` of a non-empty array is one of its values and bounds all of them. |
| PlotLimits.Min | PhysicsSimulation.py:117 | `np.amin` of a non-empty array is one of its values and is below all of them. |
| PlotLimits.Maxima | PhysicsSimulation.py:116 | The inner comprehension lists the maximum of each array. |
| PlotLimits.Minima | PhysicsSimulation.py:117 | The inner comprehension lists the minimum of each array. |
| PlotLimits.Extremes | PhysicsSimulation.py:116-117 | The maximum of the maxima and the minimum of the minima are plotted values, and every plotted value lies between them. |
| PlotLimits.YLimits | PhysicsSimulation.py:116-123 | `createPlot` computes limits exactly when every array and the list of arrays are non-empty; `np.amax` and `np.amin` raise otherwise. |
| PlotLimits.AsymmetricLimits | PhysicsSimulation.py:116-123 | Without symmetry the limits are the smallest and largest plotted values, each moved out by 5% of the span, and every plotted value lies within them. |
| PlotLimits.SymmetricLimits | PhysicsSimulation.py:118-123 | With symmetry the limits are `±1.1 M`, where `M = max(|max|, |min|)` is the largest magnitude of a plotted value. They are symmetric and hold every plotted value. |
| Complex.Div | FunctionFinder1155.py:55-56 | Python's complex division (Smith's method): the quotient times the divisor is the dividend. |
| Complex.WideQuotient | FunctionFinder1155.py:55-56 | Smith's method when the divisor's real part dominates gives the exact quotient. |
| Complex.TallQuotient | FunctionFinder1155.py:55-56 | Smith's method when the divisor's imaginary part dominates gives the exact quotient. |
| Complex.DivUnique | FunctionFinder1155.py:55-56 | The quotient is the only `q` with `q * y == x`. |
| Complex.Cancel | FunctionFinder1155.py:55-56 | A nonzero factor can be cancelled: there are no zero divisors. |
| Coordinates.NewConverter | FunctionFinder1155.py:42-56 | Construction fails (ZeroDivisionError) exactly when `A1 == B1`. Otherwise `z1 (a1 - b1) == a2 - b2` and `z2 (a1 - b1) == a1 b2 - a2 b1`. |
| Coordinates.MapsReferencePoints | FunctionFinder1155.py:51-69 | A converter built from `(A1, A2, B1, B2)` with `A1 != B1` converts `A1` to `A2` and `B1` to `B2`. |
| Coordinates.AffineImage | FunctionFinder1155.py:55-68 | The image `z1 p + z2` of a reference point is its target. |
| Coordinates.FixesTwoPoints | FunctionFinder1155.py:68 | An affine map fixing two distinct points is the identity. |
| Coordinates.SwappedIsInverse | FunctionFinder1155.py:76-85 | `userToTkinter`, built from the swapped pairs, undoes `tkinterToUser` on every point, when the reference points differ in both systems. |
| Coordinates.RoundTrip | FunctionFinder1155.py:58-69 | A converter that sends the images of two distinct points back to them undoes the other converter everywhere. |
| Coordinates.ComposeAffine | FunctionFinder1155.py:67-68 | Converting twice is the single affine map with the composed coefficients. |
| FinderSession.FirstHit | FunctionFinder1155.py:412-414 | The index found is the first oval holding the click; `None` when no oval holds it. |
| FinderSession.FirstEqual | FunctionFinder1155.py:419-420 | The index found is the first saved click equal to the point; `None` when there is none. |
| FinderSession.RemoveFirst | FunctionFinder1155.py:419-422 | The first saved click equal to the point is deleted; nothing changes when there is none. |
| FinderSession.HitIndexIsSavedIndex | FunctionFinder1155.py:412-422 | When every oval is centred on its saved click, the saved click deleted is the one at the index of the deleted oval. |
| FinderSession.RemoveKeepsAligned | FunctionFinder1155.py:417-421 | Deleting the same index from ovals and saved clicks keeps them aligned. |
| FinderSession.AddThenRemove | FunctionFinder1155.py:402-424 | A point added away from all others, then a remove click at the same place, removes exactly that point from every list. |
| FinderSession.Ovals | FunctionFinder1155.py:467 | The ovals drawn for the saved clicks are each centred on their click. |
| FinderSession.UserPoints | FunctionFinder1155.py:468 | Each point's user coordinates are its click converted with the y axis flipped. |
| FinderSession.Replay | FunctionFinder1155.py:532-537 | The start-up loop draws one oval and computes one pair of user coordinates per saved click, in order. |
| FinderSession.Session.constructor | FunctionFinder1155.py:507-537 | Start-up builds both converters from the saved reference points and replays the saved clicks, so the parallel lists are aligned and the converters in sync. |
| FinderSession.Session.BuildCoordinateConverters | FunctionFinder1155.py:72-85 | Both converters are rebuilt when both constructions succeed. If only the second fails, `tkinterToUser` has already been replaced. Nothing else changes. |
| FinderSession.Round2 | FunctionFinder1155.py:485 | `round(r, 2)` is a multiple of 0.01 within 0.005 of `r`, the even one on a tie. |
| FinderSession.RefreshedRoundsUserPoints | FunctionFinder1155.py:387-390 | For ovals centred on the saved clicks, the refreshed user coordinates are the drawn ones rounded to two decimals, each within 0.005 of it. |
| FinderSession.Session.RefreshUserPoints | FunctionFinder1155.py:389-390 | Calling `updateText` for every point sets each `pointsUserCoordinates[i]` to its oval's centre, y flipped, converted with the current `tkinterToUser` and rounded to two decimals. Nothing else changes. |
| FinderSession.Session.ReferenceClick | FunctionFinder1155.py:382-400 | The clicked reference point moves and keeps its user coordinates. If a converter cannot be built, the old value is restored and the user coordinates are untouched. `userToTkinter` stays as it was. `tkinterToUser` is the new first converter if that one was built, and stays as it was otherwise. Otherwise every point's user coordinates are refreshed from the new converter. If `updateFunction` then raises, only the reference point is restored: the converters stay built from the rejected click. From a synchronised state, building fails exactly when the new pixel equals the other reference pixel, and then nothing changes. |
| FinderSession.Session.AddPointClick | FunctionFinder1155.py:402-409 | The oval, the label and the user coordinates are appended. The click is saved only when `updateFunction` does not raise, so the lists stay aligned exactly then. |
| FinderSession.Session.RemovePointClick | FunctionFinder1155.py:411-424 | Only the first point whose oval holds the click is deleted from all three lists. The first saved click at its centre is deleted only when `updateFunction` does not raise. With no hit nothing changes. The lists stay aligned unless a deletion is followed by a failed fit. |
| FunctionFinder.TermIndices | FunctionFinder1155.py:165-166 | The exponents kept are exactly `0..degree`, or only the even ones without `oddTerms`, in increasing order. |
| FunctionFinder.IndicesFrom | FunctionFinder1155.py:165 | From `i` on, the kept exponents are exactly those up to `degree` that pass the parity filter, in increasing order. |
| FunctionFinder.TermCount | FunctionFinder1155.py:165 | There are at most `degree + 1` terms. |
| FunctionFinder.ParameterNames | FunctionFinder1155.py:165 | The parameter names are `c{i}`, one per kept exponent. |
| FunctionFinder.TermTexts | FunctionFinder1155.py:166 | The terms are `c{i}*x**{i}`, one per kept exponent. |
| FunctionFinder.ParameterIndex | FunctionFinder1155.py:165 | Reading `c{i}` back gives `i`. |
| FunctionFinder.ReadParameterNames | FunctionFinder1155.py:165 | The indices read back from the parameter names are the kept exponents. |
| FunctionFinder.TermTextSplits | FunctionFinder1155.py:166 | A term splits on `*` into `c{i}`, `x`, the empty string and `{i}`. |
| FunctionFinder.ReadTermTexts | FunctionFinder1155.py:166 | The indices read back from the terms are the kept exponents. |
| FunctionFinder.BuilderStringsAgree | FunctionFinder1155.py:165-166 | The `,`-joined parameter string and the `+`-joined expression string name the same exponents, in the same increasing order. |
| FunctionFinder.Insert | FunctionFinder1155.py:106 | Inserting into sorted pairs keeps them sorted and adds exactly the new pair. |
| FunctionFinder.SortPairs | FunctionFinder1155.py:105-106 | `sorted(zip(...))` is sorted in tuple order and is a permutation of the input pairs. |
| FunctionFinder.Xs | FunctionFinder1155.py:107-108 | Unzipping gives the `x` of every pair, in order. |
| FunctionFinder.Ys | FunctionFinder1155.py:107-108 | Unzipping gives the `y` of every pair, in order. |
| FunctionFinder.Zip | FunctionFinder1155.py:105 | Zipping pairs the entries at the same index. |
| FunctionFinder.PrepareFit | FunctionFinder1155.py:101-112 | The data preparation fails (ValueError on unzipping nothing) exactly when there is no point. |
| FunctionFinder.PrepareFitSorted | FunctionFinder1155.py:104-108 | `x_data` comes out ascending, and the `(x, y)` pairs are a permutation of the input points. |
| FunctionFinder.DefaultIntervalCovers | FunctionFinder1155.py:110-112 | A given `interval=` is used unchanged. Otherwise the interval is `x_min - (x_max - x_min) / 20` to `x_max + (x_max - x_min) / 20`, where `x_min` and `x_max` bound every `x`, so it holds every `x`. |
| FunctionFinder.ClampNonPositive | FunctionFinder1155.py:115-117 | Every `y <= 0` becomes 0.001, every other `y` is unchanged, and so all values are positive. |
| FunctionFinder.GateLeavesEnoughPoints | FunctionFinder1155.py:221 | When the gate lets a fit through, there are at least as many points as coefficients to fit. |
| FunctionFinder.WrapLines | FunctionFinder1155.py:230-235 | All lines but the last have exactly 21 characters, and the last has at most 21 (and is non-empty for a non-empty text). Joining the lines with no separator gives back the expression. The text is the lines joined with newlines. |
| FunctionFinder.ConcatAppend | FunctionFinder1155.py:232-233 | Appending a line appends its characters to the concatenation. |
| Strings.IndexOf | DataComparison.py:137 | The index found is the first occurrence of the separator, or the length when there is none. |
| Strings.Split | DataComparison.py:137 | `split` gives at least one part, and no part holds the separator. |
| Strings.JoinSplit | DataComparison.py:137 | Joining the parts of a split with the separator gives back the text. |
| Strings.SplitLast | DataComparison.py:137 | The last part of a split is the suffix after the last separator, or the whole text when it holds none. |
| Strings.SplitJoin | FunctionFinder1155.py:165-166 | Splitting a join on its separator gives the parts back, when no part holds the separator. |
| Strings.IndexOfAfterPrefix | FunctionFinder1155.py:165-166 | After a separator-free part, the first separator is the one the join inserted. |
| Strings.NatToString | FunctionFinder1155.py:165 | `f"{i}"` is a non-empty string of decimal digits. |
| Strings.ParseNatToString | FunctionFinder1155.py:165 | Reading back a printed number gives the number. |
| Lists.RemoveAt | DataComparison.py:151 | `del s[i]` keeps the entries before `i` and moves the later ones down one index. |
| Lists.CountMultiset | DataComparison.py:133-134 | The count of a colour is its multiplicity in the multiset of the list. |
| Lists.CountAppend | DataComparison.py:133 | Counts add up over concatenation. |
| Lists.CountRemoveAt | DataComparison.py:156-157 | Deleting an entry lowers the count of its value by one and leaves the other counts alone. |
| Lists.CountPair | DataComparison.py:217 | A value at two indices counts at least twice. |
| DataComparison.BaseName | DataComparison.py:137 | `file.split("/")[-1]` is the suffix of the path after its last `/`, or the whole path when it has none, and holds no `/`. |
| DataComparison.PaletteOnce | DataComparison.py:217 | The initial colour pool holds each of the five colours once. |
| DataComparison.PartitionMultiset | DataComparison.py:133-134 | The used and free colours split the palette exactly when their multisets add up to the palette's multiset. |
| DataComparison.CountColors | DataComparison.py:217 | The counts of the five colours add up to the length of the list. |
| DataComparison.PartitionBounds | DataComparison.py:130-134 | Under the colour partition, `len(colors) + len(leftColors) == 5`, and no two loaded files share a colour. |
| DataComparison.Replaced | DataComparison.py:158-159 | The labels from `from` on are placed at their own row, and the others are untouched. |
| DataComparison.Rewired | DataComparison.py:160-161 | The buttons from `from` on remove their own index at their own row, and the others are untouched. |
| DataComparison.StartLabels | DataComparison.py:224-225 | Start-up label `i` shows the base name of saved file `i`, in palette colour `i`, at row `i`. |
| DataComparison.StartButtons | DataComparison.py:226-227 | Start-up button `i` removes file `i` at row `i`. |
| DataComparison.StartNext | DataComparison.py:218-227 | One more loaded file appends one label and one button. |
| DataComparison.LoadSaved | DataComparison.py:213-227 | The start-up loop loads the first `min(len(saved), 5)` files, in saved order, with the palette's colours in order. The remaining colours stay free. |
| DataComparison.StartListed | DataComparison.py:213-227 | After start-up the colours split the palette, and every loaded file has its colour, its label and its button at its own row. |
| DataComparison.AddListed | DataComparison.py:130-140 | Taking the first free colour for a new file keeps the colours a split of the palette and the file listed. |
| DataComparison.RemoveListed | DataComparison.py:149-161 | Deleting entry `id`, freeing its colour and moving the later labels and buttons up keeps the colour split and the listing. |
| DataComparison.RemoveNamed | DataComparison.py:149-161 | Saved names and labels deleted at the same index stay matched. |
| DataComparison.Replace | DataComparison.py:158-161 | The relabelling loop places every later label and button at its own row, each button removing its own index. |
| DataComparison.Comparison.StartupAsWritten | DataComparison.py:213-227 | Start-up as written loads at most five files but keeps every saved name. The saved names match the labels exactly when at most five files were saved. |
| DataComparison.Comparison.Startup | DataComparison.py:213-227 | Start-up with the saved names cut to the loaded files: the model is valid and the names aligned. |
| DataComparison.Comparison.AddFile | DataComparison.py:126-141 | A file is added exactly when one was chosen and a colour is free. It takes `leftColors[0]`, which moves to the end of `colors`, and `data`, the saved names, the labels and the buttons each grow by one. Otherwise nothing changes, and validity and alignment are preserved. |
| DataComparison.Comparison.RemoveFile | DataComparison.py:143-162 | Index `id` leaves every list, its colour goes to the end of `leftColors`, and the later labels and buttons move up one row and remove their new index. The model stays valid, and aligned when it was. |
| DataComparison.Comparison.RemoveAllFiles | DataComparison.py:164-178 | Every list is emptied, and `leftColors` is the palette in its original order. |
| DataComparison.MisalignedRemoval | DataComparison.py:149 | With six saved files: after removing the first, adding `g` and pressing `g`'s button, `g` is still saved while the never-loaded `f` is gone. |
| DataComparison.Enabled | DataComparison.py:66-67 | The enabled options are listed by index, each one enabled. |
| DataComparison.EnabledExactly | DataComparison.py:66-67 | Each enabled option is listed once, in the order x, y, v, a. |
| DataComparison.Column | DataComparison.py:72-74 | Entry `j` is column `c` of table `j`. |
| DataComparison.Gathered | DataComparison.py:66-74 | There is one series group per enabled option. |
| DataComparison.ReadableNext | DataComparison.py:66-74 | Options up to `i` can be read exactly when those before `i` can and, if `i` is enabled, every table has column `i + 1`. |
| DataComparison.GatheredNext | DataComparison.py:66-74 | Each option adds its group after those of the options before it, if it is enabled. |
| DataComparison.ReadColumns | DataComparison.py:72-74 | The inner loop succeeds exactly when every table has column `i + 1`, and then collects column 0 and column `i + 1` of every table. |
| DataComparison.GatherSeries | DataComparison.py:66-74 | The outer loop fails (IndexError) exactly when some table lacks an enabled column, and otherwise gathers the groups in option order. |
| DataComparison.Subplots | DataComparison.py:77-81 | Subplot `g` is at position `g + 1` of `len(x)` rows and draws group `g` in the file colours, with its symmetric limits. |
| DataComparison.Figure | DataComparison.py:49-85 | `plotMovement` fails exactly when a table lacks an enabled column, and draws nothing when no table is loaded. |
| DataComparison.PlotMovement | DataComparison.py:49-85 | `plotMovement` gathers the groups, then makes one subplot per group when a table is loaded. |
| DataComparison.FigureSubplots | DataComparison.py:34-81 | Subplot `g` belongs to the `g`-th enabled option, with its legend and y label, and draws column 0 against that option's column for every table. Its limits exist when the values can be plotted; they are symmetric about 0 and hold every value. |
| Friction.FinderRamp | FrictionCoefficientsFinder.py:65-73 | `find_k`'s ramp for a trial `kp` uses `m = 0.382`, `h = 1`, `l = 0.5`, `g = 9.81`, `stepPente = 0.001`, and it runs. |
| Friction.Simulation | FrictionCoefficientsFinder.py:73 | The search's test reads the ramp's exit speed for each trial coefficient. |
| Friction.MultipleIsProduct | FrictionCoefficientsFinder.py:72-74 | Starting at 0 and adding `step` per pass, trial `j` is exactly `j * step`. |
| Friction.FirstCrossing | FrictionCoefficientsFinder.py:72-74 | The trial found has exit speed `<= vi`, and every earlier trial had exit speed `> vi`. With none found, every trial in budget was `> vi`. |
| Friction.GroundCoefficient | FrictionCoefficientsFinder.py:76 | The ground formula fails (ZeroDivisionError) exactly when `t == 0` or `vi == 0`. |
| Friction.GroundDecay | FrictionCoefficientsFinder.py:76 | The ground coefficient `k` is the one for which `vi e^(-k t / m) == vt`, wherever `exp` undoes `log`. |
| Friction.FindK | FrictionCoefficientsFinder.py:53-78 | `find_k` returns `(ground, ramp)`. The ramp coefficient is the first crossing trial; it is 0 when `simulation(0) <= vi`, where the loop body never runs. The ground value does not depend on the search. |
| Friction.FindKOnRamp | kRampe_calculator.py:37-51 | The same search over the ramp simulation of the file. |
| Friction.MoreFuel | FrictionCoefficientsFinder.py:72-74 | A crossing found within a budget is the one found with any larger budget. |

## Left out

- Friction.FindK: the source loop has no bound. It runs forever only when no trial's exit speed fails the test `> vi`, for instance when `step <= 0` or `step` is too small to change `k_pente`. The model gives up after `fuel` trials (`Exhausted`). `MoreFuel` shows that any result found is independent of the budget.
- Friction.FindK: for a large trial `kp`, the ramp loop takes `np.sqrt` of a negative number from segment 2 on, which gives nan with a warning rather than an exception. The nan reaches `vxPente[-1]`, `nan > vi` is False, and the source's search stops there, returning a `k_pente` whose exit speed is nan rather than at most `vi`. The model's exit speeds are reals, which have no nan, so a model crossing is always a trial whose exit speed is at most `vi`. With `vi < 0`, for example, the source stops at the first nan trial, while every real exit speed stays above `vi`.
- Ramp.States: its own contract only fixes the number of states. What each state holds is stated by `StatesNext`, `TimeRecurrence` and `ExitIsHorizontal`.
- The numeric content of the ramp loop (`np.sqrt`, `np.sin`, `np.cos`, `np.arctan`, `np.e**`, `np.log`) is left uninterpreted. So is numpy's division, which gives inf or nan instead of raising. Energy conservation and monotonicity in `kp` are not stated.
- IEEE rounding is not modelled: Python floats are reals. The length of each `np.arange` grid is a parameter (500 ramp samples for `find_k`), and `k_pente += step` is exact, so trial `j` is `j * step`.
- Tkinter and Matplotlib are left out: widget placement, canvas drawing, cursors, the toolbar and plot rendering. Labels and buttons are values holding their text, colour, row and command index. Canvas items are their coordinates or opaque numbers.
- File and JSON I/O is left out (`load`, `save`, `np.loadtxt`, file dialogs). A loaded file is given as its table, and the dialog's answer is a parameter (`""` for a cancelled dialog). Opening a saved file that no longer exists raises at start-up; that is not modelled.
- `scipy.optimize.curve_fit`, the `eval` of the generated lambda, image handling, and the rendering of fitted expressions with `round` and superscripts are left out.
- The click handlers take whether `updateFunction` raises as a parameter, `fitFails`. This includes the `np.arange` step of 0 when every point has the same `x` and `maxInterval` is off, and errors from `curve_fit`. Which inputs make it raise is not modelled. The redrawing of the reference markers, the coordinate texts, `save` and the function's lines is left out. `removeAllPoints` and `replot` are not part of this model.
- FinderSession.Session.ReferenceClick and FinderSession.Session.RemovePointClick require the three lists of placed points to have the same length. Every handler changes them together, so they always do.
- FinderSession.Session.constructor requires distinct reference points. At start-up the source does not catch the ZeroDivisionError of equal reference points, and the program stops.
- PhysicsSimulation.Simulation: `settings` and the experimental data are parameters. The module globals it assigns are its result. When the ground grid is empty, the source has already rebound `t`, `x`, `v`, `a` and `y` to empty arrays before the IndexError. The model's `None` does not carry that partial state.
- The module-level `print(find_k(...))` calls are left out.

## Findings

| source | as written | input that shows it | evidently intended | confidence | as-written member | corrected member |
|---|---|---|---|---|---|---|
| DataComparison.py:213-227 | Start-up loads at most five saved files, but `settings["openedFiles"]` keeps every saved name. `removeFile(id)` then deletes `openedFiles[id]` by the index of the loaded file (line 149), so once a file is added after start-up, the saved names and the loaded files refer to different files. | A settings file listing six files `a`..`f` in `openedFiles`, written outside the program (its own handlers never save more than five, since `addFile` needs a free colour). Start, remove `a`, add `g`, remove `g`: `g` stays saved and `f` is dropped. | The saved names are exactly those of the loaded files, so each remove deletes the right name. | not executed | DataComparison.MisalignedRemoval | DataComparison.Comparison.Startup |
