# sowfatools post-processing, modelled in Dafny

sowfatools is a set of Python scripts that post-process the output of SOWFA
(the Simulator for Wind Farm Applications, built on OpenFOAM). The model
covers three kinds of input:

- the precursor (atmospheric boundary layer) averaging files, one folder per
  restart time;
- the per-turbine and per-blade `turbineOutput` time series;
- the `lineSample` files and the stream-tube slices exported from ParaView.

The scripts stitch restarted runs together by dropping overlapping time
rows. They compute running and window averages weighted by the time step,
derived quantities (gradients, Richardson numbers, temperature deviation,
kinetic-energy fluxes, geostrophic wind speed) and the Jensen wake formulas.
They write the result back as gzipped tables under each case's `sowfatools`
directory.

The model works on in-memory values. A table is `seq<seq<real>>`; a
fixed-size numpy buffer that a script fills in place is an `array` or
`array2`. A file name is a `string`, and a directory is a map from names to
tables. A Python exception is `Err(kind)` of a `Result`, with the exception
class as its kind. Every script becomes a module:

| module | file | what it models |
|---|---|---|
| `Common`, `Strings`, `Tables`, `Sorting` | `common.dfy`, `strings.dfy`, `tables.dfy`, `sorting.dfy` | the library the scripts lean on: exceptions, `str.split`/`join`/number parsing, numpy column selection, `argmin`, weighted means, `sorted`/`set` |
| `Utils` | `utils.dfy` | `remove_overlaps`, `calculate_moving_average`, `check_tolerance`, `get_time_idx`, `parse_turbineOutput_files` |
| `Stacking`, `HeightHeaders`, `AveragingFiles` | `stacking.dfy`, `height_headers.dfy`, `averaging_files.dfy` | what several precursor scripts share: the folder stack, height headers, the averaging directory and window profiles |
| `PrecursorAveraging` | `precursor_averaging.dfy` | `precursorAveraging.py` |
| `PrecursorTools` | `precursor_tools.dfy` | `precursorAveraging` and `precursoraveragingreduce` in `sowfatools/precursortools.py` |
| `PrecursorAveragingReduce` | `precursor_averaging_reduce.dfy` | `precursorAveragingReduce.py` |
| `PrecursorAveragingProfile` | `precursor_averaging_profile.dfy` | `precursorAveragingProfile.py` |
| `PrecursorProfile` | `precursor_profile.dfy` | `precursorProfile.py` |
| `PrecursorTdeviation` | `precursor_tdeviation.dfy` | `sowfatools/precursortools/precursorTdeviation.py` |
| `PrecursorStability` | `precursor_stability.dfy` | the gradient and flux Richardson numbers of `precursorStability.py` |
| `GeostrophicWind` | `geostrophic_wind.dfy` | `geostrophicWind.py` |
| `TurbineOutput` | `turbine_output.dfy` | `turbineOutput.py` |
| `TurbineOutputAverage` | `turbine_output_average.dfy` | `turbineOutputAverage.py` |
| `LineSample` | `turbine_line_sample.dfy` | `turbineLineSample.py` |
| `LineSampleFluxes` | `line_sample_fluxes.dfy` | `turbineLineSampleFluxes.py` |
| `StreamTubeMesh` | `stream_tube_mesh.dfy` | the vertex reordering and edge list of `turbineStreamTubeSliceMesh.py` |
| `StreamTubeCompile` | `stream_tube_compile.dfy` | `turbineStreamTubeSliceCompile.py` |
| `WakeTools` | `wake_tools.dfy` | `jensen_velocity` and `jensen_wake_width` of `waketools.py` |

Some scripts work by changing things step by step: the overlap removal, the
token-merging loop, the in-place column averaging, the polygon reordering,
the counter-driven row writes and the per-case accumulation. Each of them is
a `method` with its loop. The method is proved equal to a function that
states the result. The properties are then proved about that function, as
lemmas or as its own `ensures`.

Where a script goes wrong, the model keeps the code's behaviour. The
"## Findings" section lists each such case. It names a lemma that exhibits
the behaviour and a corrected definition with the intended property proved.

One place where the description of a script and its code disagree follows
the code. In `precursorProfile.py` offset mode is entered with `starttime`
set to None. With exactly one window, line 105 skips the assignment, so
`starttime` stays None. The window selection at line 109 then subtracts
`None`, which raises TypeError. The model
(`PrecursorProfile.ProfilePlan`, `PrecursorProfile.SingleOffsetWindowFails`)
raises TypeError there rather than taking the start-time branch of the file
name.

## Model

| member | source | states |
|---|---|---|
| Tables.Column | utils.py:239 | `t[:, c]` has one entry per row of the table |
| Tables.ColumnAt | utils.py:239 | entry `r` of `t[:, c]` is row `r`'s entry `c` |
| Tables.DropColumns | turbineOutput.py:153 | `t[:, k:]` keeps the row count and leaves each row without its first `k` entries |
| Tables.RowsWhere | turbineOutput.py:145 | the boolean-mask filter keeps only rows whose column `c` equals `v`, never more rows than it was given, and keeps every width |
| Tables.RowsWhereFrom | turbineOutput.py:145 | every row the mask keeps is a row of the input |
| Tables.RowsWhereHas | turbineOutput.py:145 | every input row whose column `c` holds `v` is kept |
| Tables.Nearest | utils.py:239 | `np.argmin(np.abs(xs - x))` is an index whose entry is nearest to `x`, and no earlier entry is as near |
| Tables.ArgmaxAbs | sowfatools/precursortools/precursorTdeviation.py:63 | `np.argmax(np.abs(xs))` is an index of largest magnitude, and every earlier entry is strictly smaller in magnitude |
| Tables.Argmin | turbineStreamTubeSliceMesh.py:61 | `np.argmin(xs)` is an index of a smallest entry, and every earlier entry is strictly larger |
| Tables.MaxValue | sowfatools/precursortools/precursorTdeviation.py:84 | `np.max(xs)` is an entry of `xs` and bounds every entry from above |
| Tables.WeightedMean | precursorAveragingProfile.py:78 | `np.average(xs, weights=ws)` fails exactly when the weights sum to zero; otherwise the mean times the weight sum is the weighted sum |
| Tables.DotConstantWeight | utils.py:161-167 | with every weight equal to `c`, the weighted sum is `c` times the plain sum and the weight sum is `c` times the count |
| Tables.DotBounds | precursorAveragingProfile.py:78 | with positive weights, a weighted sum of values in `[lo, hi]` lies between `lo` and `hi` times the weight sum |
| Tables.Stride | precursorAveragingReduce.py:53 | `s[::step]` fails exactly for a zero step; otherwise it has `ceil(n / abs(step))` entries, each taken from the input at the visited index |
| Tables.Trunc | sowfatools/precursortools.py:70 | Python's `int(x)` truncates toward zero: the magnitude is dropped by less than one and the sign is kept |
| Tables.TruncMonotone | sowfatools/precursortools.py:70 | truncation toward zero never reverses the order of two values |
| Tables.FloorDiv | precursorAveragingProfile.py:63-64 | Python's float `x // d` for a positive `d` is the integer `q` with `q * d <= x < (q + 1) * d` |
| Tables.Mod | precursorProfile.py:77 | Python's float `x % d` for a positive `d` lies in `[0, d)` and completes `x == (x // d) * d + x % d` |
| Tables.SelectColumns | precursorAveragingReduce.py:53 | fancy column indexing `t[:, idx]` succeeds exactly when every listed column exists in every row, and then gives the listed columns of every row, in the listed order |
| Tables.AppendColumn | geostrophicWind.py:65 | `np.column_stack((t, col))` appends `col[r]` to row `r` and keeps the row count |
| Tables.EvenFrom2 | precursorAveragingProfile.py:76 | `row[2::2]` holds columns 2, 4, 6 and so on, `(n - 1) / 2` of them for a row of `n > 2` entries |
| Tables.SetColumn | turbineOutputAverage.py:75 | `a[:, k] = col` replaces column `k` by `col` and leaves every other entry of the array unchanged |
| Sorting.SortedUnique | utils.py:226-228 | `np.unique` returns the distinct elements of its input, strictly ascending |
| Sorting.StrictlySortedDistinct | utils.py:226-228 | an `np.unique` result holds no element twice |
| Sorting.SortByKey | turbineStreamTubeSliceMesh.py:40 | `list.sort(key=...)` returns a permutation of its input, non-decreasing in the key |
| Sorting.InsertByKeyPosition | turbineStreamTubeSliceMesh.py:40 | each insertion puts an element after every earlier one whose key is not greater and before the first whose key is, so `sort` is stable |
| Sorting.RealLessIsStrictTotalOrder | turbineOutput.py:70-71 | `<` on floats is a strict total order, so `np.unique` on a numeric column is well defined |
| Strings.RemovePrefix | precursorStability.py:71 | `removeprefix(p)` drops `p` exactly when the text starts with it, and otherwise returns the text unchanged |
| Strings.RemoveSuffix | turbineLineSample.py:71-73 | `removesuffix(p)` drops `p` exactly when the text ends with it, and otherwise returns the text unchanged |
| Strings.ReplaceAbsent | utils.py:216-217 | replacing a pattern that does not occur leaves the text unchanged |
| Strings.ReplaceCharRemovesIt | geostrophicWind.py:37 | replacing every copy of a character by text without that character leaves none of it |
| Strings.DeleteCharKeepsOthers | geostrophicWind.py:37 | deleting a character keeps every other character, in order |
| Strings.Split | utils.py:219 | `split(sep)` with a non-empty separator returns at least one field |
| Strings.JoinSplit | utils.py:219 | `sep.join(s.split(sep)) == s` |
| Strings.SplitOfJoin | turbineLineSample.py:76 | splitting fields that hold no separator, once joined by it, gives the fields back |
| Strings.LastFieldAfter | precursorAveragingProfile.py:43 | `(a + sep + b).split(sep)[-1] == b` whenever `b` holds no separator, whatever `a` holds |
| Strings.Words | precursorProfile.py:70 | every word of `split()` without arguments is non-empty and holds no character of `str.isspace()` (the ASCII whitespace, `\x1c`-`\x1f`, `\x85`, `\xa0` and the Unicode space separators); `Strings.WordsJoin` gives the round trip |
| Strings.WordsJoin | precursorStability.py:106 | words joined by single spaces split back into the same words |
| Strings.NatToString | turbineOutput.py:80 | `str(n)` of a non-negative integer is a non-empty string of decimal digits |
| Strings.IntToString | turbineOutput.py:80 | `str(i)` is never empty; `Strings.ParseIntToString` shows `int` reads it back |
| Strings.IntToStringChars | sowfatools/precursortools.py:70 | a formatted integer holds only a sign and digits |
| Strings.ParseInt | turbineStreamTubeSliceMesh.py:34 | `int(s)` raises ValueError on the empty string; it accepts an optional sign followed by digits |
| Strings.ParseIntToString | turbineStreamTubeSliceMesh.py:34 | `int(str(i)) == i` for every integer |
| Strings.ParseFloatOfInt | precursorStability.py:72 | `float(str(i)) == i` for every integer |
| Strings.ParseFloat | precursorStability.py:72 | `float(s)` never reads the empty text, and the value is not positive after a `-` and not negative otherwise |
| Strings.ExponentNotation | precursorStability.py:72 | `float("{m}e{x}")` is the decimal mantissa times ten to the integer exponent |
| Strings.LastSeparatorUnique | precursorAveraging.py:85-86 | text ending in a separator and a separator-free field splits there in one way only, so `{p}_{int(h)}` determines both `p` and `int(h)` |
| Strings.LessIsStrictTotalOrder | utils.py:226-228 | code-point order on names is a strict total order, so `np.unique` on names is well defined |
| Strings.UniqueNames | utils.py:226 | `np.unique` on names gives the distinct names, strictly ascending |
| Strings.PathStem | utils.py:214 | `Path(name).stem` is a prefix of the name |
| Strings.PathStemOfSuffixed | turbineLineSampleFluxes.py:67 | a stem followed by a dot and an extension without dots has that stem |
| Strings.PathStemNoDot | utils.py:214 | a name without a dot is its own stem |
| Utils.FirstDrop | utils.py:133-136 | a `for` pass from `k` stops at the first row whose key does not exceed the previous row's key, and every row it passes increases |
| Utils.LeastAtOrAboveFrom | utils.py:137-139 | `argmin` of the differences with negatives set to infinity: the first position holding the smallest value at least `x`, or none when every value is below `x` |
| Utils.RestartRow | utils.py:137-141 | the restart row is before row `i`, holds the smallest key at least row `i`'s key and is the first such row, so at least row `i - 1` is deleted |
| Utils.DeleteRows | utils.py:140 | `np.delete(data, arange(j, i))` removes exactly rows `j..i-1` and keeps the others in order |
| Utils.Stitched | utils.py:122-148 | `remove_overlaps` as written: fewer than two rows raise NameError (unbound `i`), a missing key column raises IndexError |
| Utils.RemoveOverlaps | utils.py:130-148 | the while/for loop with in-place deletions returns exactly what the pass-by-pass definition `Stitched` gives |
| Utils.ScanPass | utils.py:133-142 | one `for` pass: the break row is the first non-increasing row, and `i` is that row or the last row |
| Utils.PassAtZero | utils.py:133-139 | a pass that breaks at row 0 (the `data[-1]` wrap-around) takes argmin of an empty slice and raises ValueError |
| Utils.PassBreaks | utils.py:137-145 | a pass breaking at row `i` deletes the restart block, then stops when the stale `i` equals the new last index or resumes at the restart row |
| Utils.StitchFromSubsequence | utils.py:130-148 | the passes leave a verbatim subsequence of the input that keeps its last row |
| Utils.StitchFromPass | utils.py:133-145 | each pass either leaves the table unchanged and done, or deletes at least one row before the next pass |
| Utils.StitchedSubsequence | utils.py:122-148 | the output of `remove_overlaps` is a subsequence of its input, rows copied verbatim, ending with the last input row |
| Utils.StitchedIncreasing | utils.py:133-135 | a table whose keys already strictly increase is returned unchanged |
| Utils.StitchFromAboveFirst | utils.py:133-142 | when no later key is at or below the first key, no pass starts at row 0 and the passes never raise |
| Utils.StitchedAboveFirst | utils.py:122-148 | the same for the whole function: such a table is always stitched without error |
| Utils.StitchedToEnd | utils.py:144-145 | the exit test corrected to stop only after a full scan; same error cases as the original |
| Utils.StitchToEndFromIncreases | utils.py:133-145 | each corrected pass keeps the already scanned prefix increasing, so the final table's keys strictly increase |
| Utils.StitchedToEndIncreases | utils.py:144-145 | with the corrected exit the result is strictly increasing in the key |
| Utils.StitchToEndFromRows | utils.py:133-145 | the corrected passes from a row past the first leave at least two rows |
| Utils.StitchedToEndIncreasing | utils.py:133-135 | with the corrected exit, a table whose keys already strictly increase is returned unchanged |
| Utils.StitchedToEndIdempotent | utils.py:122-148 | with the corrected exit, stitching a stitched table gives it back unchanged |
| Utils.StaleExitCounterexample | utils.py:140-145 | keys 0,1,2,1,3,2 come out as 0,1,3,2 (not increasing) as written, and as 0,1,2 with the corrected exit; applied again, the routine as written turns 0,1,3,2 into 0,1,2, so it is not idempotent |
| Utils.CounterexampleFirstPass | utils.py:137-145 | the first pass on 0,1,2,1,3,2 deletes keys 1,2 and, as written, stops because the stale index equals the new last index |
| Utils.CounterexampleSecondPass | utils.py:133-145 | the corrected loop's second pass on 0,1,3,2 deletes the 3, and so does the first pass of the routine as written on 0,1,3,2 |
| Utils.MovingAverage | utils.py:151-177 | one entry per row; the unweighted entry `i` is the mean of the first `i + 1` values, the weighted one their weighted mean; no rows or a missing column raise IndexError |
| Utils.PlainRunningMeans | utils.py:158-164 | the running-sum loop divided by `1..n` gives the plain running mean at every row |
| Utils.WeightedRunningMeans | utils.py:166-175 | the running sums of value times weight and of weights give the weighted running mean at every row |
| Utils.RunningMeanEqualWeights | utils.py:159-175 | with unit weights the weighted branch agrees with the unweighted branch |
| Utils.RunningWeightedMeanBounds | utils.py:166-175 | with positive weights every running mean lies between any bounds of the values seen so far |
| Utils.StitchedPositive | utils.py:122-148 | stitching keeps a positive column positive, since its rows are input rows |
| Utils.PositiveWeights | utils.py:166-175 | positive weights never give a zero prefix sum, so the weighted branch never divides by zero |
| Utils.RunningWeightedMeanLast | utils.py:175 | the last weighted running mean is `np.average` of the whole column |
| Utils.FinalRunStart | utils.py:186-201 | the reference for one tolerance: None when the data is empty or the last value is outside the band, else the start of the final run inside the band |
| Utils.FinalRunStep | utils.py:189-196 | one more value updates the final-run start exactly as the inner loop's flag and index do |
| Utils.CheckTolerance | utils.py:180-201 | one entry per tolerance, each equal to `FinalRunStart` for that tolerance on its own |
| Utils.ScanTolerance | utils.py:189-196 | the inner loop sets entry `i` to `FinalRunStart`, its flag exactly when the entry is set, and touches no other entry |
| Utils.TimeIndices | utils.py:238-239 | one index per requested time: the first row minimising the time distance; argmin over no rows raises ValueError, a missing column IndexError |
| Utils.StemFields | utils.py:214-222 | the fields joined back with '_' give the stem with 'turbine' (and, for a blade stem, 'blade') deleted; a turbine stem gets an empty last field |
| Utils.Without | utils.py:229 | `blades[blades != '']`: the same names without the removed one |
| Utils.WithoutSorted | utils.py:229 | removing a name keeps the list sorted and duplicate-free |
| Utils.FieldColumn | utils.py:226-228 | `filenames_parsed[:, k]` holds field `k` of every stem |
| Utils.NamesOfFields | utils.py:224-235 | the quantity, turbine and blade lists are strictly sorted and hold exactly the distinct fields 1, 2 and 3 ('' dropped from blades); ragged or short fields raise |
| Utils.ParseTurbineOutputStems | utils.py:204-235 | the loop rewriting each stem into its fields gives `NamesOfFields` of the `StemFields` of every stem |
| Stacking.Stacked | precursorAveraging.py:52-59 | the folder tables stacked in folder order (`np.vstack`): FileNotFoundError exactly when some folder lacks the file, otherwise as many rows as all folders together |
| Stacking.StackedColumns | precursorAveraging.py:56-59 | stacking keeps every column that every folder's table has |
| Stacking.StackedPositive | precursorAveraging.py:56-59 | a column positive in every folder's table stays positive in the stacked table |
| Stacking.StackOnLocals | precursorAveraging.py:52-59 | the `'data' in locals()` loop binds the first table and stacks each later one under it, returning exactly `Stacking.Stacked` |
| Stacking.StackedStitched | precursorAveraging.py:52-63 | a missing file raises FileNotFoundError, a single file read one-dimensional raises IndexError in `remove_overlaps`, and otherwise the result is `remove_overlaps` of the stacked table |
| Stacking.LoneMatrixStitched | precursorAveraging.py:52-63 | a single file of at least two rows and two columns is stitched like any stack |
| Stacking.StackAndStitch | precursorAveraging.py:52-63 | the folder loop followed by `remove_overlaps` is exactly `Stacking.StackedStitched` |
| HeightHeaders.EveryOtherFrom | precursorAveragingProfile.py:41 | `s[start::2]` has `(n - start + 1) / 2` entries, entry `k` being entry `start + 2k` of the input |
| HeightHeaders.ParseHeights | precursorAveragingProfile.py:43 | the integer conversion of the header tokens' last `_` fields raises ValueError exactly when some token's last field is not an integer, and otherwise gives one height per token |
| HeightHeaders.NearestHeights | precursorAveragingReduce.py:43 | one header index per requested height; ValueError exactly when there are no header heights and some are requested |
| HeightHeaders.NearestHeightsArgmin | precursorAveragingReduce.py:43 | the index chosen for each requested height is the first header height nearest to it |
| HeightHeaders.NearestHeightExact | precursorAveragingReduce.py:43 | a requested height present in the header selects its first occurrence |
| HeightHeaders.ReducedHeader | precursorAveragingReduce.py:61 | the reduced header splits into `time` followed by one `{h}m` label per kept height |
| HeightHeaders.SavedHeaderWords | sowfatools/precursortools.py:98 | the `# `-prefixed line `np.savetxt` writes for a space-joined header splits into `#` and the header's own words |
| AveragingFiles.FindQuantities | precursorAveragingProfile.py:31-35 | the search loop over `AVERAGING_QUANTITIES` collects exactly the quantities whose averaging file exists |
| AveragingFiles.EnumeratesSize | precursorProfile.py:47-58 | iterating the found set visits each member once, so the loop runs once per found quantity |
| AveragingFiles.EnumeratedFound | precursorProfile.py:47-62 | every quantity the loop over the found set visits has its file |
| AveragingFiles.Each | precursorAveragingProfile.py:45-93 | a loop over quantities yields one result per quantity, in order, and fails exactly when some pass fails |
| AveragingFiles.EachErr | precursorAveragingProfile.py:45-93 | the loop stops with the error of the first pass that raises |
| AveragingFiles.NearestRow | precursorAveragingProfile.py:72-73 | the nearest-time row is a row whose time is nearest to `t`, and no earlier row is as near |
| AveragingFiles.NearestRowMonotone | precursorAveragingProfile.py:72-73 | on rows in time order, a later requested time never selects an earlier row, so a window with start before end selects its rows in order |
| AveragingFiles.WindowRows | precursorAveragingProfile.py:76 | `data[s:e+1]` holds rows `s..e` in order, and is empty when `s > e` |
| AveragingFiles.WindowProfile | precursorAveragingProfile.py:75-78 | the dt-weighted mean of the window's raw value columns raises ZeroDivisionError exactly when the window's time steps sum to zero, and otherwise gives one mean per raw column |
| AveragingFiles.WindowProfileIsRunningMean | precursorAveragingProfile.py:78 | each window mean equals the weighted running mean of `calculate_moving_average` over the window's rows, taken at its last row |
| AveragingFiles.WindowProfileBounds | precursorAveragingProfile.py:78 | with positive time steps, each window mean lies between any bounds of its column over the window |
| AveragingFiles.ProfileTable | precursorAveragingProfile.py:83 | `np.column_stack((heights, *cols))` has one row per height, holding the height and then one value per profile |
| PrecursorAveragingProfile.AveragingLimits | precursorAveragingProfile.py:63-64 | the lower limit is the first time rounded down to a multiple of 10 s; the upper limit is a multiple of 10 s strictly above the last time and at most 10 s above it |
| PrecursorAveragingProfile.TimeAveraged | precursorAveragingProfile.py:47-91 | unparsable times raise ValueError; a profile is written only when the file exists and the request passes the start-before-end and range checks; its name, header and height column are the script's |
| PrecursorAveragingProfile.TimeAveragedBounds | precursorAveragingProfile.py:72-83 | with positive time steps, each profile value lies between the smallest and largest value of its height's column |
| PrecursorAveragingProfile.TimeAveragedDefined | precursorAveragingProfile.py:56-83 | a request that passes the checks, on a file with ascending times, positive steps and one column per height, always yields its profile |
| PrecursorAveragingProfile.AveragingProfile | precursorAveragingProfile.py:23-93 | without the `V_mean` file the run raises FileNotFoundError; a successful run is the quantity loop, in the set's order, over exactly the quantities whose file exists, with the `V_mean` heights, and saves one profile per found quantity, named `{case}_{q}_timeaveraged_{start}_{end}.gz` |
| PrecursorAveragingProfile.TimeAveragedFound | precursorAveragingProfile.py:31-93 | a loop over the found quantities that does not raise leaves one profile per found quantity, named after it |
| PrecursorAveragingProfile.HeightsFromLastQuantity | precursorAveragingProfile.py:38-43 | every profile of a run carries the `V_mean` header's heights in its first column, whatever its own quantity |
| PrecursorAveragingProfile.AveragingProfileMain | precursorAveragingProfile.py:23-93 | the script's loop returns exactly `PrecursorAveragingProfile.AveragingProfile` |
| PrecursorAveraging.ListedQuantities | precursorAveraging.py:33-35 | a folder contributes exactly its listed files whose stem is not `hLevelsCell` |
| PrecursorAveraging.Quantities | precursorAveraging.py:31-35 | the quantity set holds exactly the names listed in some folder whose stem is not `hLevelsCell` |
| PrecursorAveraging.DiscoverQuantities | precursorAveraging.py:31-35 | the nested folder and file loops fill exactly `PrecursorAveraging.Quantities` |
| PrecursorAveraging.AddListed | precursorAveraging.py:33-35 | the inner loop adds exactly one folder's listed quantities to the set |
| PrecursorAveraging.FirstHeights | precursorAveraging.py:40-45 | the heights are those of the first folder holding `hLevelsCell`, and there are none exactly when no folder holds it |
| PrecursorAveraging.FindHeights | precursorAveraging.py:40-45 | the `try`/`break` loop yields the first folder's heights, and otherwise keeps the `heights` variable of an earlier case |
| PrecursorAveraging.Interleaved | precursorAveraging.py:65-69 | `stackeddata` raises IndexError exactly when the table has no rows or lacks a column for some height; otherwise it has one row per input row and `2 + 2h` columns |
| PrecursorAveraging.InterleavedAt | precursorAveraging.py:65-69 | columns 0 and 1 are time and dt; column `2j+2` is height `j`'s raw column and column `2j+3` is its dt-weighted running average |
| PrecursorAveraging.Interleave | precursorAveraging.py:65-69 | the `np.empty` array filled column by column, one height per pass, equals `PrecursorAveraging.Interleaved` |
| PrecursorAveraging.LayoutRowCell | precursorAveraging.py:65-69 | entry `k` of a row laid out for the first heights is time, dt, one height's raw value or that height's running average, by the position of `k` |
| PrecursorAveraging.InterleavedCells | precursorAveraging.py:65-69 | every entry of `stackeddata` is the layout cell its row and column call for |
| PrecursorAveraging.FillHeight | precursorAveraging.py:67-69 | one pass of the height loop writes the raw column and the running average of its height, and the columns filled before stay as they were |
| PrecursorAveraging.CellsOfHeight | precursorAveraging.py:67-69 | the two columns one height pass writes are its raw column and its running average |
| PrecursorAveraging.AveragingNames | precursorAveraging.py:82-86 | the header names are `time`, `dt`, then `{q}_{int(h)}` and `average_{int(h)}` for each height, in height order |
| PrecursorAveraging.HeaderNames | precursorAveraging.py:82-86 | the name loop builds exactly `PrecursorAveraging.AveragingNames` |
| PrecursorAveraging.AveragingHeaderHeights | precursorAveraging.py:82-97 | a reader taking every second header token from the fourth and its last `_` field gets back the written heights as `int(h)`: the written header is the one the reduce step reads |
| PrecursorAveraging.NamesAreWords | precursorAveraging.py:85-89 | every header name is a single whitespace-free word, so the space-joined header splits back into the names |
| PrecursorAveraging.LabelHeight | precursorAveraging.py:85 | the height field of `{q}_{int(h)}` reads back as `int(h)` |
| PrecursorAveraging.LabelChars | precursorAveraging.py:85 | a height label holds neither whitespace nor `_` |
| PrecursorAveraging.QuantityFiles | precursorAveraging.py:52-55 | each folder yields the quantity's table exactly when it holds that file |
| PrecursorAveraging.AveragedQuantity | precursorAveraging.py:49-97 | a folder without the file raises FileNotFoundError, a lone one-row file raises IndexError and a single height raises; a saved file is `{case}_{stem}.gz` with the averaging header of distinct names, holding the interleaved layout of the stacked and stitched rows, whose dt column has no zero running sum |
| PrecursorAveraging.AverageQuantity | precursorAveraging.py:49-97 | one pass of the quantity loop (stack, stitch, lay out, name) is exactly `PrecursorAveraging.AveragedQuantity` |
| PrecursorAveraging.SharedLabelRaises | precursorAveraging.py:84-93 | two heights with the same `int(h)` give two equal field names, so `rec.fromarrays` raises and the pass fails |
| PrecursorAveraging.AveragingNamesDistinct | precursorAveraging.py:82-93 | the field names are distinct exactly when the quantity's stem is not `average` and no two heights share `int(h)` |
| PrecursorAveraging.PositiveStepsWeighted | precursorAveraging.py:52-70 | when every file has positive time steps, the stacked and stitched dt column never has a zero running sum, so every running average is defined |
| PrecursorAveraging.Collected | precursorAveraging.py:49-99 | the loop returns the files the passes saved, one per pass and in order, and fails exactly when some pass raises |
| PrecursorAveraging.CollectedErr | precursorAveraging.py:49-99 | after passes that all saved, a pass that raises ends the loop with its own error |
| PrecursorAveraging.CollectedStep | precursorAveraging.py:49-99 | a pass that saves appends its file to those saved before |
| PrecursorAveraging.SavedQuantities | precursorAveraging.py:49-99 | the quantity loop saves one file per quantity, in the set's order, and fails exactly when some quantity fails |
| PrecursorAveraging.SavedQuantitiesErr | precursorAveraging.py:49-99 | the loop stops with the error of the first quantity that raises |
| PrecursorAveraging.AveragingCase | precursorAveraging.py:47 | `np.argmin(90 - heights)` raises NameError when no heights were ever read and ValueError when there are none |
| PrecursorAveraging.Averaging | precursorAveraging.py:15-99 | every file a run saves is `{case}_{stem}.gz` for a quantity of one of the cases, and a first case without a heights file raises NameError |
| PrecursorAveraging.AveragingMain | precursorAveraging.py:15-99 | the loop over cases, with `heights` living on from case to case, is exactly `PrecursorAveraging.Averaging` |
| PrecursorAveraging.CaseLoop | precursorAveraging.py:47-99 | one case once its heights are known is exactly `PrecursorAveraging.AveragingCase` |
| PrecursorAveraging.StaleHeights | precursorAveraging.py:40-45 | a case none of whose folders holds `hLevelsCell` is laid out with the heights of the case before it |
| PrecursorAveraging.NoHeightsFirst | precursorAveraging.py:40-47 | when the first case has no heights file, `main` raises NameError |
| PrecursorAveraging.ReduceReadsRawColumns | precursorAveraging.py:65-69 | the reduce step, run on a file this script wrote, takes for each requested height the raw column of the nearest height, never its running average, and keeps the time column |
| PrecursorAveraging.ReduceInterleaved | precursorAveraging.py:65-69 | on an interleaved table whose header names the heights, row `k` of the reduced table holds time and the raw column of each selected height from the strided row |
| PrecursorAveraging.ReduceOnHeights | precursorAveraging.py:82-97 | once the header names the heights, reduce is the decimation by the column map of those heights |
| PrecursorAveragingReduce.ColumnIndex | precursorAveragingReduce.py:40-46 | the column map is 0 for time, then `2k + 2` for the index `k` of the header height nearest to each requested height; ValueError exactly when the header names no heights and some are requested |
| PrecursorAveragingReduce.ColumnMap | precursorAveragingReduce.py:40-46 | the index loop followed by the in-place offset `idx[1:] = 2*idx[1:] + 2` gives exactly `PrecursorAveragingReduce.ColumnIndex` |
| PrecursorAveragingReduce.NearestIndices | precursorAveragingReduce.py:40-43 | `idx[0]` is 0 and `idx[i+1]` is the first header height nearest to the `i`th requested height |
| PrecursorAveragingReduce.Decimated | precursorAveragingReduce.py:53 | `data[::N, idx]` raises ValueError for `N == 0` and IndexError when a listed column is beyond the table; otherwise it holds the listed columns of every `N`th row, in order |
| PrecursorAveragingReduce.Reduce | precursorAveragingReduce.py:30-63 | a header whose height fields do not parse raises that error, a zero step `N` raises, and a reduced file carries the header `time {h}m ...` of the kept heights |
| PrecursorAveragingReduce.ReduceQuantity | precursorAveragingReduce.py:30-63 | one pass of the quantity loop (heights from the header, column map, decimation, header) is exactly `PrecursorAveragingReduce.Reduce` |
| PrecursorTools.MetreLabels | sowfatools/precursortools.py:70 | one label `{int(h)}m` per height, in order |
| PrecursorTools.ToolsHeader | sowfatools/precursortools.py:69-71 | the saved header line reads as `#`, `time`, `dt` and one metre label per height |
| PrecursorTools.StitchedQuantity | sowfatools/precursortools.py:83-98 | a folder without the quantity's file raises FileNotFoundError, a lone file read one-dimensional raises IndexError, and a saved file is named `{case}_{stem}.gz` and carries the case header |
| PrecursorTools.StitchedQuantityRows | sowfatools/precursortools.py:83-94 | the saved rows are rows of the stacked folders, verbatim and in order, ending with the last stacked row, so the later run wins every overlap |
| PrecursorTools.StitchQuantity | sowfatools/precursortools.py:83-98 | the `'data' not in locals()` folder loop followed by `remove_overlaps` is exactly `PrecursorTools.StitchedQuantity` |
| PrecursorTools.StitchedQuantities | sowfatools/precursortools.py:75-100 | the quantity loop with its skip test saves at most one file per quantity, and an error is the error of some quantity's pass |
| PrecursorTools.SavedIsQuantity | sowfatools/precursortools.py:75-100 | every saved file is the stitched table of one of the quantities |
| PrecursorTools.KeepsExisting | sowfatools/precursortools.py:78-81 | without `overwrite`, no file present before the run is replaced |
| PrecursorTools.WritesOnce | sowfatools/precursortools.py:78-81 | without `overwrite`, no file is written twice in a run |
| PrecursorTools.EveryQuantitySaved | sowfatools/precursortools.py:75-100 | at the end every quantity has its output file, unless that file existed before and `overwrite` is off |
| PrecursorTools.OverwriteSavesAll | sowfatools/precursortools.py:75-100 | with `overwrite` set nothing is skipped: one file per quantity, in the set's order |
| PrecursorTools.ToolsAveraging | sowfatools/precursortools.py:13-102 | a successful run on an existing averaging directory found heights, not exactly one of them, and every saved header reads as `# time dt` and the metre labels |
| PrecursorTools.PrecursorAveragingCase | sowfatools/precursortools.py:13-102 | the function body for one case is exactly `PrecursorTools.ToolsAveraging` |
| PrecursorTools.QuantityLoop | sowfatools/precursortools.py:75-100 | the quantity loop, testing the files present before the run and those saved since, is exactly `PrecursorTools.StitchedQuantities` |
| PrecursorTools.ReducedFile | sowfatools/precursortools.py:120-153 | an absent averaging file raises FileNotFoundError; a saved file is `{case}_{q}_reduced.gz` whose header splits into `time` and one `{h}m` per kept height |
| PrecursorTools.PrecursorAveragingReduceCase | sowfatools/precursortools.py:107-153 | the quantity loop of `precursoraveragingreduce` saves one reduced file per quantity, in order, up to the first that raises |
| PrecursorTools.MetreLabelNotHeight | sowfatools/precursortools.py:70 | a metre label `{h}m` never parses as an integer height field |
| PrecursorTools.ToolsHeaderNotReducible | sowfatools/precursortools.py:125-133 | reduce raises ValueError on any header `precursorAveraging` writes, when there is at least one height or one requested height |
| PrecursorTools.ToolsOutputNotReducible | sowfatools/precursortools.py:120-153 | every file `precursorAveraging` saves makes the reduce step raise ValueError when it reads it back |
| PrecursorTools.ReduceSameWords | sowfatools/precursortools.py:125 | reduce reads its header line only through its whitespace-separated words |
| PrecursorTools.MetreHeights | sowfatools/precursortools.py:69-71 | reading every word after `# time dt` as `{h}m` raises ValueError exactly when one is not a metre label, and otherwise gives one height per word |
| PrecursorTools.MetreHeightsOfHeader | sowfatools/precursortools.py:69-71 | a saved `precursorAveraging` header reads back as the truncated heights it was written from |
| PrecursorTools.Truncs | sowfatools/precursortools.py:70 | `[int(h) for h in heights]` truncates each height toward zero |
| PrecursorTools.IntendedColumnIndex | sowfatools/precursortools.py:130-136 | for a table without running-average columns, the map is 0 for time and then `k + 2` for the nearest height's index `k`; ValueError exactly when there are no heights and some are requested |
| PrecursorTools.IntendedReduce | sowfatools/precursortools.py:120-153 | a corrected reduction writes the header `time {h}m ...` |
| PrecursorTools.IntendedReduceReads | sowfatools/precursortools.py:120-153 | the corrected reduce reads every `precursorAveraging` file with heights, two rows and a non-zero step, and row `k` holds the time and the value at each nearest height from the `k`th strided row |
| PrecursorTdeviation.Temperatures | sowfatools/precursortools/precursorTdeviation.py:38 | `T[:, 2::2]` keeps, for each row, only the raw temperature columns |
| PrecursorTdeviation.Deviations | sowfatools/precursortools/precursorTdeviation.py:49-55 | the deviation table has the temperatures' shape, each entry being the relative change from the first row, in percent |
| PrecursorTdeviation.DeviationInverse | sowfatools/precursortools/precursorTdeviation.py:49-55 | the first row deviates by nothing, and every temperature is recovered from the first row and its deviation |
| PrecursorTdeviation.DeviationSign | sowfatools/precursortools/precursorTdeviation.py:53-55 | with a positive start, a rise in temperature is exactly a positive deviation, and no change is exactly no deviation |
| PrecursorTdeviation.DeviationArray | sowfatools/precursortools/precursorTdeviation.py:49-55 | `np.empty`, the zero first row, the row loop and the in-place `dev[1:, :] *= 100` leave exactly `PrecursorTdeviation.Deviations` |
| PrecursorTdeviation.MaxOf | sowfatools/precursortools/precursorTdeviation.py:60-65 | each row's extreme is the deviation at its `argmax(abs)` column and that column's header height; ValueError without heights, IndexError when the column is beyond the header heights |
| PrecursorTdeviation.MaxDominates | sowfatools/precursortools/precursorTdeviation.py:62-65 | the reported maximum dominates every deviation of its row in magnitude and is found at the reported height |
| PrecursorTdeviation.MaxLoop | sowfatools/precursortools/precursorTdeviation.py:60-65 | the row loop filling `maxdev` and `maxheights` is exactly `PrecursorTdeviation.MaxOf` |
| PrecursorTdeviation.ReportIndices | sowfatools/precursortools/precursorTdeviation.py:67-69 | `int(times[-1] // t) + 1` report indices, each a row whose time is nearest to `i*t` |
| PrecursorTdeviation.Reports | sowfatools/precursortools/precursorTdeviation.py:72-77 | one report per report time after the first, holding the maximum deviation, its height and the hub deviation at the nearest row |
| PrecursorTdeviation.HubMax | sowfatools/precursortools/precursorTdeviation.py:81 | `np.max(np.abs(dev[:, hub]))` bounds every hub deviation in magnitude and is attained by one |
| PrecursorTdeviation.Reduced | sowfatools/precursortools/precursorTdeviation.py:92-106 | `dev[::N, idx]` beside `times[::N]` raises exactly for a zero step or a column beyond the table, and otherwise holds, per strided row, its time and the deviation at each kept height |
| PrecursorTdeviation.ReportAndReduce | sowfatools/precursortools/precursorTdeviation.py:72-108 | a successful report stage had a first requested height inside the table |
| PrecursorTdeviation.TDeviation | sowfatools/precursortools/precursorTdeviation.py:24-108 | a table of fewer than two rows or columns raises IndexError, a zero step `N` raises, and a result carries the header `time {h}m ...` of the kept heights and one row per `N`th input row |
| PrecursorTdeviation.RunTDeviation | sowfatools/precursortools/precursorTdeviation.py:24-108 | the script, with the deviation array filled in place and the maxima found by the row loop, is exactly `PrecursorTdeviation.TDeviation` |
| PrecursorTdeviation.TDeviationMeaning | sowfatools/precursortools/precursorTdeviation.py:24-108 | a successful run read at least two rows and the header heights; every report comes at a multiple of `t`, the hub maximum bounds every hub deviation, the header names the kept heights and the reduced table has `ceil(n / N)` rows |
| PrecursorTdeviation.FinishOk | sowfatools/precursortools/precursorTdeviation.py:60-108 | a successful report stage found every row's extreme and a first requested height inside the table |
| PrecursorTdeviation.HubBound | sowfatools/precursortools/precursorTdeviation.py:79-81 | the hub maximum bounds the hub deviation of every row |
| PrecursorTdeviation.TemperaturesWidth | sowfatools/precursortools/precursorTdeviation.py:38 | the temperature columns of a rectangular table form a rectangular table |
| PrecursorProfile.IntFloorDiv | precursorProfile.py:95 | Python's integer `a // b` is the floor of the quotient, for either sign of the divisor |
| PrecursorProfile.ProfileLimits | precursorProfile.py:75-80 | the lower limit is the first time rounded down to a multiple of 10 s; the upper limit is the last time rounded up to a multiple of 10 s, and equals it when it already is one |
| PrecursorProfile.LimitsCompared | precursorProfile.py:75-80 | this script and `precursorAveragingProfile.py` round the first time alike, and differ at the last time exactly when it is a multiple of 10 s, where this one's upper limit is 10 s lower |
| PrecursorProfile.OffsetWindows | precursorProfile.py:104-107 | `N` windows of the given width, window `i` starting `offset * i` after the lower limit |
| PrecursorProfile.ProfilePlan | precursorProfile.py:62-98 | a plan reads the header heights from a two-dimensional table; in start-time mode it passed the range check and holds the one requested window; in offset mode the offset was given and non-zero, the window count is not 1, and the windows are the offset windows |
| PrecursorProfile.PlanWindows | precursorProfile.py:84-107 | given the limits, start-time mode passes the range check and holds the one requested window; offset mode needs a non-zero offset and a window count other than 1, and places the offset windows |
| PrecursorProfile.OffsetStartInside | precursorProfile.py:95-106 | with a positive offset, window `i` of `(upper - lower) // offset` starts at or after the lower limit and before the upper limit |
| PrecursorProfile.OffsetWindowsStartInside | precursorProfile.py:95-106 | with a positive offset every window of offset mode starts inside the data limits (its end is not checked) |
| PrecursorProfile.WindowAverage | precursorProfile.py:109-120 | a window's profile has one value per height, and only a two-dimensional table yields one |
| PrecursorProfile.WindowLabels | precursorProfile.py:121 | one label ` {q}_{start}_{end}` per window, in window order |
| PrecursorProfile.WindowHeaderWords | precursorProfile.py:102-121 | for a quantity name without whitespace, the header splits back into `heights_m` and the window labels |
| PrecursorProfile.WindowAverages | precursorProfile.py:104-120 | one profile column per window, in order, failing exactly when some window fails |
| PrecursorProfile.ProfileOf | precursorProfile.py:102-133 | a quantity's output fails exactly when some window fails; otherwise it is named after the quantity and the plan, carries the window header and stacks the heights with one profile column per window |
| PrecursorProfile.QuantityProfile | precursorProfile.py:59-133 | an absent averaging file raises FileNotFoundError; an output has the plan's heights in its first column and one further column per window |
| PrecursorProfile.ProfileOfBounds | precursorProfile.py:115-120 | with positive time steps, the value for window `i` at height `j` lies between the smallest and largest value of that height's column |
| PrecursorProfile.QuantityWindows | precursorProfile.py:102-133 | the window loop, with `data_to_write` starting as the heights and gaining one column per window, is exactly `PrecursorProfile.ProfileOf` |
| PrecursorProfile.ProfileTableSnoc | precursorProfile.py:120 | `np.column_stack` of a profile table with one more column is the profile table with that column appended |
| PrecursorProfile.WindowHeaderSnoc | precursorProfile.py:121 | each pass adds one window label to the header |
| PrecursorProfile.Profile | precursorProfile.py:29-135 | the loop runs, in the set's order, over exactly the quantities whose file exists; none gives no output; otherwise the first quantity's file fixes the plan and a successful run saves one profile per found quantity, named `{case}_{q}{suffix}` and headed with the window labels |
| PrecursorProfile.QuantityProfilesFound | precursorProfile.py:47-135 | a loop over the found quantities that does not raise leaves one profile per found quantity, with its name and window header |
| PrecursorProfile.HeightsFromFirstQuantity | precursorProfile.py:65-71 | every output of a run has the first quantity's header heights in its first column |
| PrecursorProfile.ProfileMain | precursorProfile.py:29-135 | `main`, with the first-quantity steps run once under the `first_quantity` flag, is exactly `PrecursorProfile.Profile` |
| PrecursorProfile.SingleOffsetWindowFails | precursorProfile.py:104-110 | times from 5 s to 600 s with width 100 and offset 600 give one offset window, and the run raises TypeError |
| PrecursorProfile.IntendedPlan | precursorProfile.py:94-107 | in the corrected plan, offset mode places every window by the offset, a single window included |
| PrecursorProfile.IntendedPlanAgrees | precursorProfile.py:94-107 | the corrected plan equals the written one wherever that one succeeds, and differs only where the written one raises TypeError for a single offset window, where it yields that window at the lower limit |
| PrecursorStability.ParseHeights | precursorStability.py:72-73 | the height list is one `float(token.removesuffix('m'))` per token, and ValueError exactly when some token is not a number |
| PrecursorStability.HeightOfName | precursorStability.py:72 | a height name `{h}m` reads back as `h` |
| PrecursorStability.ParseHeightNames | precursorStability.py:72-73 | a list of height names reads back as its heights |
| PrecursorStability.HeaderTextOfLine | precursorStability.py:71 | stripping `# ` and the newline recovers the text `np.savetxt` wrote |
| PrecursorStability.HeightsOfAveragingHeader | precursorStability.py:69-73 | the heights read from a `# time dt {h}m ...` header line are the integer heights it was written from |
| PrecursorStability.OutHeaderWords | precursorStability.py:106 | `" ".join(header.split()[:-1])` keeps every word of the header but the last |
| PrecursorStability.OutHeaderHeights | precursorStability.py:106 | reading an output header back gives every height of the input header but the highest, the lower end of each interval |
| PrecursorStability.Dz | precursorStability.py:88 | the height step that divides a difference is never zero |
| PrecursorStability.GradientRow | precursorStability.py:90-92 | a gradient row keeps the time and dt columns, and column `2+k` is the gradient over height step `k` |
| PrecursorStability.Gradient | precursorStability.py:90-100 | a gradient block succeeds exactly on tables of two or more rows whose width fits the height steps; it raises IndexError exactly for a one-dimensional read (fewer than two rows or a single column, `U.shape[1]`) and ValueError otherwise; a result holds one gradient row per input row |
| PrecursorStability.Telescope | precursorStability.py:88-92 | values whose consecutive differences are given are the first value plus the sum of the differences below |
| PrecursorStability.SlopeTimesStep | precursorStability.py:92 | a gradient times its height step is the difference of the two values |
| PrecursorStability.GradientTimesStep | precursorStability.py:92 | column `2+k` of a gradient row times its step is the difference of columns `3+k` and `2+k` of the input row |
| PrecursorStability.GradientRowIntegrates | precursorStability.py:92 | the gradients integrate back to the profile: the value at column `2+k` is the lowest value plus gradient times step summed over the steps below |
| PrecursorStability.GradientIntegrates | precursorStability.py:90-100 | the same holds for every row of a computed gradient table |
| PrecursorStability.RiRow | precursorStability.py:102-104 | a Ri row keeps the U gradient's time and dt and holds `(g/theta) dtheta/dz / ((dU/dz)^2 + (dV/dz)^2)` at the lower height of each step |
| PrecursorStability.GradientRichardson | precursorStability.py:76-104 | the Ri arithmetic succeeds exactly when U, V and T load as tables of one shape that fits the heights; a one-dimensional U raises IndexError, an IndexError comes only from a one-dimensional input, and any other failure is ValueError; a result is the Ri table |
| PrecursorStability.RiTable | precursorStability.py:102-104 | the Ri table has the rows of U and one column fewer; time and dt come from U and every other cell is Ri at the lower height |
| PrecursorStability.RiSign | precursorStability.py:104 | over a positive temperature, Ri is positive exactly when the temperature gradient is, and zero exactly when it is |
| PrecursorStability.RichardsonStability | precursorStability.py:98-104 | with increasing heights and a positive temperature, a Ri cell is positive (stable) exactly where temperature rises with height, and zero (neutral) exactly where it is constant |
| PrecursorStability.IncreasingStep | precursorStability.py:88 | heights listed from the ground up give positive steps |
| PrecursorStability.RfRow | precursorStability.py:189-192 | an Rf row keeps the U gradient's time and dt and holds `(g/theta) w'theta' / (u'w' dU/dz + v'w' dV/dz)` at the lower height of each step |
| PrecursorStability.FluxRichardson | precursorStability.py:157-192 | the Rf arithmetic succeeds exactly when every operand lines up with U's shape and the heights; a one-dimensional U raises IndexError, as does a one-dimensional T or w'theta' once the gradients exist (`T[:,2:-1]`), an IndexError comes only from a one-dimensional input, and any other failure is ValueError; a result is the Rf table |
| PrecursorStability.RfTable | precursorStability.py:189-192 | the Rf table has the rows of U and one column fewer; time and dt come from U and every other cell is Rf at the lower height |
| PrecursorStability.RfSign | precursorStability.py:191-192 | over a positive temperature, Rf is zero exactly when the heat flux is, and positive exactly when the heat flux and the shear term have the same sign |
| PrecursorStability.FluxStability | precursorStability.py:189-192 | in a computed Rf table, over a positive temperature and with the usual negative shear term, a cell is positive (stable) exactly where the heat flux is downward |
| PrecursorStability.InputsPresent | precursorStability.py:60-66 | every listed input file is present |
| PrecursorStability.RichardsonGradientRun | precursorStability.py:31-109 | the run is skipped exactly when the directory is missing, the output exists with `overwrite is False`, or an input is missing; a saved file is `{case}_Ri.gz`, whose header is the U header without its last height and whose table is the Ri table; failures are IndexError or ValueError |
| PrecursorStability.RichardsonFluxRun | precursorStability.py:113-197 | the same for `{case}_Rf.gz` and the Rf table over six inputs |
| PrecursorStability.DefaultFlagOverwrites | precursorStability.py:286-294 | run without `--overwrite` or `--no-overwrite`, the flag is None, so an existing Ri file is not skipped and is written over |
| PrecursorStability.IntendedKeepsExisting | precursorStability.py:286-287 | under the intended rule an existing output is kept unless `--overwrite` was given, which the default None does not satisfy as written |
| GeostrophicWind.FilterKeeps | geostrophicWind.py:37 | deleting a character keeps exactly the other characters of the token |
| GeostrophicWind.CleanToken | geostrophicWind.py:37 | the cleaned token is the token with every `(` and `)` deleted, and holds neither |
| GeostrophicWind.CleanTokenPlain | geostrophicWind.py:37 | a token without brackets, such as a time, is kept as it is |
| GeostrophicWind.CleanTable | geostrophicWind.py:36-37 | every token of the table is cleaned and the table keeps its shape |
| GeostrophicWind.CleanTokens | geostrophicWind.py:36-37 | the `np.ndenumerate` loop rewrites every element of the array in place to its cleaned token |
| GeostrophicWind.AsFloats | geostrophicWind.py:39 | `astype('float')` raises ValueError exactly when some token is not a signed decimal with an optional exponent, and otherwise reads every token, keeping the shape |
| GeostrophicWind.FolderTable | geostrophicWind.py:33-39 | a missing file raises FileNotFoundError and rows of unequal length raise ValueError; a folder's table has the file's shape and each entry is its token read after cleaning |
| GeostrophicWind.ReadFolder | geostrophicWind.py:33-39 | reading, cleaning in place and converting one folder is exactly `GeostrophicWind.FolderTable` |
| GeostrophicWind.ReadFolders | geostrophicWind.py:32-46 | the folder loop yields a table of equal rows, and only when every folder reads |
| GeostrophicWind.ReadFoldersStops | geostrophicWind.py:32-46 | a folder that raises ends the loop with its error |
| GeostrophicWind.ReadCase | geostrophicWind.py:32-46 | the `'data' in locals()` loop with `np.vstack` is exactly `GeostrophicWind.ReadFolders` |
| GeostrophicWind.StitchedShape | geostrophicWind.py:48 | `remove_overlaps` keeps at least one row of the input's width |
| GeostrophicWind.Dt | geostrophicWind.py:50-53 | one time step per row |
| GeostrophicWind.DtTelescopes | geostrophicWind.py:50-53 | the steps up to row `i` add up to row `i`'s time minus the whole second of the first time |
| GeostrophicWind.DtWeightsNonZero | geostrophicWind.py:50-53 | no running sum of the steps is zero exactly when no time falls on the whole second of the first time |
| GeostrophicWind.DtColumn | geostrophicWind.py:50-53 | the `dt` loop raises IndexError at `dt[0]` for a table without rows, and otherwise yields `GeostrophicWind.Dt` |
| GeostrophicWind.InsertColumn1 | geostrophicWind.py:55 | `np.insert(t, 1, col, axis=1)` makes `col` column 1 and shifts the columns from 1 on one to the right |
| GeostrophicWind.Magnitudes | geostrophicWind.py:61 | the magnitude of each row is the norm of its velocity components |
| GeostrophicWind.Derived | geostrophicWind.py:55-72 | the derived record fails exactly when a running sum of `dt` is zero or the input did not have four columns; otherwise it has one row per input row and seven columns |
| GeostrophicWind.DerivedRows | geostrophicWind.py:55-72 | each derived row holds time, `dt`, the velocity, its magnitude and the running average of the magnitude |
| GeostrophicWind.DeriveColumns | geostrophicWind.py:55-72 | inserting `dt`, appending the magnitude and then its `dt`-weighted moving average gives exactly `GeostrophicWind.Derived` |
| GeostrophicWind.AveragesBounds | geostrophicWind.py:63 | with positive steps, the average column lies between the smallest and largest magnitude so far |
| GeostrophicWind.FinalAverage | geostrophicWind.py:63-64 | the logged final value is the magnitude integrated over time, divided by the time since the whole second of the first time |
| GeostrophicWind.CaseOutput | geostrophicWind.py:25-83 | read errors propagate, a single folder read one-dimensional raises IndexError and stitch errors propagate; a report meets `GeostrophicWind.SavedReport`: `{case}_geostrophicWind.gz` under the seven names, at least one row of seven columns, and the logged value is the last running average |
| GeostrophicWind.DataOutput | geostrophicWind.py:48-83 | after the folder loop, a single folder read one-dimensional raises IndexError, a stitch error propagates, and a report meets `GeostrophicWind.SavedReport` |
| GeostrophicWind.ReportOf | geostrophicWind.py:50-80 | the report fails exactly when the derived record fails, and otherwise meets `GeostrophicWind.SavedReport` |
| GeostrophicWind.SaveReport | geostrophicWind.py:50-80 | deriving the columns, saving them and logging the last average is exactly `GeostrophicWind.ReportOf` |
| GeostrophicWind.NamesAreWords | geostrophicWind.py:57-59 | the space-joined header splits back into the seven names |
| GeostrophicWind.CaseMain | geostrophicWind.py:25-83 | the script's work on one case is exactly `GeostrophicWind.CaseOutput` |
| GeostrophicWind.Cases | geostrophicWind.py:15-83 | the corrected `main` yields one report per case |
| GeostrophicWind.CasesIndependent | geostrophicWind.py:15-83 | in the corrected `main`, each report depends on its own case only |
| GeostrophicWind.LoopAsWritten | geostrophicWind.py:15-48 | as written, the case loop fails from the second case on, and with at most one case it is the plain loop |
| GeostrophicWind.CasesAsWritten | geostrophicWind.py:15-83 | as written, `main` fails on two or more cases, and with at most one it agrees with the corrected `main` |
| GeostrophicWind.LoopSecondFails | geostrophicWind.py:41-44 | two cases that each process on their own make the loop as written raise, while the corrected loop reports both |
| GeostrophicWind.SecondCaseFails | geostrophicWind.py:41-44 | the same for the script's case processing |
| TurbineOutput.Ids | turbineOutput.py:70-71 | `np.unique(...).astype('int')` is ascending, holds the truncation of every entry of the column and nothing else |
| TurbineOutput.HeaderFields | turbineOutput.py:124-125 | the header yields at least one name, and no name keeps a space |
| TurbineOutput.SampleNames | turbineOutput.py:133-135 | one name `base_i` per sample point, at least the first |
| TurbineOutput.BladeHeader | turbineOutput.py:128-135 | fewer than three names raise IndexError; otherwise the names without 'Turbine' and 'Blade', the last one expanded into one name per sample |
| TurbineOutput.BladeHeaderMatchesColumns | turbineOutput.py:128-135 | a first row at least as wide as the header gives one blade name per data column after the turbine and blade columns |
| TurbineOutput.AppendSamples | turbineOutput.py:133-135 | renaming the last name and appending `base_1` … one by one gives the names before it followed by `SampleNames` |
| TurbineOutput.HeaderNames | turbineOutput.py:123-138 | the blade quantities get the blade header, the turbine quantities lose 'Turbine', the other names stay |
| TurbineOutput.Pairs | turbineOutput.py:85-89 | the comprehension over turbines and blades has one pair per turbine and blade |
| TurbineOutput.BladeFiles | turbineOutput.py:85-89 | one blade file name per (turbine, blade) pair |
| TurbineOutput.PairsHas | turbineOutput.py:88-89 | every (turbine, blade) pair is in the list |
| TurbineOutput.PairsOnly | turbineOutput.py:88-89 | the list holds no other pair |
| TurbineOutput.OtherQuantityAlwaysSkipped | turbineOutput.py:76-94 | a quantity in neither list expects no file, and `all([])` skips it when overwrite is off |
| TurbineOutput.BladeSkipIffEveryPair | turbineOutput.py:83-94 | without overwrite a blade quantity is skipped exactly when every (turbine, blade) file exists |
| TurbineOutput.StitchedColumns | turbineOutput.py:152 | `remove_overlaps` keeps the columns of its input |
| TurbineOutput.StitchedShape | turbineOutput.py:152 | `remove_overlaps` returns at least one row, as wide as its input |
| TurbineOutput.TurbineRowsFrom | turbineOutput.py:145-152 | the rows kept for turbine `t` come from rows of the stacked table for `t` |
| TurbineOutput.TurbineTable | turbineOutput.py:145-153 | a turbine with fewer than two rows stops the script with UnboundLocalError; a table that is saved has at least one row, and every saved row is a row of the stacked table for that turbine, without the turbine column |
| TurbineOutput.TurbineTablesFiles | turbineOutput.py:144-155 | without an exception there is one file per turbine id, named after it and holding its table, in the order of the ids |
| TurbineOutput.TurbineTablesFirstError | turbineOutput.py:144-155 | an exception is that of the first turbine whose table fails, every turbine before it having succeeded |
| TurbineOutput.TurbineTableOf | turbineOutput.py:145-153 | filtering, stitching and dropping the turbine column is exactly `TurbineOutput.TurbineTable` |
| TurbineOutput.SplitTurbines | turbineOutput.py:144-155 | the turbine loop writes exactly the files of `TurbineOutput.TurbineTables` or stops with its error |
| TurbineOutput.BladeLoop | turbineOutput.py:159-175 | the blade loop as written writes one file per blade and leaves `data` with the turbine and blade columns |
| TurbineOutput.BladeTables | turbineOutput.py:144-177 | the blade branch over the turbines, each filtering the current `data`, keeps `data` two columns wide |
| TurbineOutput.SplitBlades | turbineOutput.py:144-177 | the nested blade loops, reassigning `data`, write exactly the files of `TurbineOutput.BladeTables` or stop with its error |
| TurbineOutput.StackedUnder | turbineOutput.py:101-105 | stacking fails exactly when some later folder lacks the file or has another width, with the error of the first such folder (FileNotFoundError or ValueError); otherwise it is the first table followed by the others' rows |
| TurbineOutput.StackFolders | turbineOutput.py:101-108 | the `np.vstack` loop over the remaining folders is exactly `TurbineOutput.StackedUnder` |
| TurbineOutput.SplitQuantity | turbineOutput.py:123-177 | building the header and splitting the stacked table is exactly `TurbineOutput.QuantityTables` |
| TurbineOutput.FirstTable | turbineOutput.py:66-71 | the first folder yields its table only when it holds the file as a rectangular table of at least two rows and two columns; otherwise the read or `data[:,0]` raises |
| TurbineOutput.QuantityOutputs | turbineOutput.py:61-179 | no time folder raises IndexError, a first folder without the file raises FileNotFoundError, and a quantity whose expected files all exist writes nothing when overwrite is off |
| TurbineOutput.OneDimensionalFirst | turbineOutput.py:68-70 | a first file of a single row or a single column is read one-dimensional, and `data[:,0]` raises IndexError |
| TurbineOutput.ProcessQuantity | turbineOutput.py:61-179 | one pass of the quantity loop, reading the first folder, deciding the skip, stacking and splitting, is exactly `TurbineOutput.QuantityOutputs` |
| TurbineOutput.SkipBeforeStacking | turbineOutput.py:91-105 | the skip is decided before the remaining folders are read: a skipped quantity writes nothing even when a later folder lacks the file, one not skipped raises FileNotFoundError |
| TurbineOutput.MissingAfterFirst | turbineOutput.py:91-105 | once the first folder is read, a later folder without the file gives nothing when the quantity is skipped and FileNotFoundError otherwise, provided the folders before it fit |
| TurbineOutput.OtherQuantityWritesNothing | turbineOutput.py:76-179 | a quantity in neither list writes no file, whatever the overwrite flag |
| TurbineOutput.OneBlade | turbineOutput.py:159-175 | over one blade, `data` becomes the stitched blade rows (or stays, when there are fewer than two) and the file gets the unstitched rows without the two id columns |
| TurbineOutput.AbsentTurbineBlade | turbineOutput.py:145-175 | a turbine with no rows in `data` gets an empty file and leaves `data` as it was |
| TurbineOutput.BladeDataClobbered | turbineOutput.py:166-173 | two turbines of one blade, two rows each: the second turbine's file is written empty although the stacked table has its two rows |
| TurbineOutput.LastTurbine | turbineOutput.py:144-177 | the blade branch over a single turbine is its blade loop |
| TurbineOutput.RowOrigin | turbineOutput.py:145-166 | a row of the turbine-then-blade filter, without its two id columns, is a row of `data` for that turbine and blade |
| TurbineOutput.KeptRowsFrom | turbineOutput.py:166-168 | every filtered or stitched blade row comes from that turbine and blade |
| TurbineOutput.KeptRowsNonEmpty | turbineOutput.py:166-168 | a turbine and blade that have a row in `data` keep at least one row |
| TurbineOutput.IntendedBladeTable | turbineOutput.py:166-173 | the intended blade table holds only rows of that turbine and blade and is non-empty whenever `data` has such a row |
| LineSample.FileStemOfSampleName | turbineLineSample.py:70-73 | the stem of `stem.xy` and of `stem.xy.gz` is `stem` |
| LineSample.SplitLineName | turbineLineSample.py:76-84 | a stem with a single field raises IndexError; otherwise line name and quantities joined back with `_` give the stem, and a `_5` half-diameter field goes to the line name |
| LineSample.FirstPRgh | turbineLineSample.py:91-98 | the scan finds the first index from `start_idx` where `p` is followed by a token starting `rgh`, or reports that there is none |
| LineSample.FuseAt | turbineLineSample.py:94-95 | `q[i] += q[i+1]; q.pop(i+1)` shortens the list by one |
| LineSample.MergeLoop | turbineLineSample.py:87-101 | the merge loop as written ends with at least two tokens, or with NameError (an unbound `i`) or by never ending |
| LineSample.FusePass | turbineLineSample.py:91-98 | one `for` pass fuses exactly the first pair from `start_idx` and leaves `i` there, or fuses nothing and leaves `i` at the last index visited (unchanged when the range is empty) |
| LineSample.MergeTokens | turbineLineSample.py:87-101 | the `while not finished` loop is exactly `LineSample.MergeLoop` and, when it ends, leaves `i` at `len(q) - 2` |
| LineSample.MergeRound | turbineLineSample.py:89-101 | after one pass the loop raises when `i` is unbound, ends when `i == len(q) - 2`, never ends when nothing was fused and `i` is stale, and otherwise goes on from a smaller state |
| LineSample.MergeTokensOutcome | turbineLineSample.py:87-101 | for every token list: fewer than two tokens raise NameError on the first file and never end afterwards; fusing the final pair never ends; otherwise the loop yields `Fuse(q)` |
| LineSample.SingleTokenUnbound | turbineLineSample.py:91-100 | `lineV1_U.xy` raises NameError |
| LineSample.FinalPairNeverEnds | turbineLineSample.py:91-101 | `lineV1_T_p_rgh.xy` never leaves the loop |
| LineSample.FuseNoPair | turbineLineSample.py:91-98 | without a `p`/`rgh…` pair the corrected merge keeps the tokens |
| LineSample.FuseFirstPair | turbineLineSample.py:91-98 | the corrected merge keeps the tokens before the first pair, fuses it and goes on after it |
| LineSample.FuseLength | turbineLineSample.py:94-95 | fusing never adds tokens and never empties a non-empty list |
| LineSample.FuseKeepsCharacters | turbineLineSample.py:94 | fusing is concatenation: the characters are kept, in order |
| LineSample.FuseHead | turbineLineSample.py:94-95 | the first fused token is `q[0]`, or `q[0] + q[1]` when they pair |
| LineSample.FuseLeavesNoPair | turbineLineSample.py:91-98 | no pair is left after fusing |
| LineSample.FuseIdempotent | turbineLineSample.py:87-101 | fusing twice is fusing once |
| LineSample.Classify | turbineLineSample.py:104-120 | the first quantity is tried as scalar, then vector, then tensor; unclassified exactly when it is in none of the three sets |
| LineSample.KeepFor | turbineLineSample.py:109-120 | each class keeps a non-empty list of quantities, each both in `QUANTITIES_TO_KEEP` and in that class's set |
| LineSample.KeepForIsIntersection | turbineLineSample.py:109-120 | each kept list holds exactly `QUANTITIES_TO_KEEP & <class set>`, without repeats |
| LineSample.IndexOf | turbineLineSample.py:155 | `list.index` is the first position holding the quantity |
| LineSample.ColumnsFrom | turbineLineSample.py:154-168 | column stacking succeeds exactly when the read is two-dimensional, has the quantity's columns and as many rows as the distance; a one-dimensional read or a missing first column raises IndexError, a length mismatch ValueError; each row is the distance then the quantity's `w` columns |
| LineSample.ColumnStack | turbineLineSample.py:156-168 | the `column_stack` loop is exactly `LineSample.ColumnsFrom` |
| LineSample.Linspace | turbineLineSample.py:139-141 | `np.linspace` gives `n` values from `lo` to `hi` with equal steps |
| LineSample.LineDistance | turbineLineSample.py:136-141 | a vertical line's distance is column 0 of a two-dimensional read (IndexError for a one-dimensional one), a horizontal one's is evenly spaced over the rows, and any other line keeps the previous file's distance |
| LineSample.HorizontalEnds | turbineLineSample.py:139-141 | a horizontal line runs from -2.5 to 2.5 diameters |
| LineSample.OutputName | turbineLineSample.py:127 | the output name starts with the line name and `_` |
| LineSample.QuantityStep | turbineLineSample.py:143-171 | one pass writes at most the quantity's own file, only for a found quantity that may be written; for a classified file it holds the distance and the quantity's columns; other files and a present file without overwrite are untouched |
| LineSample.KeepLoopWrites | turbineLineSample.py:143-171 | the quantity loop writes only `{line}_{q}_{time}.gz` for kept quantities found in the file and loses no file |
| LineSample.KeepLoopKeeps | turbineLineSample.py:143-171 | the quantity loop leaves the remembered kept list alone |
| LineSample.ParseFile | turbineLineSample.py:70-101 | a parsed file has at least two tokens and its line name |
| LineSample.Enter | turbineLineSample.py:104-120 | classification sets the kept list, and an unclassified file keeps the previous file's |
| LineSample.FileStepWrites | turbineLineSample.py:66-171 | one file writes only outputs of its own line for quantities in `QUANTITIES_TO_KEEP`, and loses nothing |
| LineSample.FileStep | turbineLineSample.py:66-171 | a name whose tokens do not merge raises that error; a file that succeeds loses no output, and every new output is `{line}_{q}_{time}.gz` for a quantity among its tokens |
| LineSample.ClassifiedStep | turbineLineSample.py:103-171 | with no kept list yet (an unclassified first file) the file raises NameError, except that with overwrite a vertical line read one-dimensional raises IndexError at `data[:,0]` first; otherwise the kept list is the one classification set, no output is lost, and every new output is `{line}_{q}_{time}.gz` for a kept quantity among the file's tokens |
| LineSample.WriteQuantity | turbineLineSample.py:143-171 | one pass of the quantity loop, step by step, is `LineSample.QuantityStep` |
| LineSample.FilesExist | turbineLineSample.py:124-132 | `files_exist` is True exactly when every kept output exists |
| LineSample.QuantityLoop | turbineLineSample.py:143-171 | the quantity loop is `LineSample.KeepLoop` |
| LineSample.ProcessFile | turbineLineSample.py:67-171 | one file, step by step, is `LineSample.FileStep` |
| LineSample.ProcessTokens | turbineLineSample.py:103-171 | classification, skip, distance and quantity loop, step by step, are `LineSample.ClassifiedStep` |
| LineSample.LineSampleFiles | turbineLineSample.py:66-171 | the file loop from the untouched state is `LineSample.RunFiles` |
| LineSample.RunWrites | turbineLineSample.py:66-171 | every file the run writes is named after an input file's line and a kept quantity, and no written file is lost |
| LineSample.RunKeepsPresent | turbineLineSample.py:124-147 | without overwrite a run never replaces or removes a file that was there before it |
| LineSample.PRghUnclassified | turbineLineSample.py:17-20 | `p_rgh` becomes `prgh`, which is in none of the class sets (also lines 94, 107-120) |
| LineSample.ClassifiedStepRunsLoop | turbineLineSample.py:124-171 | a classified file with overwrite runs the quantity loop over its kept list |
| LineSample.UnclassifiedFirstFile | turbineLineSample.py:124-143 | a first file `lineV1_p_rgh_kResolved.xy` read with fewer than two rows raises NameError without overwrite and IndexError with it |
| LineSample.PRghFileWritesStaleTable | turbineLineSample.py:143-171 | a `p_rgh` file after a scalar file saves `kResolved` with the previous file's `data_to_write` |
| LineSample.FuseUnderscore | turbineLineSample.py:94-95 | the corrected merge never adds tokens and never empties a non-empty list |
| LineSample.FuseUnderscoreKeepsFields | turbineLineSample.py:76 | joining the corrected tokens with `_` gives back the stem's fields (also line 94) |
| LineSample.FuseUnderscoreClassifies | turbineLineSample.py:17-18 | with the corrected merge `p_rgh` and `p_rghAvg` classify as scalars (also lines 107-110) |
| LineSample.IntendedPRghFile | turbineLineSample.py:154-156 | the corrected file saves its own `kResolved` column beside the distance |
| StreamTubeMesh.MeshDistance | turbineStreamTubeSliceMesh.py:34 | a last field that is not an integer followed by `D` raises ValueError |
| StreamTubeMesh.MeshDistanceOfName | turbineStreamTubeSliceMesh.py:34 | a name whose last `_` field is `{n}D` reads back as `n` |
| StreamTubeMesh.MeshDistances | turbineStreamTubeSliceMesh.py:34-35 | the comprehension raises ValueError exactly when some name does not read, and otherwise gives each file's distance in file order |
| StreamTubeMesh.AsReals | turbineStreamTubeSliceMesh.py:37-40 | the sort key of each file is its distance as a number |
| StreamTubeMesh.Swap | turbineStreamTubeSliceMesh.py:64 | the fancy-index swap exchanges positions `a` and `b` and leaves every other position |
| StreamTubeMesh.SwapMultiset | turbineStreamTubeSliceMesh.py:64 | a swap permutes the vertices |
| StreamTubeMesh.DistancesAfter | turbineStreamTubeSliceMesh.py:61 | `dist_matrix[i, i+1:]` has one distance per later vertex |
| StreamTubeMesh.NearestAfter | turbineStreamTubeSliceMesh.py:61 | `np.argmin(...) + i + 1` is the first later vertex nearest to vertex `i` |
| StreamTubeMesh.Greedy | turbineStreamTubeSliceMesh.py:58-66 | the reordered polygon has as many vertices as the slice; `StreamTubeMesh.GreedyPermutation` and `StreamTubeMesh.GreedyNearest` state what order it is |
| StreamTubeMesh.GreedyFromShape | turbineStreamTubeSliceMesh.py:58-66 | from step `i` on, positions up to `i` keep their vertices and the rest are permuted among themselves |
| StreamTubeMesh.SwapTailMultiset | turbineStreamTubeSliceMesh.py:64 | swapping two positions after `i` permutes the part after `i` |
| StreamTubeMesh.GreedyPermutation | turbineStreamTubeSliceMesh.py:58-66 | the reordered polygon is a permutation of the vertices with the first vertex kept first |
| StreamTubeMesh.GreedyNearest | turbineStreamTubeSliceMesh.py:58-66 | each vertex up to the third-last is followed by a vertex at least as near to it as any later one |
| StreamTubeMesh.NearestKept | turbineStreamTubeSliceMesh.py:58-66 | the vertex that step `k` places after `k` stays there through the later steps |
| StreamTubeMesh.SwapRows | turbineStreamTubeSliceMesh.py:65 | `dist[[a, b]] = dist[[b, a]]` exchanges rows `a` and `b` of the matrix in place |
| StreamTubeMesh.SwapColumns | turbineStreamTubeSliceMesh.py:66 | `dist[:, [a, b]] = dist[:, [b, a]]` exchanges columns `a` and `b` in place |
| StreamTubeMesh.SwapPoints | turbineStreamTubeSliceMesh.py:64 | `yz_points[[a, b]] = yz_points[[b, a]]` swaps the two vertices in place |
| StreamTubeMesh.Step | turbineStreamTubeSliceMesh.py:61-66 | one step moves the nearest later vertex to position `i + 1` and keeps the matrix the distances between the vertices as they now stand |
| StreamTubeMesh.Reorder | turbineStreamTubeSliceMesh.py:56-66 | the in-place loop leaves the vertices in the greedy order and the matrix consistent with them |
| StreamTubeMesh.Edges | turbineStreamTubeSliceMesh.py:73-74 | the edge list is `(i, i+1)` with the last edge going back to 0, and an empty polygon raises IndexError at `edges[-1, -1]` |
| StreamTubeMesh.Follow | turbineStreamTubeSliceMesh.py:73-74 | following edges from vertex 0 stays among the vertices |
| StreamTubeMesh.EdgesCycle | turbineStreamTubeSliceMesh.py:73-74 | the edges visit the vertices in order and come back to 0 after `n` edges |
| StreamTubeMesh.MeshOf | turbineStreamTubeSliceMesh.py:50-74 | a file that gives a polygon has at least two rows, and the polygon is a permutation of its yz vertices |
| StreamTubeMesh.MeshFile | turbineStreamTubeSliceMesh.py:50-74 | copying the vertices, building the matrix, reordering in place and building the edges is exactly `StreamTubeMesh.MeshOf` |
| StreamTubeMesh.MeshEntry | turbineStreamTubeSliceMesh.py:44-74 | a file's output is the polygon of its rows |
| StreamTubeMesh.Meshes | turbineStreamTubeSliceMesh.py:42-74 | one output per file |
| StreamTubeMesh.MeshesErrStays | turbineStreamTubeSliceMesh.py:42-74 | an exception ends the loop over the files |
| StreamTubeMesh.MeshOne | turbineStreamTubeSliceMesh.py:44-74 | one pass of the file loop is `StreamTubeMesh.MeshEntry` |
| StreamTubeMesh.MeshAll | turbineStreamTubeSliceMesh.py:42-74 | the file loop is `StreamTubeMesh.Meshes` |
| StreamTubeMesh.MeshSlices | turbineStreamTubeSliceMesh.py:20-74 | no matching file gives no output, a name without a `{n}D` field raises ValueError, and otherwise there is one output per matching file, each `{stem}_sorted` of a matching file and the polygon of its rows |
| StreamTubeMesh.SortedMeshes | turbineStreamTubeSliceMesh.py:37-74 | the outputs of the files in distance order are one per file, each for a file of the list |
| StreamTubeMesh.SortedEntriesOfFiles | turbineStreamTubeSliceMesh.py:37-40 | sorting by distance keeps one entry per file and no other file |
| StreamTubeMesh.MeshesStep | turbineStreamTubeSliceMesh.py:42-74 | one more file either appends its output or ends the loop with that file's exception |
| StreamTubeMesh.MeshCase | turbineStreamTubeSliceMesh.py:20-74 | the script over a listing is `StreamTubeMesh.MeshSlices` |
| StreamTubeMesh.MeshOutputs | turbineStreamTubeSliceMesh.py:42-74 | output `k` is the output of the `k`-th file in distance order |
| StreamTubeMesh.MeshOutput | turbineStreamTubeSliceMesh.py:42-74 | every output is `{stem}_sorted`, the greedy order of its file's yz vertices, a permutation with the first vertex first, closed by the edge cycle |
| StreamTubeCompile.SliceFiles | turbineStreamTubeSliceCompile.py:32-34 | the comprehension keeps exactly the listed names that start with `{case}_streamTube` and end with the suffix |
| StreamTubeCompile.SliceOf | turbineStreamTubeSliceCompile.py:49 | a clamped Python slice is never longer than its bounds allow |
| StreamTubeCompile.SliceDistance | turbineStreamTubeSliceCompile.py:44-49 | a distance that does not read raises ValueError |
| StreamTubeCompile.SliceNameFields | turbineStreamTubeSliceCompile.py:44 | a slice name split on `_` gives back its fields |
| StreamTubeCompile.StemFields | turbineStreamTubeSliceCompile.py:44 | the stem of `_`-joined fields with an extension splits back into the fields |
| StreamTubeCompile.WholeFromFields | turbineStreamTubeSliceCompile.py:46-47 | a six-field stem reads the integer in front of `D` in field 4 |
| StreamTubeCompile.HalfFromFields | turbineStreamTubeSliceCompile.py:48-49 | any other stem reads the decimal made of fields 4 and 5 |
| StreamTubeCompile.WholeDistance | turbineStreamTubeSliceCompile.py:46-47 | a whole distance `{n}D` reads back as `n` |
| StreamTubeCompile.HalfDistance | turbineStreamTubeSliceCompile.py:48-49 | a half distance `{n}_{m}D` reads back as the decimal `n.m` |
| StreamTubeCompile.DecimalText | turbineStreamTubeSliceCompile.py:49 | `float("a.b")` of digit strings is `a` plus `b` over the power of ten of its length |
| StreamTubeCompile.Distances | turbineStreamTubeSliceCompile.py:42-51 | one distance per kept name |
| StreamTubeCompile.DistancesEach | turbineStreamTubeSliceCompile.py:42-51 | each distance is the one read from its own name |
| StreamTubeCompile.ReadDistances | turbineStreamTubeSliceCompile.py:42-51 | the appending loop is `StreamTubeCompile.Distances` |
| StreamTubeCompile.DistancesErrStays | turbineStreamTubeSliceCompile.py:42-51 | the first unreadable name ends the loop |
| StreamTubeCompile.Zip | turbineStreamTubeSliceCompile.py:53 | `zip` pairs each distance with its file |
| StreamTubeCompile.Written | turbineStreamTubeSliceCompile.py:58-82 | the writing loop fills the upstream table with exactly as many rows as the upstream count and the downstream table likewise |
| StreamTubeCompile.SortedEntries | turbineStreamTubeSliceCompile.py:53-56 | the entries are sorted by distance and are a permutation of the zipped list |
| StreamTubeCompile.Compile | turbineStreamTubeSliceCompile.py:18-85 | the script returns without output exactly when no file matches; compiled tables are saved as `{case}_streamTube_upstreamTurbine_integratedAreaVelocity` and `{case}_streamTube_downstreamTurbine_integratedAreaVelocity` |
| StreamTubeCompile.CompileSlices | turbineStreamTubeSliceCompile.py:32-85 | the script is `StreamTubeCompile.Compile` |
| StreamTubeCompile.WriteRows | turbineStreamTubeSliceCompile.py:58-82 | the counts, the preallocated tables and the counter loop are `StreamTubeCompile.Written` |
| StreamTubeCompile.Place | turbineStreamTubeSliceCompile.py:76-82 | `table[i, :] = row; i += 1` appends the row to what is written when the table takes it, and changes nothing otherwise |
| StreamTubeCompile.WrittenStep | turbineStreamTubeSliceCompile.py:71-82 | a readable file adds its row to the upstream table, the downstream table or both, by the words in its name |
| StreamTubeCompile.WrittenStepErr | turbineStreamTubeSliceCompile.py:73-74 | a file without four values raises IndexError |
| StreamTubeCompile.WrittenRoom | turbineStreamTubeSliceCompile.py:58-82 | the counts over all files leave room for every row written so far |
| StreamTubeCompile.CountBound | turbineStreamTubeSliceCompile.py:58-62 | a prefix of the files counts no more than all of them |
| StreamTubeCompile.WrittenErrStays | turbineStreamTubeSliceCompile.py:71-82 | once a file raises the loop ends with that exception |
| StreamTubeCompile.WrittenAscending | turbineStreamTubeSliceCompile.py:56-82 | written in sorted order, each table lists its slices by increasing distance |
| StreamTubeCompile.CompiledAscending | turbineStreamTubeSliceCompile.py:56-85 | both saved tables list their slices by increasing distance |
| StreamTubeCompile.WrittenHas | turbineStreamTubeSliceCompile.py:71-82 | a file whose name holds a turbine's word has its row in that turbine's table |
| StreamTubeCompile.EveryFileHasItsRow | turbineStreamTubeSliceCompile.py:32-85 | every kept file whose name holds the word contributes its distance and values 3 and 0 to that word's table |
| TurbineOutputAverage.Averaged | turbineOutputAverage.py:75 | the averaged table keeps the file's shape, each entry being the averaged cell (also lines 113-114) |
| TurbineOutputAverage.AveragedColumns | turbineOutputAverage.py:75 | time, dt and every column from `hi` on are kept; column `c` in `[2, hi)` at row `i` becomes the dt-weighted mean of its first `i + 1` values (also lines 113-114) |
| TurbineOutputAverage.AveragedBounds | turbineOutputAverage.py:75 | with positive steps an averaged entry lies between the smallest and largest value of its column so far (also lines 113-114) |
| TurbineOutputAverage.AveragedLast | turbineOutputAverage.py:75 | the last row of an averaged column is `np.average` of the column weighted by dt (also lines 113-114) |
| TurbineOutputAverage.AverageColumns | turbineOutputAverage.py:113-114 | the in-place loop over columns `[2, hi)` leaves the array equal to `TurbineOutputAverage.Averaged` of its old contents |
| TurbineOutputAverage.Report | turbineOutputAverage.py:83-87 | without times nothing changes; with times `time_idx` is kept once assigned and otherwise computed from this file, and `data_to_report` holds column `col` at each indexed row; an index out of range raises IndexError (also lines 122-126) |
| TurbineOutputAverage.FileStep | turbineOutputAverage.py:54-126 | a skipped file leaves the state; a file read has a two-dimensional table, of at least three columns for a turbine file, whose running dt sums are non-zero whenever some column is averaged (a two-column blade file divides nothing); a file is saved only when absent or with overwrite, as its header and its averaged table; `time_idx` once set is kept |
| TurbineOutputAverage.FileStepReports | turbineOutputAverage.py:83-87 | with times, every reported value is the dt-weighted running mean of the reported column at its indexed row (also lines 122-126) |
| TurbineOutputAverage.AverageFile | turbineOutputAverage.py:54-126 | one file, with the columns averaged in place in an array, is `TurbineOutputAverage.FileStep` |
| TurbineOutputAverage.FoldSnoc | turbineOutputAverage.py:48-130 | a pass that does not raise continues from the state the loop reached |
| TurbineOutputAverage.FoldErr | turbineOutputAverage.py:48-130 | the loops stop at the first pass that raises, with its error |
| TurbineOutputAverage.LogReport | turbineOutputAverage.py:128-132 | without times nothing is logged; otherwise one value per time is logged from `data_to_report`, and an unassigned `data_to_report` raises NameError |
| TurbineOutputAverage.LogValues | turbineOutputAverage.py:128-132 | the `enumerate` loop is `TurbineOutputAverage.LogReport` |
| TurbineOutputAverage.Run | turbineOutputAverage.py:18-134 | a case without the directory produces nothing, and a file-name parse error stops the run |
| TurbineOutputAverage.FollowsTrans | turbineOutputAverage.py:48-130 | following on is transitive |
| TurbineOutputAverage.FoldFollows | turbineOutputAverage.py:48-130 | a loop whose passes follow on follows on |
| TurbineOutputAverage.FileStepFollows | turbineOutputAverage.py:54-126 | one file keeps the invariant, keeps `time_idx` and only appends saved files |
| TurbineOutputAverage.TurbinePassFollows | turbineOutputAverage.py:51-132 | one turbine keeps the invariant |
| TurbineOutputAverage.LogReportFollows | turbineOutputAverage.py:128-132 | logging keeps the invariant |
| TurbineOutputAverage.QuantityPassFollows | turbineOutputAverage.py:48-132 | one quantity keeps the invariant |
| TurbineOutputAverage.RunKeepsInvariant | turbineOutputAverage.py:18-134 | a finished run logs one value per requested time, logs nothing without times, and without overwrite replaces no existing output and saves none twice |
| TurbineOutputAverage.TimeIndicesKept | turbineOutputAverage.py:84-85 | once assigned, `time_idx` is reused by every later file (also lines 123-124) |
| TurbineOutputAverage.SkipOnlyWithoutTimes | turbineOutputAverage.py:58-63 | a file is skipped unread exactly when there are no times, no overwrite and its output exists; with times every listed file is read (also lines 96-101) |
| TurbineOutputAverage.ProcessTurbine | turbineOutputAverage.py:51-132 | the loop over the blades of one turbine is `TurbineOutputAverage.TurbinePass` |
| TurbineOutputAverage.ProcessQuantity | turbineOutputAverage.py:48-132 | the loop over the turbines of one quantity is `TurbineOutputAverage.QuantityPass` |
| TurbineOutputAverage.TurbineOutputAverageCase | turbineOutputAverage.py:18-134 | the function on one case is `TurbineOutputAverage.Run` |
| TurbineOutputAverage.CommandLine | turbineOutputAverage.py:139-156 | one run per case, each with the command-line configuration |
| TurbineOutputAverage.Defaults | turbineOutputAverage.py:18-19 | the command line reports sample 27, never overwrites and passes the integer times as numbers (also lines 148-156) |
| LineSampleFluxes.ParseName | turbineLineSampleFluxes.py:67-74 | a stem with a single `_` field raises IndexError, and only such a stem |
| LineSampleFluxes.ParseJoinedFields | turbineLineSampleFluxes.py:67-74 | a name of `_`-joined fields reads back its last field as the time and its first field (with `_5` for a half diameter) as the line |
| LineSampleFluxes.HalfLineName | turbineLineSampleFluxes.py:71-72 | `'_'.join(fileparts[:2])` of a half-diameter name is the first field followed by `_5` |
| LineSampleFluxes.Scan | turbineLineSampleFluxes.py:62-74 | the only exception of the scan is IndexError, and it finds at most one time and one line per file name |
| LineSampleFluxes.ScanFails | turbineLineSampleFluxes.py:54-74 | the scan raises exactly when some scanned name does not parse |
| LineSampleFluxes.ScanTimes | turbineLineSampleFluxes.py:62-68 | the time set holds exactly the times of the scanned names |
| LineSampleFluxes.ScanLines | turbineLineSampleFluxes.py:63-74 | the line set holds exactly the line names of the scanned names |
| LineSampleFluxes.ScanNames | turbineLineSampleFluxes.py:62-74 | the scan loop adding to the two sets is `LineSampleFluxes.Scan` |
| LineSampleFluxes.ScanErrStays | turbineLineSampleFluxes.py:64-74 | once the scan raises on a prefix it raises on the whole listing |
| LineSampleFluxes.Fluxes | turbineLineSampleFluxes.py:89-105 | the flux table exists exactly when the three tables are two-dimensional, wide enough and of one length; then each row is position, `U U W`, `U U w'`, `uu W`, `uu w'` |
| LineSampleFluxes.FluxesSplitTotal | turbineLineSampleFluxes.py:93-105 | the mean and turbulent fluxes of each quantity add up to that quantity carried by `W + w'` |
| LineSampleFluxes.NoFluctuationNoTurbulentFlux | turbineLineSampleFluxes.py:97 | without vertical fluctuations the turbulent fluxes vanish (also line 103) |
| LineSampleFluxes.FluxFile | turbineLineSampleFluxes.py:82-108 | an existing output without overwrite is skipped, and only then; otherwise the three inputs are read and the fluxes saved under `{line}_fluxes_{time}.gz` |
| LineSampleFluxes.Grid | turbineLineSampleFluxes.py:78-79 | the nested loops visit `len(linenames) * len(times)` pairs, each of a line and a time from the two lists |
| LineSampleFluxes.GridHas | turbineLineSampleFluxes.py:78-79 | every (line, time) pair is visited |
| LineSampleFluxes.FluxFiles | turbineLineSampleFluxes.py:78-108 | without an exception there is one outcome per (line, time) pair, in order, the one for `{line}_fluxes_{time}.gz` |
| LineSampleFluxes.FluxFilesEach | turbineLineSampleFluxes.py:78-108 | without an exception there is one outcome per visited pair, in order |
| LineSampleFluxes.LineSampleFluxes | turbineLineSampleFluxes.py:33-108 | a missing case or lineSample directory returns without output, a name that does not parse raises IndexError, and otherwise, given orders that list each scanned line and time once, there are |lines|·|times| outputs, each `{line}_fluxes_{time}.gz` for a scanned line and time |
| LineSampleFluxes.EveryLineAndTime | turbineLineSampleFluxes.py:33-108 | every scanned line and time gets its output in a run that does not raise |
| WakeTools.JensenVelocity | waketools.py:36-37 | division by zero exactly when `1 + 2 alpha i` is zero; otherwise the deficit `u0 - u` times the squared expansion is `2 a u0` |
| WakeTools.JensenWakeWidth | waketools.py:39-40 | twice the wake radius is `d` times the expansion |
| WakeTools.JensenAtRotor | waketools.py:36-37 | at `i = 0` the velocity is `u0 (1 - 2a)` |
| WakeTools.WakeWidthAtRotor | waketools.py:39-40 | at `i = 0` the wake radius is `d / 2` |
| WakeTools.WakeWidthGrowth | waketools.py:39-40 | the wake radius grows by `d alpha` per unit of `i` |
| WakeTools.DeficitTimesArea | waketools.py:36-40 | the deficit times the squared wake radius equals the rotor deficit `2 a u0` times the squared rotor radius, at every distance |
| WakeTools.JensenBelowFreestream | waketools.py:36-37 | for positive `u0`, `a` and `alpha` and `i >= 0` the velocity is defined, below `u0` and at least `u0 (1 - 2a)` |
| WakeTools.JensenRecovers | waketools.py:36-37 | for `alpha > 0` the velocity never decreases downstream |
| WakeTools.ExpansionMonotone | waketools.py:37 | for `alpha > 0` the expansion is at least 1 and grows with `i` (also line 40) |

## Left out

- File-system access is modelled by values; reading, writing and listing are left out. Directory listings are sequences in listing order, and file contents are maps from names to tables. "The file exists" is membership in a set of present names.
- Gzip, text output formatting (`%.12g`, `%.11e`, `%.3e`), logging, argparse and `utils.create_directory` are left out. Only the values they print or the arguments they pass are modelled.
- A run that raises part-way has already written some files. The model drops them with the `Err`, because only the exception is kept.
- The iteration order of a Python `set` is a parameter (`order`, `lineOrder`, `timeOrder`), because CPython's string hashing is randomised per process. Its members are not: `AveragingFiles.Enumerates` requires the order to list the set's members, each once, and for the averaging scripts that set is `AveragingFiles.FoundQuantities`, which `AveragingFiles.FindQuantities` computes. The one exception is `LineSample.KeepFor`, below.
- The numeric sort of time folders (`key=lambda x: float(x.name)`) is not modelled. The folders are passed already in ascending time order.
- `np.genfromtxt` and `np.loadtxt` are modelled by their shape rules only. A file of fewer than two rows or of one column reads one-dimensional (`Stacking.OneDimensional`, `PrecursorStability.FlatRead`), and the model raises IndexError where the script then takes a two-index subscript of it. A later folder's one-column file, which `np.vstack` would stack as one row of that many columns, is not modelled. Parsing the text, missing values and comments are left out too.
- Rows of different lengths, which numpy rejects with ValueError, are modelled where the model reads or stacks tables of its own: `GeostrophicWind.FolderTable`, `TurbineOutput.FirstTable` and `TurbineOutput.StackedUnder`, and the `Loaded` test of `PrecursorStability.GradientRichardson` and `PrecursorStability.FluxRichardson`. The other scripts take their averaging files as rectangular tables (a `Rectangular` requires), and `LineSample` reads any rows wide enough for its columns.
- Stacking.Stacked: does not check that the folders' tables share a width, where `np.vstack` raises ValueError. The files of one quantity in the time folders of one run share their layout.
- Floating point is modelled by exact reals. Rounding is therefore not captured: `GeostrophicWind.DtTelescopes`, `GeostrophicWind.FinalAverage` and `PrecursorStability.GradientIntegrates` hold exactly in the model and only up to rounding in numpy. `int(h)` and `floor(t/10)` of a rounded float can differ from those of the exact value.
- Strings.ParseFloat: reads optionally signed decimals with an optional exponent. `inf`, `nan`, surrounding whitespace and digit-grouping underscores, which Python's `float()` also accepts, are not read.
- GeostrophicWind.AsFloats: inherits the gap of `Strings.ParseFloat`; a token `inf` or `nan` raises ValueError in the model.
- GeostrophicWind.FolderTable: inherits the same gap through `GeostrophicWind.AsFloats`.
- The plotting parts of the scripts and all ParaView and pygalmesh calls are left out. This includes the mesh written by `turbineStreamTubeSliceMesh.py:79-80`, because it is a foreign call with nothing statable.
- GeostrophicWind.Derived: the vector norm (`np.linalg.norm`, a square root) is a parameter `norm`. A running sum of `dt` that is zero, where numpy writes nan or inf, is modelled as ZeroDivisionError.
- PrecursorAveraging.AveragedQuantity: a running sum of `dt` that is zero, where numpy writes nan or inf, is modelled as ZeroDivisionError.
- LineSample.KeepFor: the lists follow the order in which the script's set literal is written. CPython's iteration order of a set of strings varies per process, so the order of the output files of one line file may differ.
- StreamTubeCompile.Compile: each csv is read as its one data line (`data[0]` for the area, `data[3]` for the velocity); the column layout ParaView writes is not modelled.
- PrecursorTdeviation.TDeviation: the output file name `{casename}_Tdeviation` is not modelled; the model returns the table that would be saved.
- TurbineOutputAverage.FileStep: a running sum of `dt` that is zero, where numpy writes nan or inf, is modelled as ZeroDivisionError.
- Utils.MovingAverage: requires the running weight sums to be non-zero, where numpy would write nan or inf.
- PrecursorTdeviation.TDeviation: requires a positive report interval and non-zero first-row temperatures (`Admissible`), where numpy would produce inf or nan.
- PrecursorStability.GradientRichardson: requires distinct heights and non-zero temperature and shear (`RichardsonDefined`), where numpy would produce inf or nan.
- PrecursorStability.GradientRichardson: computes Ri only when U, V and T have one shape. numpy also broadcasts a T or V with a single gradient column against a wider U when the header has two heights; the model reports ValueError there.
- PrecursorStability.FluxRichardson: requires distinct heights and non-zero temperature and flux denominator (`FluxDefined`), where numpy would produce inf or nan.
- PrecursorStability.FluxRichardson: computes Rf only when every operand has U's shape. Operands that numpy broadcasts, one column or no column wide against a wider one, are reported as ValueError.
- `precursor_obukhov` in `precursorStability.py` is not modelled, because it takes a fourth root.
- Stacking.StackOnLocals: requires at least one folder. The quantities it stacks are discovered inside the folders, so a call without folders cannot occur.
- PrecursorTools.StitchQuantity: requires at least one folder, for the same reason.
- `turbineOutput.py` calls `pdb.set_trace()` in three places. Lines 73-74 and 106-107 test a `Path` against a list of strings, so they never stop. Line 170 enters the debugger when a blade has fewer than two rows. The model treats that exception as caught, and the loop goes on.
- `turbineOutput.py` reads the header and first row of a quantity (lines 112-121) from the first folder that has the file. The model takes those two lines as parameters.
- `turbineOutputAverage.py` logs `data_to_report` after each turbine. That value was assigned by the last file read, which for a blade quantity is the last blade, and it can be left over from an earlier quantity. The model keeps both behaviours.
- PrecursorAveragingReduce.Decimated: a table without rows has no column count in the model, so a column index beyond the file's width goes undetected there, where numpy raises IndexError.
- The scripts named as broken duplicates or as wrappers (`sowfatools.py`, `precursorTdeviation.py` at the top level, `processTurbineOutput.py`, `precursorRun.py` and the like) are not part of this model. Neither are the intensity, power, spectra, timescale and transform scripts, which need square roots, trigonometry or interpolation.
- `calculate_induction` in `waketools.py` is not part of this model. It reads CSV files and takes a dot product with a wind vector.

## Findings

| source | as written | input that shows it | evidently intended | confidence | as-written member | corrected member |
|---|---|---|---|---|---|---|
| utils.py:133-145 | after a deletion the exit test compares the stale loop index `i` with the shrunk length and can stop before the rest is scanned | keys 0,1,2,1,3,2 give 0,1,3,2, which is not increasing, and a second call turns 0,1,3,2 into 0,1,2, so the routine is not idempotent | stop only after a pass that scans to the end, so the result strictly increases and a second call changes nothing | high, not executed | Utils.StaleExitCounterexample | Utils.StitchedToEndIdempotent |
| turbineOutput.py:166-173 | the blade loop assigns the de-overlapped blade rows to `data`, not `bladedata`, so later turbines filter an almost empty table, and the saved file is not de-overlapped | two turbines with one blade and two rows each: turbine 1's file is written empty | de-overlap `bladedata` and save it, leaving `data` alone | high, not executed | TurbineOutput.BladeDataClobbered | TurbineOutput.IntendedBladeTable |
| turbineLineSample.py:87-101 | the `for` loop may bind `i` not at all or at a stale index, so the `while` loop raises NameError or never ends | `lineV1_U.xy` (a single field) raises NameError; `lineV1_T_p_rgh.xy` never ends | fuse every `p`/`rgh…` pair and stop | high, not executed | LineSample.MergeTokensOutcome | LineSample.FuseIdempotent |
| turbineLineSample.py:94 | `p` and `rgh` are fused by plain concatenation into `prgh`, which no class set at lines 107-120 lists, so the file is not classified and reuses the previous file's kept list and table | a file `lineV1_p_rgh_kResolved.xy` after a scalar file saves `kResolved` with the previous file's table | join with `_` to give the listed `p_rgh` | high, not executed | LineSample.PRghFileWritesStaleTable | LineSample.IntendedPRghFile |
| precursorStability.py:55 | `--overwrite` uses `BooleanOptionalAction` with no default, so the flag is None, and `overwrite is False` at lines 286-294 never holds | a run without the flag, with `Ri` already saved, writes it over | keep existing files unless `--overwrite` is given | medium, not executed | PrecursorStability.DefaultFlagOverwrites | PrecursorStability.IntendedKeepsExisting |
| sowfatools/precursortools.py:124-127 | the reduce step reads heights as `int` of the last `_` field of every second token from position 3, but this module writes `{h}m` tokens at lines 69-71 | any saved header with at least one height makes the reduce step raise ValueError | read the metre labels this module writes | high, not executed | PrecursorTools.ToolsOutputNotReducible | PrecursorTools.IntendedReduceReads |
| precursorProfile.py:95-110 | in offset mode with one window `starttime` stays None and line 109 subtracts it | times 5 s to 600 s, width 100, offset 600 raise TypeError | place the single window at the lower limit as for several windows | medium, not executed | PrecursorProfile.SingleOffsetWindowFails | PrecursorProfile.IntendedPlanAgrees |
| geostrophicWind.py:41-44 | `data` is never deleted between the cases of the loop at line 15, so `'data' in locals()` holds for the second case and its rows are stacked onto the first case's result | two cases that each process on their own: the second raises | start each case with no data | high, not executed | GeostrophicWind.SecondCaseFails | GeostrophicWind.CasesIndependent |
