# sc.hurst — a Dafny model of the sample buffer and the Hurst scheduling

`sc.hurst` is a Max external that estimates the Hurst exponent of a stream
of numbers by rescaled-range (R/S) analysis. It keeps a bounded FIFO of
samples: single `int`/`float` samples and whole lists. Messages change the
buffer's capacity (`max_length`), the `calc_on_input` and `size_warning`
flags, empty it (`clear`) and read it out (`dump`, `getstate`). The
calculation does the following:
- it refuses series shorter than 16 samples;
- it picks a base division size of 2, 4, 6 or 8 from the series length;
- it analyses layers whose block size doubles from that base;
- for every block of every layer, it computes the mean, the standard
  deviation and the range of the cumulative deviations from the mean.

The project has five modules:

- `Window` (window.dfy) is the abstract behaviour of the bounded buffer.
  `Newest(s, k)` is the newest `k` elements of `s`. Lemmas relate single
  pushes, batch appends, shrinking and eviction.
- `Hurst` (hurst.dfy) is the object itself.
  - `HurstObject` is a class with the source's fields: the length, the
    capacity, both flags and the `data` array.
  - A ghost history `Pushed` holds every sample ever accepted, and
    `Valid()` keeps the buffer a suffix of that history.
  - Every handler that changes the buffer's contents is proved against
    `Newest`.
  - Array copies are the helpers `ShiftLeft`, `CopyInto` and `Reallocate`.
  - Emitted lists are returned as values (`OutAtom` sequences).
- `Schedule` (schedule.dfy) is the integer skeleton of the calculation: the
  division size, the layer count and the block bounds.
- `BlockStats` (block_stats.dfy) has the block statistics over exact reals.
  There are specification functions (`Mean`, `Variance`, `Range`), and the
  two helper loops are proved equal to them.
- `Analysis` (analysis.dfy) has the calculation's nested loops, proved equal
  to the specification function `Outcome`.

Three behaviours are modelled as the code does them:
- **Capacity of exactly 16.** The capacity setter tests for a value strictly
  greater than 16 (sc.hurst.cpp:371), so 16 itself is rejected. Its error
  message says ">= 16" (sc.hurst.cpp:410), but the test decides.
- **Clamped block end.** A block end that reaches the series length is
  clamped to `length - 1` (sc.hurst.cpp:679), so that block loses its last
  sample (`BlockBounds`, `BlockLength`, `LastBlockOfFirstLayer`).
- **Truncated arguments.** A float argument to the attribute setters is cast
  to `long` (sc.hurst.cpp:363, 440, 463), which truncates toward zero
  (`TruncateTowardZero`).

## Model

| member | source | states |
|---|---|---|
| Hurst.HurstObject.constructor | sc.hurst.cpp:182-203 | A new object is empty, has capacity 256, and has calc_on_input and size_warning both 1. |
| Hurst.HurstObject.Store | sc.hurst.cpp:236-251 | A single sample is appended when there is room; otherwise the oldest is dropped and the length stays at the capacity. Either way the buffer becomes the newest `maxLength` of old contents ++ [v]. |
| Hurst.HurstObject.Append | sc.hurst.cpp:236-251 | As Store, and the object stays valid: the buffer is still a suffix of every sample ever accepted, and the capacity and flags are unchanged. |
| Hurst.HurstObject.PushInt | sc.hurst.cpp:233-257 | An integer sample is appended as its real value. A calculation of the new contents follows exactly when calc_on_input is 1. |
| Hurst.HurstObject.PushFloat | sc.hurst.cpp:259-281 | A float sample is appended. A calculation of the new contents follows exactly when calc_on_input is 1. |
| Hurst.CheckNumeric | sc.hurst.cpp:285-296 | The result is true exactly when every atom of the list is numeric. |
| Hurst.ConvertSamples | sc.hurst.cpp:298-320 | A new array holding the numeric values of the list from index `first` on, in order. |
| Hurst.HurstObject.PushList | sc.hurst.cpp:284-348 | A list with a non-numeric atom is reported and nothing changes. Otherwise the buffer becomes the newest `maxLength` of old contents ++ the list, the capacity and flags stay, and no calculation is made. |
| Hurst.HurstObject.AppendBatch | sc.hurst.cpp:323-347 | The eviction and copy of the list handler give the newest `maxLength` of old contents ++ incoming. |
| Hurst.HurstObject.Evict | sc.hurst.cpp:327-333 | Dropping the oldest `evict` samples leaves the rest, in order, at the front, and reduces the length by `evict`. |
| Hurst.HurstObject.AppendAll | sc.hurst.cpp:335-347 | The incoming values are copied after the held samples, and the length grows by their number. |
| Hurst.ShiftLeft | sc.hurst.cpp:239-241 | `count` elements move `offset` places to the front; the rest of the array is unchanged. |
| Hurst.CopyInto | sc.hurst.cpp:335-337 | The destination range receives the source range; the rest of the destination is unchanged. |
| Hurst.Reallocate | sc.hurst.cpp:393-394 | A fresh array of the new size starts with the copied range of the old one. |
| Hurst.HurstObject.SetMaxLength | sc.hurst.cpp:354-413 | The state is unchanged, with the matching diagnostic or none, when any of these holds: no argument; a non-numeric argument; a value of at most 16; the current capacity. Otherwise the capacity becomes the value and the buffer becomes the newest samples that fit; growing keeps the length. |
| Hurst.HurstObject.Shrink | sc.hurst.cpp:372-390 | Shrinking to `c` keeps the newest min(length, c) samples in order from index 0, sets the capacity to `c` and keeps the object valid. |
| Hurst.HurstObject.Grow | sc.hurst.cpp:392-404 | Growing keeps every sample and the length, and sets the capacity. |
| Hurst.TruncateTowardZero | sc.hurst.cpp:363 | The cast of a float to long truncates toward zero: the result has the sign of the input and lies within 1 of it, on the zero side. |
| Hurst.Clamp01 | sc.hurst.cpp:448-449 | The clamp of the flag setters yields 0 or 1, and 1 exactly when the value is at least 1. |
| Hurst.HurstObject.SetCalcOnInput | sc.hurst.cpp:431-452 | calc_on_input becomes the clamped value. A non-numeric argument is reported and nothing changes. Every other field stays. |
| Hurst.HurstObject.SetSizeWarning | sc.hurst.cpp:454-475 | size_warning becomes the clamped value. A non-numeric argument is reported and nothing changes. Every other field stays. |
| Hurst.HurstObject.Clear | sc.hurst.cpp:606-617 | The length becomes 0; the capacity, flags and array stay. |
| Hurst.HurstObject.Dump | sc.hurst.cpp:545-565 | Nothing is emitted for an empty buffer. Otherwise one list is emitted: "values" and then every held sample in order. |
| Hurst.HurstObject.GetState | sc.hurst.cpp:567-604 | The pairs calc_on_input, max_length, length and size_warning are emitted in that order with the current values, then what dump emits. |
| Hurst.HurstObject.Calculate | sc.hurst.cpp:229-231 | A calculation (also what `bang` does) computes exactly `Analysis.Outcome` of the held samples. |
| Hurst.DumpAsWrittenDropsNewest | sc.hurst.cpp:559 | With the atom count as written, the emitted list lacks the newest sample and differs from the intended list. |
| Hurst.DumpListAsWritten | sc.hurst.cpp:551-559 | The list as emitted has only `length` atoms: the label and the first `length - 1` samples. |
| Hurst.ShrinkAsWritten | sc.hurst.cpp:372-390 | The shrink as written sets the capacity and copies the newest samples but keeps the old length. |
| Hurst.ShrinkAsWrittenBreaksBound | sc.hurst.cpp:372-390 | Shrinking below the current length as written leaves the length above the new capacity. |
| Window.Newest | sc.hurst.cpp:236-251 | The newest `k` elements have length min(\|s\|, k) and are a suffix of `s`. |
| Window.PushCases | sc.hurst.cpp:236-251 | A push onto a buffer with room appends; a push onto a full buffer drops the first element and appends. |
| Window.NewestSplit | sc.hurst.cpp:301-347 | Truncating the incoming list, evicting the oldest samples and appending is the newest `k` of old ++ list. |
| Window.NewestOfIncoming | sc.hurst.cpp:301-305 | Keeping only the newest `k` incoming values first changes nothing in the end. |
| Window.NewestKeepsSuffix | sc.hurst.cpp:236-347 | After any append, the buffer remains a suffix of the history of accepted samples. |
| Window.NewestOfNewest | sc.hurst.cpp:236-251 | Trimming before appending more has no effect on the end result. |
| Window.NewestShrink | sc.hurst.cpp:372-390 | Keeping the newest `k1` and then the newest `k2 <= k1` is keeping the newest `k2`. |
| Window.PushEachIsBatch | sc.hurst.cpp:236-347 | Pushing values one at a time gives the same buffer as appending them as one list. |
| Window.OldValuesEvicted | sc.hurst.cpp:236-251 | After at least `k` pushes, the buffer is exactly the last `k` values pushed. |
| Schedule.DivSize | sc.hurst.cpp:636-646 | The base division size is 2, 4, 6 or 8, and for at least 16 samples eight times it fits into the series. |
| Schedule.DivSizeMonotone | sc.hurst.cpp:636-646 | A longer series never gets a smaller base division size. |
| Schedule.NumLayersFrom | sc.hurst.cpp:650-655 | Every counted layer's block size fits into the series, and the next one does not. |
| Schedule.LayerCount | sc.hurst.cpp:650-655 | The layer loop counts exactly the layers whose block size 2^i·d is at most the length. |
| Schedule.AtLeastFourLayers | sc.hurst.cpp:626-655 | With at least 16 samples there are at least four layers. |
| Schedule.BlockSizeDoubles | sc.hurst.cpp:666 | Each layer's block size is twice the previous one's. |
| Schedule.BlockBoundsValid | sc.hurst.cpp:668-679 | For every block index below length / size, 0 <= idx0 < idx1 <= length - 1. |
| Schedule.BlockLength | sc.hurst.cpp:676-679 | A block has `size` samples, except `size - 1` exactly when its end reaches the length and is clamped. |
| Schedule.BlocksOrdered | sc.hurst.cpp:676-679 | Consecutive blocks of a layer are adjacent and in order. |
| Schedule.LayerHasBlocks | sc.hurst.cpp:665-673 | Every counted layer has at least one block. |
| BlockStats.MeanAndVariance | sc.hurst.cpp:766-796 | The two accumulator loops compute the block's mean and population variance, i.e. the square of the standard deviation before the root. |
| BlockStats.ComputeRange | sc.hurst.cpp:805-823 | The range loop computes the maximum minus the minimum of the prefix sums of deviations, seeded by the first prefix sum. |
| BlockStats.RangeNonNegative | sc.hurst.cpp:805-823 | The range is never negative. |
| BlockStats.RangeOfSingleton | sc.hurst.cpp:805-823 | A one-sample block has range 0. |
| BlockStats.ExtremaBound | sc.hurst.cpp:810-821 | The running minimum and maximum bound every prefix sum and are prefix sums themselves. |
| BlockStats.CumulativeDeviations | sc.hurst.cpp:813-815 | There is one prefix sum per sample of the block. |
| BlockStats.DeviationIsSumMinusMean | sc.hurst.cpp:813-815 | The cumulative deviation is the sum minus count times the mean. |
| BlockStats.DeviationsEndAtZero | sc.hurst.cpp:805-823 | Measured from the block's own mean, the last prefix sum is 0. |
| BlockStats.RangeSpansZero | sc.hurst.cpp:805-823 | From the block's own mean, min <= 0 <= max, so the range is at least each magnitude. |
| BlockStats.SquaredDeviationsNonNegative | sc.hurst.cpp:788-791 | The sum of squared deviations is never negative. |
| BlockStats.VarianceBounds | sc.hurst.cpp:788-793 | The variance is non-negative, and 0 for a one-sample block, where the calculation substitutes the floor for the standard deviation. |
| BlockStats.ShiftInvariance | sc.hurst.cpp:766-823 | Adding a constant to every sample changes neither the range nor the variance of a block. |
| BlockStats.MeanOfShift | sc.hurst.cpp:774-785 | Adding a constant to every sample adds it to the mean. |
| BlockStats.SumOfShift | sc.hurst.cpp:774-777 | Adding `c` to each of `n` samples adds `n·c` to the sum. |
| BlockStats.DeviationOfShift | sc.hurst.cpp:813-815 | Shifting samples and mean together leaves the cumulative deviation unchanged. |
| BlockStats.SquaredDeviationsOfShift | sc.hurst.cpp:788-791 | Shifting samples and mean together leaves the squared deviations unchanged. |
| Analysis.BlockOf | sc.hurst.cpp:673-706 | Each block's index range lies inside the series and is non-empty. |
| Analysis.ComputeLayer | sc.hurst.cpp:668-719 | The block loop computes, for every block of the layer, its bounds, mean, variance and range. |
| Analysis.Calculate | sc.hurst.cpp:624-719 | The calculation's loops compute exactly the specification `Outcome`. |
| Analysis.OutcomeShape | sc.hurst.cpp:624-679 | Layers are produced exactly when there are at least 16 samples, and the warning exactly when the flag is 1. There are at least four layers with doubling sizes, each with length/size >= 1 blocks, every block inside the series, with non-negative variance and range. |
| Analysis.LayerShape | sc.hurst.cpp:673-706 | Every block of a layer is inside the series and has non-negative variance and range. |
| Analysis.LastBlockOfFirstLayer | sc.hurst.cpp:677-686 | For an even length below 64, the clamp makes the last block of the first layer a single sample, with variance 0 and range 0. |

## Left out

- The square root and the 0.0001 floor of the standard deviation, `log2` of the average R/S and of the block sizes, the least-squares slope and the `outlet_float` of the exponent: these are IEEE floating point. The model stops at the exact mean, variance and range of every block, and statistics are over exact reals, not doubles.
- Analysis.Calculate: does not include the R/S averages, logarithms and regression that follow the block loop (sc.hurst.cpp:705-762), for the reason above.
- Critical sections (`critical_enter`, `critical_tryenter`, `critical_exit`): concurrency plumbing. Every handler is treated as atomic.
- Memory management: `sysmem_newptr` and the element-by-element `sysmem_freeptr` loops (which free interior pointers) are not modelled. Dafny arrays are allocated and never freed.
- `clear` copies a fresh, uninitialised block over `data_set` (sc.hurst.cpp:608-609) and then frees interior pointers of that block. The model leaves the array elements as they were; no operation reads them again, because the length is 0.
- Copies with `sysmem_copyptr` are modelled as element copies from the lowest index up. For the overlapping left shifts this is the intended move.
- `ext_main` (class and attribute registration), `assist`, `notify`, the attribute getters, the stub setters and getters, the debug attribute and the `#ifdef DEBUG` output: host binding, stubs or diagnostics with no effect on the state.
- `attr_args_process` on creation: attribute arguments given at creation go through the same setters, which are modelled. The constructor models the defaults only.
- Warnings and errors are returned as a `Diagnostic` value instead of being posted to the Max console. `Calculate` reports "too few samples" as `TooFew(warned)`.
- `base_division_size` is set to 8 on creation but never read, so it is not part of the state.
- Integers are unbounded. A `long` length, and indices computed through `pow` in double precision, are assumed not to overflow, and the `int`→double conversion of an integer sample is taken to be exact.
- The null-pointer test of `argv` in the setters is not modelled; only the argument count is.

## Findings

| source | as written | input that shows it | evidently intended | confidence | as-written member | corrected member |
|---|---|---|---|---|---|---|
| sc.hurst.cpp:372-390 | Shrinking the capacity below the current length copies the newest samples but leaves `series_length` unchanged. | Length 256 and capacity 256, then max_length 100: the length stays 256 with a 100-element array, and the next sample writes past its end. | The length is clamped to the new capacity. | medium, not executed | Hurst.ShrinkAsWrittenBreaksBound | Hurst.HurstObject.Shrink |
| sc.hurst.cpp:559 | `dump` passes `series_length` as the atom count of a list of `series_length + 1` atoms, the first being the label. | One sample held: the list emitted is just the label "values", without the sample. | Every held sample is emitted after the label. | medium, not executed | Hurst.DumpAsWrittenDropsNewest | Hurst.HurstObject.Dump |
