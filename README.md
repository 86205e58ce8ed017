# libwebp rescaler controller, modelled in Dafny

This project models the streaming rescale controller in libwebp's
`src/utils/rescaler_utils.c`:

- **Parameter derivation** (WebPRescalerInit). This covers:
  - the two axes' expand flags;
  - the `add`/`sub` step pairs;
  - the initial vertical accumulator `y_accum`;
  - the fixed-point fractions, including the 64-bit `fxy_scale` ratio and its `0` sentinel;
  - the zeroed two-row work buffer.
- **Dimension inference** (WebPRescalerGetScaledDimensions). A zero extent is inferred with a ceiling division on `uint64_t` intermediates, then cast to `int`.
- **The needed-lines query** (WebPRescaleNeededLines). It uses C's truncating division.
- **The scheduler loops** (WebPRescalerImport and WebPRescalerExport).
  - They run on a `Rescaler` class whose `work` array holds the `irow`/`frow` rows at two offsets.
  - The offsets swap on each imported row while expanding vertically.
  - While shrinking, each new row is added into `irow` in place.

The files are:

- `c_int.dfy`: C integer semantics (truncating division, modular `uint64_t`/`uint32_t`/`int` conversions).
- `rescaler_params.dfy`: the pure parameter arithmetic and dimension inference.
- `rescaler.dfy`: the rescaler state and its imperative operations.
- `streaming.dfy`: what happens when a whole image is fed one source row at a time.

The row kernels WebPRescalerImportRow and WebPRescalerExportRow live in the dsp code, which is not part of this model. They enter as function parameters:

- ImportRow writes exactly the `frow` row.
- ExportRow rewrites exactly the `irow` row and advances `dst_y` by one and `y_accum` by `y_add`.

WebPRescalerHasPendingOutput comes from a header that is not part of this model. It is modelled as `dst_y < dst_height && y_accum <= 0`. The extra `dst_y < dst_height` is needed: with a one-row source expanded vertically, `y_add` is 0, and `y_accum <= 0` alone would never let Export stop.

## Behaviour worth knowing

- **The vertical expand rule differs from the horizontal one.** An expanding vertical axis steps by `(src_height - 1, dst_height - 1)` (lines 47-48). An expanding horizontal axis steps by `(dst_width - 1, src_width - 1)` (lines 41-42).
- **Where `y_accum` ends after a whole image.** After every source row has been fed once, `y_accum` is back at its initial value `src_height` when shrinking (lines 47-49). When expanding it ends at `src_height - 1`, although it started at `dst_height - 1` (`Streaming.AllRowsOut`).
- **NeededLines can be negative.** Once every destination row is out, Import keeps taking rows (lines 121-122), so `y_accum` keeps falling by `y_sub`. The expression at line 114 truncates toward zero, so the count is 0 for `1 - 2 * y_sub < y_accum <= 0` and negative once `y_accum <= 1 - 2 * y_sub`.
- **`fxy_scale` is also 0 for ratio 0.** The ratio is 0 when `x_add * y_add` exceeds `dst_height * 2^32`, and then `fxy_scale` is 0 as well (lines 56-64). This is besides the `x_add == 1 && src_height == dst_height` case that the comment at lines 57-60 names. For extents below 2^16 only the commented case remains.

## Model

| member | source | states |
|---|---|---|
| CInt.CDiv | src/utils/rescaler_utils.c:114 | C's `/` for a positive divisor: the quotient truncated toward zero, bracketed from both sides for either sign of the dividend |
| CInt.CeilDivIsLeast | src/utils/rescaler_utils.c:113-114 | for `a > 0`, `(a + b - 1) / b` is the least `q >= 1` with `q * b >= a` |
| CInt.CeilDivOfNonPositive | src/utils/rescaler_utils.c:113-114 | for `1 - 2 * b < a <= 0` the needed-lines expression is 0, because truncation sends `a + b - 1` in `(-b, b)` to 0 |
| CInt.CDivDiffersFromFloor | src/utils/rescaler_utils.c:114 | a concrete dividend where truncating and flooring division differ |
| CInt.ToU64 | src/utils/rescaler_utils.c:89-90 | conversion to `uint64_t` is reduction modulo 2^64 and the identity on values in range |
| CInt.ToU32 | src/utils/rescaler_utils.c:57 | conversion to `uint32_t` is reduction modulo 2^32 and the identity on values in range |
| CInt.ToInt32 | src/utils/rescaler_utils.c:89-90 | the `(int)` cast wraps modulo 2^32 into the `int` range and is the identity on values in range |
| RescalerParams.XAxis | src/utils/rescaler_utils.c:41-42 | `x_expand` iff `src_width < dst_width`; then `(add, sub) = (dst_width - 1, src_width - 1)`, else `(src_width, dst_width)` |
| RescalerParams.YAxis | src/utils/rescaler_utils.c:47-48 | `y_expand` iff `src_height < dst_height`; then `(add, sub) = (src_height - 1, dst_height - 1)`, else `(src_height, dst_height)` |
| RescalerParams.Frac | src/utils/rescaler_utils.c:44 | `WEBP_RESCALER_FRAC` (also used at lines 66 and 68) fits in 32 bits; the reciprocal `FRAC(1, y)` is `2^32 / y` for `y >= 2`, and `FRAC(1, 1)` wraps to 0 |
| RescalerParams.InitialAccum | src/utils/rescaler_utils.c:49 | the accumulator starts at `y_sub` when expanding and at `y_add` otherwise, and is positive when both steps are |
| RescalerParams.XAxisSteps | src/utils/rescaler_utils.c:41-44 | `x_add >= 1`, so `FRAC(1, x_add)` is defined; `x_sub` is 0 only for a one-column source that expands; shrinking has `1 <= x_sub <= x_add` |
| RescalerParams.YAxisSteps | src/utils/rescaler_utils.c:47-49 | `y_sub >= 1`; `y_add >= 0`, and 0 exactly for a one-row source that expands; the initial accumulator is positive |
| RescalerParams.FxyScale | src/utils/rescaler_utils.c:50-65 | `fxy_scale` fits in 32 bits; it is 0 iff the 64-bit ratio is ONE or 0 (ONE iff `x_add == 1 && y_add == dst_height`), and otherwise it equals the ratio |
| RescalerParams.RatioAtMostOne | src/utils/rescaler_utils.c:51-60 | the ratio `dst_height * ONE / (x_add * y_add)` lies in `[0, ONE]`; it is ONE exactly when `x_add == 1 && y_add == dst_height`, and 0 exactly when the denominator exceeds the numerator |
| RescalerParams.FxySentinel | src/utils/rescaler_utils.c:57-62 | on image extents: `fxy_scale == 0` iff source width 1, destination width at most 2 and equal heights, or the huge-source case |
| RescalerParams.FxySentinelForModestSizes | src/utils/rescaler_utils.c:58-65 | for extents below 2^16: `fxy_scale == 0` iff `x_add == 1 && src_height == dst_height`; otherwise it is the exact ratio |
| RescalerParams.FxySentinelExample | src/utils/rescaler_utils.c:57-62 | a 1-wide, 4-high same-size image hits the sentinel |
| RescalerParams.CeilScaleExact | src/utils/rescaler_utils.c:89-90 | when the exact ceiling fits in `int`, the `uint64_t` expression followed by the cast is `ceil(a * b / c)` |
| RescalerParams.ScaledDimensions | src/utils/rescaler_utils.c:78-106 | success values are both positive; a nonzero request is kept as is; two positive requests succeed unchanged; a negative request fails; a zero request fails when its inference is skipped (source extent divided by `<= 0`) or comes out 0 (source extent multiplied by is 0) |
| RescalerParams.InferWidth | src/utils/rescaler_utils.c:88-91 | a zero width becomes the least `w` with `w * src_height >= src_width * height` |
| RescalerParams.InferHeight | src/utils/rescaler_utils.c:93-96 | a zero height becomes the least `h` with `h * src_width >= src_height * width` |
| RescalerParams.BothUnspecifiedFails | src/utils/rescaler_utils.c:84-100 | with both requests 0 the call fails (status 0, outputs untouched) |
| RescalerParams.CeilScale | src/utils/rescaler_utils.c:89-90 | the inference expression `(int)(((uint64_t)a * b + c - 1) / c)` with its wrap-arounds written out; a zero factor gives 0 |
| RescalerParams.InferWidthExample | src/utils/rescaler_utils.c:88-91 | 100x50 scaled to height 80 gives width 160 |
| RescalerParams.InferWidthTruncates | src/utils/rescaler_utils.c:89-90 | a width of 2^32 + 2^16 wraps to 2^16 under the `(int)` cast and is reported as success |
| RescalerUtils.PendingOutput | src/utils/rescaler_utils.c:122 | readiness implies `y_accum <= 0`; while destination rows remain it is exactly `y_accum <= 0`; once all are out nothing is pending |
| RescalerUtils.Rescaler.HasPendingOutput | src/utils/rescaler_utils.c:145 | the same readiness test read from the rescaler's fields |
| RescalerUtils.ImportedLines | src/utils/rescaler_utils.c:120-139 | the reference count Import is proved against: within `[0, max(num_lines, 0)]`, and 0 when output is already pending |
| RescalerUtils.ImportedLinesStops | src/utils/rescaler_utils.c:120-139 | Import's count lies in `[0, max(num_lines, 0)]`; it stops at `num_lines` or with output pending; no row before it was taken while output was pending |
| RescalerUtils.ImportedLinesUnique | src/utils/rescaler_utils.c:120-139 | any count with those three properties is Import's count |
| RescalerUtils.NotPendingBefore | src/utils/rescaler_utils.c:121-122 | since the accumulator only falls during import, not pending before the last row means not pending before any row |
| RescalerUtils.ImportedLinesWhenReady | src/utils/rescaler_utils.c:111-122 | with a positive accumulator and rows left, Import takes exactly the needed-lines count, capped at `num_lines` |
| RescalerUtils.DrainCount | src/utils/rescaler_utils.c:143-150 | the reference count Export is proved against: positive exactly when output is pending, and never more than the rows left |
| RescalerUtils.DrainCountDrains | src/utils/rescaler_utils.c:143-150 | Export's count stays within the rows left; every row it exports was pending; afterwards none is |
| RescalerUtils.DrainCountUnique | src/utils/rescaler_utils.c:143-150 | any count with those properties is Export's count |
| RescalerUtils.RowOf | src/utils/rescaler_utils.c:128 | the row the import kernel produces for a source row, column by column |
| RescalerUtils.AddRows | src/utils/rescaler_utils.c:131-133 | the element-wise sum `irow[x] + frow[x]` |
| RescalerUtils.SumOfRows | src/utils/rescaler_utils.c:129-134 | the element-wise sum of the rows imported so far while shrinking, of row length; its contents are given by RowsAfterContents |
| RescalerUtils.StepRows | src/utils/rescaler_utils.c:123-134 | one loop turn on row contents: `frow` gets the new row; when expanding `irow` gets the old `frow`, when shrinking the old `irow` plus the new row |
| RescalerUtils.RowsAfter | src/utils/rescaler_utils.c:121-134 | `k` loop turns keep both rows at their length |
| RescalerUtils.RowsAfterContents | src/utils/rescaler_utils.c:123-134 | after `k` turns `frow` holds the last source row; expanding, `irow` holds the one before (or the old `frow` after one turn); shrinking, `irow` holds the old `irow` plus the sum of all imported rows |
| RescalerUtils.AccumulateStep | src/utils/rescaler_utils.c:129-134 | adding one more row into the running sum extends the sum by that row |
| RescalerUtils.AddInto | src/utils/rescaler_utils.c:130-133 | the in-place loop leaves `irow` equal to the old `irow` plus `frow`, leaves `frow` unchanged, and leaves the rest of the array unchanged |
| RescalerUtils.Rescaler.Init | src/utils/rescaler_utils.c:22-76 | every field as the code assigns it; `src_y == dst_y == 0`; `y_accum` is `y_sub` or `y_add` and positive; `frow` is one row after `irow`; the two rows are zero; the rest of `work` is untouched |
| RescalerUtils.Rescaler.NeededLines | src/utils/rescaler_utils.c:111-116 | the truncated quotient when it is at most the cap and the cap otherwise; for positive `y_accum` and a cap `>= 1` it is at least 1, leaves the accumulator positive after `n - 1` rows, and drives it non-positive after `n` unless capped; it is 0 for `1 - 2 * y_sub < y_accum <= 0` and negative for `y_accum <= 1 - 2 * y_sub` with a non-negative cap |
| RescalerUtils.Rescaler.ImportRow | src/utils/rescaler_utils.c:128 | the import kernel fills `frow` with the source row and leaves `irow` and the rest of `work` unchanged |
| RescalerUtils.Rescaler.AccumulateRow | src/utils/rescaler_utils.c:129-134 | `irow` becomes the old `irow` plus `frow`; `frow` and the tail are unchanged |
| RescalerUtils.Rescaler.ImportOne | src/utils/rescaler_utils.c:123-138 | one turn: the rows swap iff `y_expand`; `frow` holds the new row; `irow` is the old `frow` (expand) or the accumulated sum (shrink); `src_y` goes up by 1 and `y_accum` down by `y_sub` |
| RescalerUtils.Rescaler.ImportNext | src/utils/rescaler_utils.c:121-139 | one turn keeps the loop invariant of Import, advanced from `k` to `k + 1` |
| RescalerUtils.Rescaler.Import | src/utils/rescaler_utils.c:118-141 | returns `k` in `[0, max(num_lines, 0)]`, equal to the needed-lines count when ready; `k == num_lines` or output is pending; no row was imported while output was pending; `src_y += k`, `y_accum -= k * y_sub`; the rows are swapped iff expanding and `k` is odd; the row contents are RowsAfter's; nothing changes for `k == 0` |
| RescalerUtils.Rescaler.ExportRow | src/utils/rescaler_utils.c:146 | the export kernel rewrites only `irow`, and `dst_y` and `y_accum` advance by 1 and `y_add` |
| RescalerUtils.Rescaler.Export | src/utils/rescaler_utils.c:143-150 | returns the drain count; every exported row was pending and none is afterwards; `dst_y` and `y_accum` advance accordingly; nothing changes when none was pending; only `irow` is rewritten |
| Streaming.Round | src/utils/rescaler_utils.c:118-150 | Import of one offered row followed by Export leaves no output pending and `dst_y` within range |
| Streaming.Rounds | src/utils/rescaler_utils.c:118-150 | `dst_y` stays within `[0, dst_height]` over any number of such rounds from Init's state |
| Streaming.RoundKeeps | src/utils/rescaler_utils.c:118-150 | one round moves the accumulator by `-y_sub` plus `y_add` per exported row and keeps it in `(0, y_add]` while rows remain |
| Streaming.RoundsStep | src/utils/rescaler_utils.c:118-150 | the conservation law and the bound carry over one more round |
| Streaming.ConservationStep | src/utils/rescaler_utils.c:138 | the accumulator balance `acc + rows_in * y_sub == init + rows_out * y_add` carries over one round |
| Streaming.RoundsKeep | src/utils/rescaler_utils.c:118-150 | after `r` rounds, `y_accum + r * y_sub == initial + dst_y * y_add`, and the accumulator stays positive while rows remain |
| Streaming.ShrinkEnd | src/utils/rescaler_utils.c:47-49 | with shrinking steps the balance and bound force all rows out, and the accumulator ends at its initial value |
| Streaming.ExpandEnd | src/utils/rescaler_utils.c:47-49 | with expanding steps the balance and bound force all rows out, and the accumulator ends at `src_height - 1` |
| Streaming.AllRowsOut | src/utils/rescaler_utils.c:118-150 | feeding each of the `src_height` source rows once (Import then Export) produces all `dst_height` rows; `y_accum` ends at its initial value when shrinking and at `src_height - 1`, below its initial value, when expanding |
| Streaming.ImportThenExport | src/utils/rescaler_utils.c:118-150 | on a live rescaler, Import(1) followed by Export has Round's effect on `y_accum` and `dst_y` |

## Left out

- The row kernels WebPRescalerImportRow and WebPRescalerExportRow are dsp code. They are function parameters here, and the model states only which part of `work` each writes, not the interpolation arithmetic or the scale fractions they use.
- The destination buffer `dst`, `dst_stride` and the written output rows are not modelled. ExportRow's output is not modelled beyond its effect on `irow` and the counters.
- Pointer arithmetic on `src` and `src_stride`: the source is a row index that advances by one per imported row.
- WebPRescalerDspInit (line 75): function-pointer set-up with no logic in this file.
- The NULL `assert`s of WebPRescalerGetScaledDimensions (lines 81-82): the outputs are a returned option, so there is no pointer to be NULL.
- WEBP_RESCALER_ONE and WEBP_RESCALER_FRAC are defined in a header that is not part of this model. They are taken as 2^32 and `(uint32_t)((uint64_t)x * ONE / y)`. `fx_scale` and `fy_scale` are stated only as those FRAC terms.
- rescaler_t elements and C `int` fields are unbounded integers. Overflow of `y_accum`, `src_y` or the accumulated rows is not modelled.
- `num_channels * dst_width` is unbounded too. The model requires `work` to hold two rows, which the caller must provide in C as well.
- Streaming.AllRowsOut: conservation is proved only for feeding one source row per Import followed by Export. Other call sequences are covered only by the per-call contracts of Import and Export.
