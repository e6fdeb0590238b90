# 3D correlation cost volume, modelled in Dafny

This project models the CPU implementation of a 3D local cross-correlation
(`Correlation_Module/correlation3D.cpp`). The forward pass takes two feature
volumes of shape `[batch, channels, H, W, D]`. For every displacement
`(ph, pw, pd)` in a patch and every output position `(h, w, d)`, it correlates
a dilated `kH × kW × kD` window of input 1 with the same window of input 2
moved by the displacement. The result is a 7-D cost volume
`[batch, patchH, patchW, patchD, oH, oW, oD]`. The backward pass scatters an
incoming gradient of that cost volume back onto both inputs.

Files, in dependency order:

- `geometry.dfy` (`CorrelationGeometry`): the integer index arithmetic, which is pure. It covers C++ truncating division, output size, patch radius, shift and window base.
- `window_sums.dfy` (`WindowSums`): the input volumes as values, the `WITHIN_BOUNDS` test, and the specification of what one kernel call computes. That specification is a sum over channels and kernel taps, guarded exactly as the source's loop nest is. A `Probe` selects the summand: `Dot` for the forward product, or `Scatter(g, t)` for what the backward kernel adds to gradient element `t`.
- `kernels.dfy` (`PatchKernels`): the forward and backward window kernels, as loop methods. The backward kernel's loop nest is written one loop per method, each specified by the partial sum it has added so far.
- `forward.dfy` (`CorrelationForward`) and `backward.dfy` (`CorrelationBackward`): the two orchestrators, as loop methods over a fresh zero `array7` or fresh zero `array5` buffers. Again each loop of the nest is its own method, and each method's contract states how much every cell has grown and which cells it leaves alone.
- `window_lemmas.dfy` (`WindowLemmas`) and `pass_lemmas.dfy` (`PassLemmas`): the properties.

Elements are exact `real`s. The read-only inputs are values (`Volume`, `GradVolume`: nested sequences with their shape). The buffers the source writes are arrays updated in place.

## Model

| member | source | states |
|---|---|---|
| CorrelationGeometry.TruncDiv | Correlation_Module/correlation3D.cpp:107-109 | C++ integer `/`: the quotient truncates toward zero, so the remainder has the dividend's sign and is smaller than the divisor in magnitude |
| CorrelationGeometry.OutSizeCountsWindows | Correlation_Module/correlation3D.cpp:103-109 | with a positive stride and a padded input holding a dilated kernel, there is at least one output cell, and output index `o` exists iff its window's last tap lies within the padded input |
| CorrelationGeometry.OutSizeTruncatesTowardZero | Correlation_Module/correlation3D.cpp:107-109 | for every input shorter than one dilated kernel (with padding) and a positive stride: a shortfall under one stride still yields one output cell, whose window overruns the padded input; a shortfall of a whole stride or more yields none; and whenever the stride does not divide the shortfall the size is one more than the floor formula gives |
| CorrelationGeometry.PatchRadius | Correlation_Module/correlation3D.cpp:100-102 | the radius `(patch-1)/2` puts the zero displacement at index `r`, with `r` indices below it and `r` or `r+1` above it |
| CorrelationGeometry.ShiftsSymmetric | Correlation_Module/correlation3D.cpp:129-132 | for an odd patch size the shifts `(p - r) * dilation_patch` are symmetric: index `patch-1-p` has the negated shift of index `p` |
| CorrelationGeometry.DegenerateAxis | Correlation_Module/correlation3D.cpp:100-110 | with patch 1, kernel 1, pad 0 and stride 1, the output size equals the input size, and output index `o` gets the single tap `o` with shift 0 |
| PatchKernels.CorrelatePatch | Correlation_Module/correlation3D.cpp:9-44 | the forward kernel returns the initial `*dst` plus the window sum of `input1[c][p1] * input2[c][p2]` over all channels and taps whose six coordinates pass the bounds tests |
| PatchKernels.CorrelatePatchGrad | Correlation_Module/correlation3D.cpp:47-84 | each element of both gradient buffers for batch `n` grows by exactly the sum of the kernel's scatter-adds aimed at it; other batch elements are unchanged |
| PatchKernels.GradChannel | Correlation_Module/correlation3D.cpp:63-79 | for one channel, each gradient element of batch `n` grows by that channel's scatter-adds over all height taps; other batch elements are unchanged |
| PatchKernels.GradTapRow | Correlation_Module/correlation3D.cpp:67-79 | for one channel and one in-bounds height tap, each gradient element grows by the scatter-adds over the width taps of that row |
| PatchKernels.GradTapColumn | Correlation_Module/correlation3D.cpp:71-79 | for one channel and one in-bounds height and width tap, each gradient element grows by the scatter-adds over the depth taps of that column |
| PatchKernels.ScatterTap | Correlation_Module/correlation3D.cpp:74-78 | one in-bounds tap adds `g*v1` to `gradInput2[c][p2]` and `g*v2` to `gradInput1[c][p1]`, and changes nothing else |
| CorrelationForward.ForwardBatch | Correlation_Module/correlation3D.cpp:115-137 | for one batch element, every cell `[n][ph][pw][pd][h][w][d]` grows by its window sum; cells of other batch elements are untouched |
| CorrelationForward.ForwardHeightShift | Correlation_Module/correlation3D.cpp:116-136 | for one batch element and height displacement `ph`, every cell of that slice grows by its window sum; all other cells are untouched |
| CorrelationForward.ForwardWidthShift | Correlation_Module/correlation3D.cpp:117-135 | the same for one `(n, ph, pw)` slice: its cells grow by their window sums, all other cells are untouched |
| CorrelationForward.ForwardDisplacement | Correlation_Module/correlation3D.cpp:122-134 | for one batch element and displacement, each cell `[h][w][d]` receives its kernel call's window sum; cells of every other `(n, ph, pw, pd)` slice are untouched, so writes are disjoint |
| CorrelationForward.ForwardRow | Correlation_Module/correlation3D.cpp:123-133 | for one output row `h`, each cell `[w][d]` grows by its window sum with base `-pad + o*stride`; every other cell is untouched |
| CorrelationForward.ForwardColumn | Correlation_Module/correlation3D.cpp:124-132 | for one output column `(h, w)`, each cell `[d]` is the kernel's result on its own window, starting from the cell's old value; every other cell is untouched |
| CorrelationForward.Forward | Correlation_Module/correlation3D.cpp:96-140 | returns nothing exactly when an output size is negative; otherwise it returns a fresh, zero-initialised cost volume of shape `[batch, patchH, patchW, patchD, oH, oW, oD]` whose every cell equals the window sum for its base `-pad + o*stride` and shift `(p - r)*dilation_patch` |
| CorrelationBackward.BackwardBatch | Correlation_Module/correlation3D.cpp:173-189 | each gradient element of batch `n` grows by its whole batch gradient (all displacements, all positions); other batch elements are unchanged |
| CorrelationBackward.BackwardHeightShift | Correlation_Module/correlation3D.cpp:174-188 | for height displacement `ph`, each gradient element of batch `n` grows by the contributions of all width and depth displacements and all positions; other batch elements are unchanged |
| CorrelationBackward.BackwardWidthShift | Correlation_Module/correlation3D.cpp:174-188 | for displacement `(ph, pw)`, each gradient element of batch `n` grows by the contributions of all depth displacements and positions (the `pd` loop is the 3D extension of the source's `pw` loop) |
| CorrelationBackward.ScatterDisplacement | Correlation_Module/correlation3D.cpp:175-187 | for one batch element and displacement, each gradient element of batch `n` grows by the contributions of all output positions; other batch elements are unchanged |
| CorrelationBackward.ScatterRow | Correlation_Module/correlation3D.cpp:176-186 | for one output row `h`, each gradient element of batch `n` grows by the contributions of all positions `(w, d)` of that row |
| CorrelationBackward.ScatterColumn | Correlation_Module/correlation3D.cpp:177-185 | for one output column `(h, w)`, each gradient element of batch `n` grows by the backward kernel's scatter-adds for every `d`, each driven by the incoming gradient cell `[n][ph][pw][pd][h][w][d]` |
| CorrelationBackward.Backward | Correlation_Module/correlation3D.cpp:153-193 | returns fresh gradient buffers shaped like the inputs; every element of batch `n` equals the sum of the contributions of all incoming-gradient cells of batch `n`, and elements of input 2 beyond input 1's batch stay zero |
| WindowLemmas.WindowSumSplits | Correlation_Module/correlation3D.cpp:21-43 | if one summand is the sum of two others at every counted tap, the window sums add the same way |
| WindowLemmas.ScatterAdditive | Correlation_Module/correlation3D.cpp:77-78 | the backward kernel is additive in the incoming gradient: one call with `g + g'` adds what the calls with `g` and with `g'` add |
| WindowLemmas.ScatterOnlyReachesWindow | Correlation_Module/correlation3D.cpp:62-78 | the backward kernel adds nothing to a gradient element that is not the first-input or shifted coordinate of a counted tap |
| WindowLemmas.ScatterIsChangeInInput1 | Correlation_Module/correlation3D.cpp:47-84 | adding `delta` to input-1 element `t` changes the forward window sum by exactly what the backward kernel, given gradient `delta`, adds to gradient element `t` |
| WindowLemmas.ScatterIsChangeInInput2 | Correlation_Module/correlation3D.cpp:47-84 | the same for input 2: the backward kernel computes the exact change of the forward window sum in each input-2 element |
| WindowLemmas.WindowSumIsPaddedSum | Correlation_Module/correlation3D.cpp:21-43 | skipping taps that fail a bounds test equals correlating the zero-padded inputs over every tap of the window with no tests; coordinates are never clamped or wrapped |
| WindowLemmas.WindowInPaddingIsZero | Correlation_Module/correlation3D.cpp:25 | a window whose every height tap has a coordinate outside input 1 correlates to zero |
| WindowLemmas.SingleTapIsChannelDot | Correlation_Module/correlation3D.cpp:21-36 | a one-tap window with no displacement computes the dot product of the two inputs' channel vectors at that position |
| WindowLemmas.EmptyWindowIsZero | Correlation_Module/correlation3D.cpp:21-43 | a window with no taps along some axis sums to zero for every probe: the forward kernel leaves `*dst` unchanged and the backward kernel adds nothing |
| PassLemmas.DegenerateCostVolume | Correlation_Module/correlation3D.cpp:100-132 | with degenerate geometry on all axes, the cost volume has the input's spatial size and each cell is the channel dot product at its position |
| PassLemmas.UnreachedGradIsZero | Correlation_Module/correlation3D.cpp:159-191 | a gradient element that no window of its batch element reaches keeps its initial zero |
| PassLemmas.NonPositiveKernelGivesZeros | Correlation_Module/correlation3D.cpp:22 | a kernel size of zero or less on any axis makes the tap loops run no times: every cost-volume cell's window sum is zero and every batch gradient is zero; the source raises no error for it |
| PassLemmas.ExtraChannelsGetNoGradient | Correlation_Module/correlation3D.cpp:58-62 | the kernels loop over input 1's channels only, so input-2 channels beyond them receive no gradient |

The index formulas and the window sum have no rows of their own. Their behaviour is stated by the lemmas above that use them:
- `CorrelationGeometry.OutSize` (lines 107-109), `CorrelationGeometry.Base` (lines 129-130) and `CorrelationGeometry.Shift` (lines 131-132);
- `WindowSums.WithinBounds` (the `WITHIN_BOUNDS` macro, line 6);
- `WindowSums.WindowSum` (the guarded loop nest of lines 21-43).

## Left out

- OpenMP parallelism (`#pragma omp parallel for`) is not modelled; the loops run sequentially. The frame clauses of the methods prove per-slice and per-batch disjointness instead.
- Floating-point rounding and `scalar_t` dispatch (`AT_DISPATCH_FLOATING_TYPES`) are not modelled. Elements are exact reals, so sums do not depend on summation order here, although floats do.
- C++ `int` overflow in the index arithmetic is not modelled; all indices are unbounded integers.
- Tensor allocation, accessors and `.size()` are modelled as arrays and nested sequences of a given shape. Patch sizes are `nat`: in the forward pass `at::zeros` rejects a negative patch dimension, and that error is out of scope. A negative output size is the one allocation error modelled: `Forward` reports it as no result. Kernel sizes are `int`, since the source accepts negative ones: the tap loops then run no times and every window is empty.
- CorrelationBackward.Backward: the backward pass accepts a negative patch size, because it allocates its buffers like the inputs and never hands patch sizes to an allocator. Its displacement loops then run no times and it returns all-zero gradients without error. Patch sizes are `nat` in the model, so this case is excluded rather than modelled.
- Division by a zero stride is undefined in the source and is excluded by a precondition.
- PatchKernels.CorrelatePatch: the `*dst` pointer is modelled as a value passed in and returned, and the caller stores the result back into the cell.
- The inputs, and the incoming gradient of the backward pass, are immutable values. That they are never written is therefore by construction, not a proved frame.
- WindowLemmas.ScatterIsChangeInInput1 and WindowLemmas.ScatterIsChangeInInput2 state the forward/backward relation per kernel call. They are not summed over the whole cost volume.
- The source's malformed declarations are not mirrored: the repeated `kW`, the untyped `kD`, the misspelled dilations, the rank-5 accessor and the 2D kernel call in the forward pass, and the missing braces in the backward kernel. The model follows the intended 3D semantics described in each module's header.
- The backward orchestrator in the source is the 2D version. It is modelled extended with the `pd` and `d` loops, mirroring the forward pass.
- Both coordinates of a tap are bounds-tested against input 1's sizes. The model therefore requires input 2 to be at least as large as input 1 along every axis; callers pass equal shapes. The incoming gradient must cover input 1's batch and every displacement, because the source indexes it without checks.

## Observations on the source

Neither of these is modelled as a defect, because the model follows the code as written:

- The forward pass's `#pragma omp parallel for private(n, ph, pw, h, w)` (correlation3D.cpp lines 112-113) leaves out `pd` and `d`. In a parallel run, threads would share the `pd` loop counter. A sequential model cannot exhibit that race.
- The output size at lines 107-109 uses C++ truncating division, where the conventional convolution formula floors. For a positive stride, the two differ only when the padded input is shorter than one dilated kernel. For a negative stride, which the source also accepts, they can differ even when the kernel fits. `CorrelationGeometry.OutSizeTruncatesTowardZero` states exactly when and by how much: the source then produces an output cell whose window overruns the padded input.
