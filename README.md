# NEON float convolution driver, modelled in Dafny

This project models the float NCHW convolution driver of MACE's ARM
backend: `Conv2dFunctor<DeviceType::NEON, float>::operator()` and the
generic direct loop `Conv2dNCHW`, both in `mace/kernels/arm/conv_2d.cc`.
For one convolution call the driver does the following, in order:

- checks its arguments;
- splits the total padding into top/bottom and left/right;
- picks one of five kernels: Winograd, NEON 3x3 stride 1, NEON 3x3 stride 2, NEON 1x1 stride 1, or the generic direct loop;
- picks the Winograd output tile;
- rounds the input and output extents up to what that kernel needs, growing only the bottom and right padding;
- sizes four scratch buffers and carves them from a bump arena;
- fetches the Winograd filter from a lazily filled per-instance cache (the model's driver uses the corrected cache described under "## Findings");
- runs the kernel on a cleared, possibly enlarged output;
- crops the result back into the logical output and adds one bias value per channel.

Modules:

- `Arith` (arith.dfy): flat NCHW offsets, their inverse `Decode`, and the nonlinear facts the loops need.
- `ConvPlan` (conv_plan.dfy): the pure planning arithmetic. This is the padding split, kernel dispatch, tile choice, extent rounding, pad growth, Winograd buffer shapes and scratch sizes, gathered into `MakePlan`.
- `ScratchArena` (scratch_arena.dfy): the cursor/capacity scratch buffer, as a class with `Rewind`, `GrowSize` and `Scratch`. It also holds `Carve`, the layout that successive `Scratch` calls produce, and `CarveLayout`, what that layout guarantees.
- `DirectConv` (direct_conv.dfy): `Conv2dNCHW` on a flat `array<int>`. It is proved against `ConvPoint`, a sum over input channel, filter row and filter column.
- `OutputStage` (output_stage.dfy): the crop from the padded output (`memcpy` per row) and the in-place bias loop.
- `NeonConv2d` (conv_functor.dfy): the fatal argument checks and the transformed-filter cache. It also holds the class `Conv2dFunctor`, with the cache field, the scratch arena and `Run`, the driver itself. `Run` is proved against the specification function `Conv2dOutcome`.

Element values are mathematical integers. Every index formula, bound and "every cell gets X" property is the same as for floats.

The routines whose bodies are not part of this model are parameters of `Run`, each with a length contract:

- the NEON and Winograd kernels (`KernelFn`);
- the input padding routine `ConstructNCHWInputWithSpecificPadding` (`PadInputFn`);
- the Winograd filter transforms `TransformFilter4x4` and `TransformFilter8x8` (`FilterTransform`).

The output shape and the total paddings are inputs to the call. In the source (lines 118-133), a functor without configured paddings gets both from `CalcNCHWPaddingAndOutputSize`. A functor with configured paddings uses its own `paddings_` as the totals, and `CalcNCHWOutputSize` computes only the output shape. `Run` requires that the output fits the padded input (`OutputFitsPadded`), which is what those two routines produce.

## Model

| member | source | states |
|---|---|---|
| Arith.DecodeOffset | mace/kernels/arm/conv_2d.cc:44-45 | the row-major NCHW offset `((b*M+m)*H+h)*W+w` is injective on in-range coordinates: decoding it gives back exactly (b, m, h, w) |
| ConvPlan.SplitPadding | mace/kernels/arm/conv_2d.cc:168-171 | top + bottom equals the total padding, and bottom exceeds top by 0 or 1 (top is the floor half) |
| ConvPlan.RoundUp | mace/kernels/arm/conv_2d.cc:202-205 | the result is a multiple of the granularity, at least x, and less than x plus the granularity |
| ConvPlan.SelectAlgorithm | mace/kernels/arm/conv_2d.cc:180-188 | the chosen kernel's use_* condition holds, and no kernel earlier in the order Winograd, 3x3s1, 3x3s2, 1x1s1, generic is eligible, so dispatch is first-match; Winograd is eligible for a pre-transformed filter or for 3x3/stride 1/dilation 1 with both channel counts at least 8 |
| ConvPlan.WinogradTile | mace/kernels/arm/conv_2d.cc:194-199 | the tile is 2 or 6, and 6 exactly when input height and width both exceed 16 |
| ConvPlan.ExtraExtents | mace/kernels/arm/conv_2d.cc:201-251 | every kernel's extents contain the padded input and the logical output. Winograd: the output is a multiple of the tile, less than one tile larger, and the input is at least output + 2. 3x3s1: 2-row / 4-column granularity and input at least output + 2. 3x3s2: unchanged height, 4-column width and input at least (output-1)*2+3. Any growth of the input is exactly to that bound. 1x1s1 and generic: the padded input and logical output unchanged |
| ConvPlan.GrowPads | mace/kernels/arm/conv_2d.cc:168-171 | top/left keep the floor half of the padding, bottom/right only grow, and input + top + bottom equals the rounded input extent (width likewise) |
| ConvPlan.MakeWinogradShapes | mace/kernels/arm/conv_2d.cc:213-226 | the tiles exactly cover the rounded output; the shapes are ((tile+2)^2, batch, C, tile count), ((tile+2)^2, batch, M, tile count) and ((tile+2)^2, M, C) |
| ConvPlan.MakeScratchSizes | mace/kernels/arm/conv_2d.cc:254-283 | the transform buffers are non-zero only for Winograd; the padded input only when the input extents grew; the padded output only when the output extents grew; each is its element count times 4 bytes; the total is their sum |
| ConvPlan.PlanConsistent | mace/kernels/arm/conv_2d.cc:161-283 | the plan's pieces fit together: the kernel is eligible and the tile is 2 or 6; top/left keep the floor half of the padding; the pads grow the input exactly to the rounded input extent; the padded-input buffer holds exactly that padded input and the padded-output buffer the rounded output, each only when its extents grew; Winograd's tile count is the exact cover of the rounded output; the transform buffers exist only for Winograd; the total is the sum of the four |
| ScratchArena.CarveLayout | mace/kernels/arm/conv_2d.cc:285-291 | views taken one after another from a cursor have the requested sizes, are ordered, pairwise disjoint and lie inside [start, start + sum of sizes) |
| ScratchArena.ScratchBuffer.GrowSize | mace/kernels/arm/conv_2d.cc:286 | the capacity becomes at least the requested size and never shrinks; the cursor stays |
| ScratchArena.ScratchBuffer.Scratch | mace/kernels/arm/conv_2d.cc:287-291 | the view starts at the cursor and has the requested size; the cursor advances by that size |
| ScratchArena.ScratchBuffer.Rewind | mace/kernels/arm/conv_2d.cc:285 | the cursor returns to 0 and the capacity is kept |
| NeonConv2d.Conv2dFunctor.CarveScratch | mace/kernels/arm/conv_2d.cc:285-291 | the four views are the scratch layout, and the arena then holds at least the plan's total |
| NeonConv2d.ScratchLayoutIsCarve | mace/kernels/arm/conv_2d.cc:285-291 | the four regions (transformed input, transformed output, padded input, padded output) have the sizes asked for, are pairwise disjoint and lie inside the first total-scratch bytes |
| DirectConv.TapOffsets | mace/kernels/arm/conv_2d.cc:49-55 | when IH >= (OH-1)*sh + (FH-1)*dh + 1 (and likewise for width), every input and filter offset the loops form is in bounds |
| DirectConv.AccumulatePoint | mace/kernels/arm/conv_2d.cc:46-59 | the three inner loops add exactly ConvPoint (the sum over c, kh, kw of input times filter) to one output cell and touch no other cell |
| DirectConv.Conv2dNCHW | mace/kernels/arm/conv_2d.cc:23-64 | every output cell (b, m, h, w) ends as its old value plus the sum over c, kh, kw of input[b, c, h*sh+kh*dh, w*sw+kw*dw] * filter[m, c, kh, kw]; the same holds for every flat offset |
| DirectConv.UnitTapIsCorrelation | mace/kernels/arm/conv_2d.cc:49-56 | the loop is a correlation: a filter with a single 1 at tap (c0, kh0, kw0) copies input[b, c0, h*sh+kh0*dh, w*sw+kw0*dw], with the tap not mirrored |
| DirectConv.ParallelWritesDisjoint | mace/kernels/arm/conv_2d.cc:39-45 | distinct output cells have distinct offsets, so iterations of the parallel loop write disjoint cells |
| OutputStage.Memcpy | mace/kernels/arm/conv_2d.cc:426-433 | the n destination cells take the source cells in order; every other cell is kept |
| OutputStage.CropOutput | mace/kernels/arm/conv_2d.cc:421-437 | every logical cell output[b, c, h, w] equals pad_output[b, c, h, w] of the rounded extent, so rows and columns past height/width are dropped |
| OutputStage.AddBias | mace/kernels/arm/conv_2d.cc:439-448 | with a bias, every cell of channel c in every batch grows by exactly bias[c]; without one the output is unchanged |
| NeonConv2d.FilterShapeOIHW | mace/kernels/arm/conv_2d.cc:108-116 | a pre-transformed (taps, out, in) filter is read as OIHW (dim 1, dim 2, 3, 3); otherwise the filter's own shape |
| NeonConv2d.CheckArguments | mace/kernels/arm/conv_2d.cc:104-159 | a call proceeds exactly when input, filter and output are given, filter O equals the output channels, filter I equals the input channels and the batches agree; otherwise the first failing check is reported |
| NeonConv2d.WinogradFilterAsWritten | mace/kernels/arm/conv_2d.cc:298-322 | the cache as written: it is resized whenever it is empty, so a pre-transformed filter leaves it resized but unwritten |
| NeonConv2d.PreTransformedSecondCallAsWritten | mace/kernels/arm/conv_2d.cc:298-302 | as written, the second call of a functor with a pre-transformed filter reads the unwritten cache instead of the filter it is given |
| NeonConv2d.WinogradFilter | mace/kernels/arm/conv_2d.cc:298-322 | the corrected cache of "## Findings": the transform runs only when the cache is empty and fills it with the 4x4 (tile 2) or 8x8 (tile 6) transform; a filled cache is returned unchanged; a pre-transformed filter is used directly |
| NeonConv2d.PreTransformedAlwaysUsesFilter | mace/kernels/arm/conv_2d.cc:298-302 | with the corrected cache, after any number of calls with a pre-transformed filter the cache is still empty and the next call reads its own filter |
| NeonConv2d.CacheNeverInvalidated | mace/kernels/arm/conv_2d.cc:298-321 | once the first call has filled the cache, every later call reads the filter transformed on that first call, whatever filter it is given |
| NeonConv2d.Conv2dFunctor.WinogradFilterFor | mace/kernels/arm/conv_2d.cc:298-322 | the filter pointer and the cache afterwards are those of the corrected cache, WinogradFilter |
| NeonConv2d.CorrectionOnlyAffectsPreTransformed | mace/kernels/arm/conv_2d.cc:298-322 | from the same cache, one call reads the same filter under the as-written and the corrected cache; they agree outright unless the filter is pre-transformed and the cache empty, where only the as-written one resizes it |
| NeonConv2d.ExtentsCoverKernelWindow | mace/kernels/arm/conv_2d.cc:201-251 | whatever kernel is chosen, the rounded input covers the window of every cell of the rounded output, so no kernel reads past the padded input |
| NeonConv2d.EligibleKernelCovers | mace/kernels/arm/conv_2d.cc:201-251 | for any kernel whose use_* condition holds, not only the one dispatch picks, the extents rounded for it cover the kernel's window at every output cell |
| NeonConv2d.OutputValues | mace/kernels/arm/conv_2d.cc:421-448 | output cell (b, m, h, w) is cell (b, m, h, w) of the kernel's extent plus the bias of channel m |
| NeonConv2d.DirectOutcomeIsCorrelation | mace/kernels/arm/conv_2d.cc:372-448 | on the generic path every output cell (b, m, h, w) is the direct correlation of the padded input with the filter at that cell plus bias[m] |
| NeonConv2d.RunKernel | mace/kernels/arm/conv_2d.cc:418 | the cleared output extent ends holding the chosen kernel's result; for the generic loop that is ConvPoint at every cell |
| NeonConv2d.ConvolveAndFinish | mace/kernels/arm/conv_2d.cc:395-448 | the output is the crop of the kernel's result plus the bias, whether or not the extents grew |
| NeonConv2d.Conv2dFunctor.Run | mace/kernels/arm/conv_2d.cc:99-452 | the result of a call and the cache afterwards are Conv2dOutcome's. A failed check leaves the cache and the scratch arena as they were. Otherwise the values are those of the kernel chosen by the plan, run on the padded input and on the filter from the corrected cache. The arena's cursor then stands at the plan's total and its capacity is the larger of the old capacity and that total |

## Left out

- The bodies of `Conv2dNeonK1x1S1`, `Conv2dNeonK3x3S1` and `Conv2dNeonK3x3S2` (lines 68-97) are SIMD kernels whose code is not part of this model. The same holds for `WinoGradConv3x3s1`, `TransformFilter4x4` and `TransformFilter8x8`, from `conv_winograd.h`, which is not part of this model. They are function parameters; only the length of what they produce is constrained. The kernel parameter receives the Winograd output tile (line 332). It does not receive the `transformed_input`/`transformed_output` scratch buffers (lines 333-334), which are the Winograd kernel's private workspace; the model carves them but does not pass them on.
- Winograd's agreement with direct convolution "within tolerance" is not modelled. It depends on floating-point transforms.
- `CalcNCHWPaddingAndOutputSize` and `CalcNCHWOutputSize` are not modelled: the output shape and the total paddings are inputs. `ConstructNCHWInputWithSpecificPadding` is a parameter.
- `DoActivation` (line 450) is not modelled; `Run`'s result is the output before activation.
- `StatsFuture` and the `Tensor` storage class are not modelled. `Resize` and `Clear` on the output become a fresh zero-filled array.
- The scratch buffer is modelled as a cursor and a capacity only; its byte storage and its allocator are left out.
- The OpenMP `parallel for` loops (lines 39, 422, 440) are modelled as sequential loops. `DirectConv.ParallelWritesDisjoint` states that their iterations write disjoint cells.
- Float arithmetic is modelled with integer values: no rounding, NaN or infinities.
- `index_t` (64-bit) overflow is not modelled, because all quantities are unbounded integers.
- Paddings are modelled as non-negative. The paddings computed by `CalcNCHWPaddingAndOutputSize` are assumed non-negative, and so are a functor's configured `paddings_`, which the source never checks.
- The `default: MACE_NOT_IMPLEMENTED` branch of the tile switch (line 316) is unreachable, because the tile is always 2 or 6. `WinogradFilter` requires it.
- `Conv2dNCHW`'s seven loops are split over several methods: the batch and channel loops (`Conv2dNCHW`), the row loop (`ConvPlane`), the column loop (`ConvRow`), the input-channel loop (`AccumulatePoint`) and the two filter-tap loops (`AccumulateChannel`). The crop's row copy (`CopyRow`) and the bias loop's plane (`AddBiasPlane`) are split out the same way. The order of the writes is unchanged.
- NeonConv2d.Conv2dFunctor.Run: requires that the output shape fits the padded input (`OutputFitsPadded`). The source does not check this itself: its shape planners guarantee it.
- NeonConv2d.Conv2dFunctor.Run: follows the corrected transformed-filter cache of "## Findings", not lines 298-302 as written. On a functor with a pre-transformed filter the source resizes the empty cache on the first call and hands the kernel the unwritten cache from the second call on; `Run` hands it the call's own filter every time. `WinogradFilterAsWritten` and `PreTransformedSecondCallAsWritten` model the code as written, and `CorrectionOnlyAffectsPreTransformed` shows the two agree on every call whose filter is not pre-transformed.
- NeonConv2d.Conv2dFunctor.WinogradFilterFor: updates the cache as the corrected `WinogradFilter` does, so it does not resize the cache for a pre-transformed filter as line 299 does.
- A pre-transformed filter with a stride other than 1 still goes to the Winograd kernel, which computes a stride-1 result. The model reproduces that dispatch and does not relate its result to the requested stride.

## Findings

| source | as written | input that shows it | evidently intended | confidence | as-written member | corrected member |
|---|---|---|---|---|---|---|
| mace/kernels/arm/conv_2d.cc:298-302 | `transformed_filter_` is resized before the `is_filter_transformed_` test, so a functor built for a pre-transformed filter leaves the cache resized but never written | two successive calls on a functor with `is_filter_transformed_` true: the second finds `dim_size() != 0` and hands the kernel the unwritten cache instead of `filter_data` | resize and fill the cache only when the filter is not pre-transformed, so a pre-transformed filter is always read directly | high; not executed | NeonConv2d.PreTransformedSecondCallAsWritten | NeonConv2d.PreTransformedAlwaysUsesFilter |
