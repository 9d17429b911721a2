// Conv2dFunctor<NEON, float>: the per-instance state (the lazily filled
// transformed_filter_ cache and the scratch arena), the fatal argument
// checks, and the driver operator() that ties planning, carving, the
// kernel call, the crop and the bias together.

module NeonConv2d {
  import opened Wrappers
  import Arith
  import opened ConvPlan
  import ScratchArena
  import DirectConv
  import OutputStage

  /** A feature map: NCHW shape and its contiguous data. */
  datatype FeatureMap = FeatureMap(shape: Shape4, data: seq<int>)

  /** A filter tensor: OIHW (4 dims), or TOC (3 dims) when pre-transformed. */
  datatype FilterTensor = FilterTensor(shape: seq<nat>, data: seq<int>)

  /** The fatal checks of operator(), in the order they fire. */
  datatype Fatal =
    | NullInput | NullFilter | NullOutput
    | FilterOutputChannels | FilterInputChannels | BatchMismatch

  predicate FeatureMapValid(x: FeatureMap)
  {
    |x.data| == Arith.Count(Arith.Dims4(x.shape.batch, x.shape.channels, x.shape.height, x.shape.width))
  }

  predicate FilterRankOk(f: FilterTensor, transformed: bool)
  {
    if transformed then |f.shape| == 3 else |f.shape| == 4
  }

  /**
   * The filter shape the driver works with (lines 108-116): a
   * pre-transformed TOC filter (taps, out, in) is read as OIHW
   * (out, in, 3, 3); otherwise the tensor's own OIHW shape.
   */
  function FilterShapeOIHW(f: FilterTensor, transformed: bool): (s: seq<nat>)
    requires FilterRankOk(f, transformed)
    ensures |s| == 4
    ensures transformed ==> s[0] == f.shape[1] && s[1] == f.shape[2] && s[2] == 3 && s[3] == 3
    ensures !transformed ==> s == f.shape
  {
    if transformed then [f.shape[1], f.shape[2], 3, 3] else f.shape
  }

  /**
   * The fatal argument checks (lines 104-106, 149-151, 159): the call
   * proceeds exactly when input, filter and output are all given, the
   * filter's O and I match the output and input channel counts, and the
   * batches agree; otherwise the first failing check is reported. On
   * success the OIHW filter shape is returned.
   */
  function CheckArguments(input: Option<FeatureMap>, filter: Option<FilterTensor>, outputGiven: bool,
                          transformed: bool, outShape: Shape4): (r: Result<seq<nat>, Fatal>)
    requires filter.Some? ==> FilterRankOk(filter.value, transformed)
    ensures input.None? ==> r == Failure(NullInput)
    ensures input.Some? && filter.None? ==> r == Failure(NullFilter)
    ensures input.Some? && filter.Some? && !outputGiven ==> r == Failure(NullOutput)
    ensures r.Success? <==>
      input.Some? && filter.Some? && outputGiven &&
      FilterShapeOIHW(filter.value, transformed)[0] == outShape.channels &&
      FilterShapeOIHW(filter.value, transformed)[1] == input.value.shape.channels &&
      outShape.batch == input.value.shape.batch
    ensures r.Success? ==> r.value == FilterShapeOIHW(filter.value, transformed)
    ensures input.Some? && filter.Some? && outputGiven ==>
      var s := FilterShapeOIHW(filter.value, transformed);
      (s[0] != outShape.channels ==> r == Failure(FilterOutputChannels)) &&
      (s[0] == outShape.channels && s[1] != input.value.shape.channels ==> r == Failure(FilterInputChannels)) &&
      ((s[0] == outShape.channels && s[1] == input.value.shape.channels &&
        outShape.batch != input.value.shape.batch) ==> r == Failure(BatchMismatch))
  {
    if input.None? then Failure(NullInput)
    else if filter.None? then Failure(NullFilter)
    else if !outputGiven then Failure(NullOutput)
    else
      var s := FilterShapeOIHW(filter.value, transformed);
      if s[0] != outShape.channels then Failure(FilterOutputChannels)
      else if s[1] != input.value.shape.channels then Failure(FilterInputChannels)
      else if outShape.batch != input.value.shape.batch then Failure(BatchMismatch)
      else Success(s)
  }

  // ---- the transformed-filter cache ----

  /** transformed_filter_: its shape (empty until first resized) and its data. */
  datatype FilterCache = FilterCache(shape: seq<nat>, data: seq<int>)

  const EmptyCache := FilterCache([], [])

  /** A Winograd filter transform kernel (filter, in_channels, out_channels) -> taps. */
  type FilterTransform = (seq<int>, nat, nat) -> seq<int>

  /**
   * Lines 297-322 as written: on a call that finds the cache empty the
   * cache is resized first and only then is the pre-transformed case
   * distinguished, so a pre-transformed filter leaves a resized cache whose
   * data is never written.
   */
  function WinogradFilterAsWritten(cache: FilterCache, preTransformed: bool, tile: nat, tfShape: seq<nat>,
                                   filterData: seq<int>, inC: nat, outC: nat,
                                   transform4x4: FilterTransform, transform8x8: FilterTransform)
    : (r: (FilterCache, seq<int>))
    requires tile == 2 || tile == 6
    requires |tfShape| > 0
    ensures |cache.shape| != 0 ==> r == (cache, cache.data)
    ensures |cache.shape| == 0 ==> r.0.shape == tfShape
    ensures |cache.shape| == 0 && preTransformed ==> r == (FilterCache(tfShape, cache.data), filterData)
  {
    if |cache.shape| == 0 then
      var resized := FilterCache(tfShape, cache.data);
      if preTransformed then (resized, filterData)
      else
        var t := if tile == 2 then transform4x4(filterData, inC, outC) else transform8x8(filterData, inC, outC);
        (FilterCache(tfShape, t), t)
    else
      (cache, cache.data)
  }

  /**
   * The Winograd filter the kernel reads, with the cache resized only when
   * it is about to be filled. The transform runs only on a call that finds
   * the cache empty and is reused, unchanged, afterwards (there is no
   * invalidation); a pre-transformed filter is always used directly.
   */
  function WinogradFilter(cache: FilterCache, preTransformed: bool, tile: nat, tfShape: seq<nat>,
                          filterData: seq<int>, inC: nat, outC: nat,
                          transform4x4: FilterTransform, transform8x8: FilterTransform)
    : (r: (FilterCache, seq<int>))
    requires tile == 2 || tile == 6
    requires |tfShape| > 0
    ensures |cache.shape| != 0 ==> r == (cache, cache.data)
    ensures |cache.shape| == 0 && preTransformed ==> r == (cache, filterData)
    ensures |cache.shape| == 0 && !preTransformed ==>
      r.0 == FilterCache(tfShape, r.1) &&
      r.1 == (if tile == 2 then transform4x4(filterData, inC, outC) else transform8x8(filterData, inC, outC))
  {
    if |cache.shape| == 0 then
      if preTransformed then (cache, filterData)
      else
        var t := if tile == 2 then transform4x4(filterData, inC, outC) else transform8x8(filterData, inC, outC);
        (FilterCache(tfShape, t), t)
    else
      (cache, cache.data)
  }

  /**
   * As written, the second call on a functor built for a pre-transformed
   * filter reads the resized-but-unwritten cache (here: no data at all)
   * instead of the filter it was given.
   */
  lemma PreTransformedSecondCallAsWritten(filterData: seq<int>, tile: nat, tfShape: seq<nat>, inC: nat, outC: nat,
                                          transform4x4: FilterTransform, transform8x8: FilterTransform)
    requires tile == 2 || tile == 6
    requires |tfShape| > 0 && filterData != []
    ensures
      var first := WinogradFilterAsWritten(EmptyCache, true, tile, tfShape, filterData, inC, outC,
                                           transform4x4, transform8x8);
      var second := WinogradFilterAsWritten(first.0, true, tile, tfShape, filterData, inC, outC,
                                            transform4x4, transform8x8);
      first.1 == filterData && second.1 == [] && second.1 != filterData
  {
  }

  /**
   * With the cache resized only when it is filled, a functor built for a
   * pre-transformed filter keeps its cache empty and every call, however
   * many came before, reads the filter it is given.
   */
  lemma {:induction false} PreTransformedAlwaysUsesFilter(filters: seq<seq<int>>, tile: nat, tfShape: seq<nat>,
                                                          inC: nat, outC: nat,
                                                          transform4x4: FilterTransform, transform8x8: FilterTransform)
    requires tile == 2 || tile == 6
    requires |tfShape| > 0
    ensures
      var cache := CacheAfter(EmptyCache, true, tile, tfShape, filters, inC, outC, transform4x4, transform8x8);
      cache == EmptyCache &&
      (forall f :: WinogradFilter(cache, true, tile, tfShape, f, inC, outC, transform4x4, transform8x8).1 == f)
  {
    if filters != [] {
      PreTransformedAlwaysUsesFilter(filters[..|filters| - 1], tile, tfShape, inC, outC, transform4x4, transform8x8);
    }
  }

  /**
   * From the same cache, one call reads the same filter under both
   * versions, and the versions agree outright for a filter that is not
   * pre-transformed or a cache already filled. They differ only in whether
   * a pre-transformed call leaves an empty cache resized, which is what
   * sends the next call astray (PreTransformedSecondCallAsWritten).
   */
  lemma CorrectionOnlyAffectsPreTransformed(cache: FilterCache, preTransformed: bool, tile: nat, tfShape: seq<nat>,
                                            filterData: seq<int>, inC: nat, outC: nat,
                                            transform4x4: FilterTransform, transform8x8: FilterTransform)
    requires tile == 2 || tile == 6
    requires |tfShape| > 0
    ensures
      var asWritten := WinogradFilterAsWritten(cache, preTransformed, tile, tfShape, filterData, inC, outC,
                                               transform4x4, transform8x8);
      var corrected := WinogradFilter(cache, preTransformed, tile, tfShape, filterData, inC, outC,
                                      transform4x4, transform8x8);
      (!preTransformed || |cache.shape| != 0 ==> asWritten == corrected) &&
      asWritten.1 == corrected.1 &&
      asWritten.0.data == corrected.0.data
  {
  }

  /** The cache after a sequence of calls with the given filters. */
  function CacheAfter(cache: FilterCache, preTransformed: bool, tile: nat, tfShape: seq<nat>,
                      filters: seq<seq<int>>, inC: nat, outC: nat,
                      transform4x4: FilterTransform, transform8x8: FilterTransform): FilterCache
    requires tile == 2 || tile == 6
    requires |tfShape| > 0
  {
    if filters == [] then cache
    else
      var before := CacheAfter(cache, preTransformed, tile, tfShape, filters[..|filters| - 1], inC, outC,
                               transform4x4, transform8x8);
      WinogradFilter(before, preTransformed, tile, tfShape, filters[|filters| - 1], inC, outC,
                     transform4x4, transform8x8).0
  }

  /**
   * Once a call has filled the cache, every later call -- whatever filter
   * it is given -- reads the filter transformed on that first call.
   */
  lemma {:induction false} CacheNeverInvalidated(first: seq<int>, later: seq<seq<int>>, tile: nat, tfShape: seq<nat>,
                                                 inC: nat, outC: nat,
                                                 transform4x4: FilterTransform, transform8x8: FilterTransform)
    requires tile == 2 || tile == 6
    requires |tfShape| > 0
    ensures
      var t := if tile == 2 then transform4x4(first, inC, outC) else transform8x8(first, inC, outC);
      var cache := CacheAfter(EmptyCache, false, tile, tfShape, [first] + later, inC, outC,
                              transform4x4, transform8x8);
      cache == FilterCache(tfShape, t) &&
      (forall f :: WinogradFilter(cache, false, tile, tfShape, f, inC, outC, transform4x4, transform8x8).1 == t)
  {
    if later != [] {
      CacheNeverInvalidated(first, later[..|later| - 1], tile, tfShape, inC, outC, transform4x4, transform8x8);
      assert ([first] + later)[..|[first] + later| - 1] == [first] + later[..|later| - 1];
    } else {
      assert [first] + later == [first];
      assert [first][..0] == [];
    }
  }

  // ---- kernel geometry ----

  /**
   * The scalar arguments the chosen kernel is called with: the batch and
   * channel counts, the rounded extents, and the kernel's own window (the
   * Winograd kernel is a 3x3, stride 1, dilation 1 convolution).
   */
  function KernelDims(a: Algorithm, e: Extents, output: Shape4, inC: nat, fh: nat, fw: nat, p: ConvParams)
    : DirectConv.ConvDims
  {
    if a == Winograd then
      DirectConv.ConvDims(output.batch, e.inH, e.inW, inC, e.outH, e.outW, output.channels, 3, 3, 1, 1, 1, 1)
    else
      DirectConv.ConvDims(output.batch, e.inH, e.inW, inC, e.outH, e.outW, output.channels,
                          fh, fw, p.strideH, p.strideW, p.dilationH, p.dilationW)
  }

  /** The planned output fits the padded input (what the shape planner guarantees). */
  predicate OutputFitsPadded(input: Shape4, output: Shape4, fh: nat, fw: nat, p: ConvParams, paddings: (nat, nat))
  {
    (output.height == 0 || fh == 0 || (output.height - 1) * p.strideH + (fh - 1) * p.dilationH < input.height + paddings.0) &&
    (output.width == 0 || fw == 0 || (output.width - 1) * p.strideW + (fw - 1) * p.dilationW < input.width + paddings.1)
  }

  /**
   * Whatever kernel is chosen, the rounded input extent covers the window
   * of every cell of the rounded output extent: the kernel never reads
   * outside the (padded) input.
   */
  lemma ExtentsCoverKernelWindow(input: Shape4, output: Shape4, fh: nat, fw: nat, p: ConvParams, paddings: (nat, nat))
    requires OutputFitsPadded(input, output, fh, fw, p, paddings)
    ensures
      var a := SelectAlgorithm(fh, fw, input.channels, output.channels, p);
      var e := ExtraExtents(a, WinogradTile(input.height, input.width), input.height + paddings.0,
                            input.width + paddings.1, output.height, output.width);
      DirectConv.Covers(KernelDims(a, e, output, input.channels, fh, fw, p))
  {
    var a := SelectAlgorithm(fh, fw, input.channels, output.channels, p);
    var tile := WinogradTile(input.height, input.width);
    EligibleKernelCovers(a, tile, input, output, fh, fw, p, paddings);
  }

  /** ExtentsCoverKernelWindow for any eligible kernel, whatever the dispatch order. */
  lemma EligibleKernelCovers(a: Algorithm, tile: nat, input: Shape4, output: Shape4, fh: nat, fw: nat,
                             p: ConvParams, paddings: (nat, nat))
    requires tile > 0
    requires Eligible(a, fh, fw, input.channels, output.channels, p)
    requires OutputFitsPadded(input, output, fh, fw, p, paddings)
    ensures
      var e := ExtraExtents(a, tile, input.height + paddings.0, input.width + paddings.1,
                            output.height, output.width);
      DirectConv.Covers(KernelDims(a, e, output, input.channels, fh, fw, p))
  {
    var e := ExtraExtents(a, tile, input.height + paddings.0, input.width + paddings.1, output.height, output.width);
    var d := KernelDims(a, e, output, input.channels, fh, fw, p);
    match a
    case Winograd =>
      CoversStrideOne(d);
    case Neon3x3S1 =>
      CoversStrideOne(d);
    case Neon3x3S2 =>
      CoversStrideTwo(d);
    case Neon1x1S1 =>
      assert d.inH == input.height + paddings.0 && d.inW == input.width + paddings.1;
      assert d.outH == output.height && d.outW == output.width;
    case Direct =>
      assert d.inH == input.height + paddings.0 && d.inW == input.width + paddings.1;
      assert d.outH == output.height && d.outW == output.width;
  }

  /** A 3x3, stride 1, dilation 1 window fits when the input is two larger than the output. */
  lemma CoversStrideOne(d: DirectConv.ConvDims)
    requires d.fH == 3 && d.fW == 3 && d.sH == 1 && d.sW == 1 && d.dH == 1 && d.dW == 1
    requires d.inH >= d.outH + 2 && d.inW >= d.outW + 2
    ensures DirectConv.Covers(d)
  {
  }

  /** A 3x3, stride 2, dilation 1 window fits when the input is 2 * (output - 1) + 3 large. */
  lemma CoversStrideTwo(d: DirectConv.ConvDims)
    requires d.fH == 3 && d.fW == 3 && d.sH == 2 && d.sW == 2 && d.dH == 1 && d.dW == 1
    requires d.inH >= (d.outH - 1) * 2 + 3 && d.inW >= (d.outW - 1) * 2 + 3
    ensures DirectConv.Covers(d)
  {
  }

  // ---- scratch carving ----

  /** The four scratch regions, in the order operator() carves them. */
  function SizeList(s: ScratchSizes): seq<nat>
  {
    [s.transformedInput, s.transformedOutput, s.paddedInput, s.paddedOutput]
  }

  lemma SizeListSum(s: ScratchSizes)
    ensures ScratchArena.Sum(SizeList(s)) == Total(s)
  {
    var l := SizeList(s);
    assert l[1..][1..][1..][1..] == [];
    assert ScratchArena.Sum(l[1..][1..][1..]) == s.paddedOutput;
    assert ScratchArena.Sum(l[1..][1..]) == s.paddedInput + s.paddedOutput;
    assert ScratchArena.Sum(l[1..]) == s.transformedOutput + s.paddedInput + s.paddedOutput;
  }

  // ---- collaborators outside this model ----

  /** ConstructNCHWInputWithSpecificPadding: the input with the given zero borders. */
  type PadInputFn = (seq<int>, Shape4, Pads) -> seq<int>

  /**
   * One of the NEON / Winograd kernels: (kernel, Winograd output tile, padded
   * input, filter, geometry) -> padded output.
   */
  type KernelFn = (Algorithm, nat, seq<int>, seq<int>, DirectConv.ConvDims) -> seq<int>

  /** The padding routine fills a buffer of the padded shape. */
  ghost predicate PadInputSized(pad: PadInputFn)
  {
    forall x, s, p {:trigger pad(x, s, p)} ::
      |pad(x, s, p)| == s.batch * s.channels * (s.height + p.top + p.bottom) * (s.width + p.left + p.right)
  }

  /** A kernel writes the whole of the output extent it is given. */
  ghost predicate KernelSized(kernel: KernelFn)
  {
    forall a, t, x, f, d {:trigger kernel(a, t, x, f, d)} :: |kernel(a, t, x, f, d)| == Arith.Count(DirectConv.OutDims(d))
  }

  lemma ProductOfFour(s: seq<nat>)
    requires |s| == 4
    ensures Product(s) == Arith.Count(Arith.Dims4(s[0], s[1], s[2], s[3]))
  {
    assert s[1..][1..][1..][1..] == [];
    assert Product(s[1..][1..][1..]) == s[3];
    assert Product(s[1..][1..]) == s[2] * s[3];
    assert Product(s[1..]) == s[1] * (s[2] * s[3]);
    Arith.MulAssoc(s[0], s[1], s[2] * s[3]);
    Arith.MulAssoc(s[0] * s[1], s[2], s[3]);
  }

  function ShapeDims(s: Shape4): Arith.Dims4
  {
    Arith.Dims4(s.batch, s.channels, s.height, s.width)
  }

  /** The input the kernel reads: the padded copy when the extents grew, else the input itself. */
  function KernelInput(x: FeatureMap, plan: Plan, pad: PadInputFn): seq<int>
  {
    if plan.extents.inH != x.shape.height || plan.extents.inW != x.shape.width
    then pad(x.data, x.shape, plan.pads)
    else x.data
  }

  /**
   * The values the chosen kernel leaves in the padded output (the output
   * itself when the extents did not grow): the generic loop computes the
   * direct correlation, the other kernels are given by `kernel`.
   */
  ghost function KernelOutput(a: Algorithm, tile: nat, input: seq<int>, filter: seq<int>, d: DirectConv.ConvDims,
                              kernel: KernelFn): seq<int>
    requires a == Direct ==> DirectConv.WellFormed(input, filter, d)
  {
    if a == Direct then
      seq(Arith.Count(DirectConv.OutDims(d)), i requires 0 <= i < Arith.Count(DirectConv.OutDims(d)) =>
        DirectConv.Expected(input, filter, d, i))
    else kernel(a, tile, input, filter, d)
  }

  /** The values operator() leaves in the output: the crop of the kernel's extent plus the bias. */
  function OutputValues(k: seq<int>, bias: Option<seq<int>>, logical: Arith.Dims4, padded: Arith.Dims4)
    : (out: seq<int>)
    requires |k| == Arith.Count(padded)
    requires logical.d0 == padded.d0 && logical.d1 == padded.d1
    requires logical.d2 <= padded.d2 && logical.d3 <= padded.d3
    requires bias.Some? ==> |bias.value| >= logical.d1
    ensures |out| == Arith.Count(logical)
    ensures forall b: nat, m: nat, h: nat, w: nat :: Arith.InRange(logical, b, m, h, w) ==>
      out[Arith.Offset(logical, b, m, h, w)] == k[Arith.Offset(padded, b, m, h, w)] + OutputStage.BiasAt(bias, m)
  {
    var out := seq(Arith.Count(logical), i requires 0 <= i < Arith.Count(logical) =>
      k[OutputStage.SourceCell(logical, padded, i)] + OutputStage.BiasAt(bias, OutputStage.ChannelOf(logical, i)));
    assert forall b: nat, m: nat, h: nat, w: nat :: Arith.InRange(logical, b, m, h, w) ==>
      out[Arith.Offset(logical, b, m, h, w)] == k[Arith.Offset(padded, b, m, h, w)] + OutputStage.BiasAt(bias, m) by {
      forall b: nat, m: nat, h: nat, w: nat | Arith.InRange(logical, b, m, h, w)
        ensures out[Arith.Offset(logical, b, m, h, w)] == k[Arith.Offset(padded, b, m, h, w)] + OutputStage.BiasAt(bias, m)
      {
        Arith.DecodeOffset(logical, b, m, h, w);
      }
    }
    out
  }

  /** The arguments of one operator() call. */
  datatype Call = Call(input: Option<FeatureMap>, filter: Option<FilterTensor>, bias: Option<seq<int>>,
                       outputGiven: bool, outShape: Shape4, paddings: (nat, nat))

  /** The routines operator() calls that are not part of this model. */
  datatype Collaborators = Collaborators(pad: PadInputFn, kernel: KernelFn,
                                         transform4x4: FilterTransform, transform8x8: FilterTransform)

  /**
   * What a call may assume: tensors hold as many values as their shapes
   * say, the bias has a value per output channel, the output shape is the
   * one planned for this input (it fits the padded input), and the
   * collaborators fill buffers of the sizes they are given.
   */
  ghost predicate CallOk(p: ConvParams, c: Call, ks: Collaborators)
  {
    PadInputSized(ks.pad) && KernelSized(ks.kernel) &&
    (c.input.Some? ==> FeatureMapValid(c.input.value)) &&
    (c.filter.Some? ==>
       FilterRankOk(c.filter.value, p.filterTransformed) &&
       |c.filter.value.data| == Product(c.filter.value.shape)) &&
    (c.bias.Some? ==> |c.bias.value| >= c.outShape.channels) &&
    (c.input.Some? && c.filter.Some? ==>
       var fs := FilterShapeOIHW(c.filter.value, p.filterTransformed);
       OutputFitsPadded(c.input.value.shape, c.outShape, fs[2], fs[3], p, c.paddings))
  }

  /** The plan of a call that passed the checks, with `fs` its OIHW filter shape. */
  function CallPlan(p: ConvParams, c: Call, fs: seq<nat>): Plan
    requires c.input.Some? && |fs| == 4
  {
    MakePlan(c.input.value.shape, c.outShape, fs[2], fs[3], p, c.paddings)
  }

  function CallDims(p: ConvParams, c: Call, fs: seq<nat>): DirectConv.ConvDims
    requires c.input.Some? && |fs| == 4
  {
    var plan := CallPlan(p, c, fs);
    KernelDims(plan.algorithm, plan.extents, c.outShape, c.input.value.shape.channels, fs[2], fs[3], p)
  }

  /** The filter the kernel reads and the cache afterwards. */
  function CallFilter(cache: FilterCache, p: ConvParams, c: Call, ks: Collaborators, fs: seq<nat>)
    : (r: (FilterCache, seq<int>))
    requires c.input.Some? && c.filter.Some? && |fs| == 4
  {
    var plan := CallPlan(p, c, fs);
    if plan.algorithm == Winograd then
      WinogradFilter(cache, p.filterTransformed, plan.tile, plan.transformedFilterShape, c.filter.value.data,
                     fs[1], fs[0], ks.transform4x4, ks.transform8x8)
    else (cache, c.filter.value.data)
  }

  /**
   * The geometry facts a call that passed the checks can rely on: the
   * kernel's input is as large as its extents say, the generic loop's
   * buffers are well formed, and the kernel's output extent contains the
   * logical output.
   */
  lemma CallFacts(cache: FilterCache, p: ConvParams, c: Call, ks: Collaborators)
    requires CallOk(p, c, ks)
    requires CheckArguments(c.input, c.filter, c.outputGiven, p.filterTransformed, c.outShape).Success?
    ensures
      var fs := CheckArguments(c.input, c.filter, c.outputGiven, p.filterTransformed, c.outShape).value;
      var plan := CallPlan(p, c, fs);
      var d := CallDims(p, c, fs);
      var f := CallFilter(cache, p, c, ks, fs).1;
      var x := KernelInput(c.input.value, plan, ks.pad);
      |x| == Arith.Count(DirectConv.InDims(d)) &&
      (plan.algorithm == Direct ==> DirectConv.WellFormed(x, f, d)) &&
      d.batch == c.outShape.batch && d.outC == c.outShape.channels &&
      d.outH >= c.outShape.height && d.outW >= c.outShape.width &&
      (plan.algorithm == Direct ==> d.outH == c.outShape.height && d.outW == c.outShape.width)
  {
    var fs := CheckArguments(c.input, c.filter, c.outputGiven, p.filterTransformed, c.outShape).value;
    var xs := c.input.value.shape;
    var plan := CallPlan(p, c, fs);
    var d := CallDims(p, c, fs);
    PlanParts(xs, c.outShape, fs[2], fs[3], p, c.paddings);
    ExtentsCoverKernelWindow(xs, c.outShape, fs[2], fs[3], p, c.paddings);
    KernelInputSize(c.input.value, plan, ks.pad);
    assert DirectConv.InDims(d) == Arith.Dims4(xs.batch, xs.channels, plan.extents.inH, plan.extents.inW);
    if plan.algorithm == Direct {
      DirectFilterSize(c.filter.value, d);
    }
  }

  /** The kernel's input holds a value per cell of the padded input extent. */
  lemma KernelInputSize(x: FeatureMap, plan: Plan, pad: PadInputFn)
    requires PadInputSized(pad) && FeatureMapValid(x)
    requires x.shape.height + plan.pads.top + plan.pads.bottom == plan.extents.inH
    requires x.shape.width + plan.pads.left + plan.pads.right == plan.extents.inW
    ensures |KernelInput(x, plan, pad)| ==
            Arith.Count(Arith.Dims4(x.shape.batch, x.shape.channels, plan.extents.inH, plan.extents.inW))
  {
  }

  /** An OIHW filter whose data matches its shape fits the geometry built from that shape. */
  lemma DirectFilterSize(f: FilterTensor, d: DirectConv.ConvDims)
    requires |f.shape| == 4 && |f.data| == Product(f.shape)
    requires d.outC == f.shape[0] && d.inC == f.shape[1] && d.fH == f.shape[2] && d.fW == f.shape[3]
    ensures |f.data| == Arith.Count(DirectConv.FilterDims(d))
  {
    ProductOfFour(f.shape);
  }

  /**
   * The effect of one operator() call on a functor whose cache is `cache`:
   * the first failing check, or the output values; and the cache after
   * the call.
   */
  ghost function Conv2dOutcome(cache: FilterCache, p: ConvParams, c: Call, ks: Collaborators)
    : (r: (Result<seq<int>, Fatal>, FilterCache))
    requires CallOk(p, c, ks)
    ensures r.0.Success? <==> CheckArguments(c.input, c.filter, c.outputGiven, p.filterTransformed, c.outShape).Success?
    ensures r.0.Failure? ==> r.1 == cache
    ensures r.0.Success? ==> |r.0.value| == Arith.Count(ShapeDims(c.outShape))
  {
    var checked := CheckArguments(c.input, c.filter, c.outputGiven, p.filterTransformed, c.outShape);
    if checked.Failure? then (Failure(checked.error), cache)
    else
      var fs := checked.value;
      var plan := CallPlan(p, c, fs);
      var d := CallDims(p, c, fs);
      var (cache', f) := CallFilter(cache, p, c, ks, fs);
      CallFacts(cache, p, c, ks);
      var k := KernelOutput(plan.algorithm, plan.tile, KernelInput(c.input.value, plan, ks.pad), f, d, ks.kernel);
      (Success(OutputValues(k, c.bias, ShapeDims(c.outShape), DirectConv.OutDims(d))), cache')
  }

  /**
   * A call that takes the generic path computes, in every output cell
   * (b, m, h, w), the direct correlation of the (padded) input with the
   * filter at that cell plus the bias of channel m.
   */
  lemma DirectOutcomeIsCorrelation(cache: FilterCache, p: ConvParams, c: Call, ks: Collaborators)
    requires CallOk(p, c, ks)
    requires CheckArguments(c.input, c.filter, c.outputGiven, p.filterTransformed, c.outShape).Success?
    requires CallPlan(p, c, CheckArguments(c.input, c.filter, c.outputGiven, p.filterTransformed, c.outShape).value)
               .algorithm == Direct
    ensures
      var fs := CheckArguments(c.input, c.filter, c.outputGiven, p.filterTransformed, c.outShape).value;
      var d := CallDims(p, c, fs);
      var x := KernelInput(c.input.value, CallPlan(p, c, fs), ks.pad);
      var r := Conv2dOutcome(cache, p, c, ks).0;
      r.Success? && DirectConv.WellFormed(x, c.filter.value.data, d) &&
      forall b: nat, m: nat, h: nat, w: nat :: Arith.InRange(ShapeDims(c.outShape), b, m, h, w) ==>
        DirectConv.ValidPoint(d, DirectConv.Point(b, m, h, w)) &&
        r.value[Arith.Offset(ShapeDims(c.outShape), b, m, h, w)] ==
          DirectConv.ConvPoint(x, c.filter.value.data, d, DirectConv.Point(b, m, h, w)) + OutputStage.BiasAt(c.bias, m)
  {
    var fs := CheckArguments(c.input, c.filter, c.outputGiven, p.filterTransformed, c.outShape).value;
    var d := CallDims(p, c, fs);
    var x := KernelInput(c.input.value, CallPlan(p, c, fs), ks.pad);
    var f := c.filter.value.data;
    assert CallFilter(cache, p, c, ks, fs).1 == f && ShapeDims(c.outShape) == DirectConv.OutDims(d) &&
           DirectConv.WellFormed(x, f, d) && (c.bias.Some? ==> |c.bias.value| >= d.outC) by {
      CallFacts(cache, p, c, ks);
    }
    var dims := DirectConv.OutDims(d);
    assert Conv2dOutcome(cache, p, c, ks).0 ==
      Success(OutputValues(KernelOutput(Direct, CallPlan(p, c, fs).tile, x, f, d, ks.kernel), c.bias, dims, dims)) by {
      SuccessOutcome(cache, p, c, ks);
    }
    DirectOutputCells(CallPlan(p, c, fs).tile, x, f, d, ks.kernel, c.bias);
  }

  /** The outcome of a call that passed the checks: the kernel's values, cropped and biased. */
  lemma SuccessOutcome(cache: FilterCache, p: ConvParams, c: Call, ks: Collaborators)
    requires CallOk(p, c, ks)
    requires CheckArguments(c.input, c.filter, c.outputGiven, p.filterTransformed, c.outShape).Success?
    ensures
      var fs := CheckArguments(c.input, c.filter, c.outputGiven, p.filterTransformed, c.outShape).value;
      var plan := CallPlan(p, c, fs);
      var d := CallDims(p, c, fs);
      var f := CallFilter(cache, p, c, ks, fs).1;
      var x := KernelInput(c.input.value, plan, ks.pad);
      (plan.algorithm == Direct ==> DirectConv.WellFormed(x, f, d)) &&
      Conv2dOutcome(cache, p, c, ks).0 ==
        Success(OutputValues(KernelOutput(plan.algorithm, plan.tile, x, f, d, ks.kernel), c.bias, ShapeDims(c.outShape),
                             DirectConv.OutDims(d)))
  {
    CallFacts(cache, p, c, ks);
  }

  /** On the generic path the output extent is not rounded, so each output cell is its correlation plus bias. */
  lemma DirectOutputCells(tile: nat, x: seq<int>, f: seq<int>, d: DirectConv.ConvDims, kernel: KernelFn, bias: Option<seq<int>>)
    requires DirectConv.WellFormed(x, f, d)
    requires bias.Some? ==> |bias.value| >= d.outC
    ensures
      var dims := DirectConv.OutDims(d);
      var out := OutputValues(KernelOutput(Direct, tile, x, f, d, kernel), bias, dims, dims);
      forall b: nat, m: nat, h: nat, w: nat :: Arith.InRange(dims, b, m, h, w) ==>
        DirectConv.ValidPoint(d, DirectConv.Point(b, m, h, w)) &&
        out[Arith.Offset(dims, b, m, h, w)] ==
          DirectConv.ConvPoint(x, f, d, DirectConv.Point(b, m, h, w)) + OutputStage.BiasAt(bias, m)
  {
    var dims := DirectConv.OutDims(d);
    var k := KernelOutput(Direct, tile, x, f, d, kernel);
    forall b: nat, m: nat, h: nat, w: nat | Arith.InRange(dims, b, m, h, w)
      ensures k[Arith.Offset(dims, b, m, h, w)] == DirectConv.ConvPoint(x, f, d, DirectConv.Point(b, m, h, w))
    {
      Arith.DecodeOffset(dims, b, m, h, w);
    }
  }

  /** conv_func: the chosen kernel run on a cleared output extent. */
  method RunKernel(a: Algorithm, tile: nat, input: seq<int>, filter: seq<int>, d: DirectConv.ConvDims, kernel: KernelFn,
                   out: array<int>)
    requires a == Direct ==> DirectConv.WellFormed(input, filter, d)
    requires KernelSized(kernel)
    requires out.Length == Arith.Count(DirectConv.OutDims(d))
    requires forall i :: 0 <= i < out.Length ==> out[i] == 0
    modifies out
    ensures out[..] == KernelOutput(a, tile, input, filter, d, kernel)
  {
    if a == Direct {
      DirectConv.Conv2dNCHW(input, filter, d, out);
    } else {
      var k := kernel(a, tile, input, filter, d);
      forall i | 0 <= i < out.Length {
        out[i] := k[i];
      }
    }
  }

  /**
   * Lines 372-448: run the kernel on a cleared output extent (the output
   * itself when the extents did not grow), crop it into the logical
   * output, then add the bias.
   */
  method ConvolveAndFinish(a: Algorithm, tile: nat, padIn: seq<int>, f: seq<int>, d: DirectConv.ConvDims, kernel: KernelFn,
                           bias: Option<seq<int>>, logical: Arith.Dims4)
    returns (out: seq<int>)
    requires a == Direct ==> DirectConv.WellFormed(padIn, f, d)
    requires KernelSized(kernel)
    requires logical.d0 == d.batch && logical.d1 == d.outC && logical.d2 <= d.outH && logical.d3 <= d.outW
    requires bias.Some? ==> |bias.value| >= logical.d1
    ensures out == OutputValues(KernelOutput(a, tile, padIn, f, d, kernel), bias, logical, DirectConv.OutDims(d))
  {
    var padded := DirectConv.OutDims(d);
    var output := new int[Arith.Count(logical)](i => 0);
    ghost var k := KernelOutput(a, tile, padIn, f, d, kernel);
    if d.outH != logical.d2 || d.outW != logical.d3 {
      var padOut := new int[Arith.Count(padded)](i => 0);
      RunKernel(a, tile, padIn, f, d, kernel, padOut);
      OutputStage.CropOutput(padOut[..], d.batch, d.outC, logical.d2, logical.d3, d.outH, d.outW, output);
    } else {
      assert logical == padded;
      RunKernel(a, tile, padIn, f, d, kernel, output);
      forall i | 0 <= i < output.Length
        ensures output[i] == k[OutputStage.SourceCell(logical, padded, i)]
      {
      }
    }
    OutputStage.AddBias(bias, d.batch, d.outC, logical.d2, logical.d3, output);
    out := output[..];
    assert out == OutputValues(k, bias, logical, padded);
  }

  /** Conv2dFunctor<NEON, float>: its parameters, filter cache and scratch arena. */
  class Conv2dFunctor {
    const params: ConvParams
    const scratch: ScratchArena.ScratchBuffer
    var transformedFilter: FilterCache

    constructor (params: ConvParams, scratch: ScratchArena.ScratchBuffer)
      ensures this.params == params && this.scratch == scratch
      ensures transformedFilter == EmptyCache
    {
      this.params := params;
      this.scratch := scratch;
      transformedFilter := EmptyCache;
    }

    /** The Winograd filter for this call (lines 297-322, with the corrected cache: resized only when filled). */
    method WinogradFilterFor(tile: nat, tfShape: seq<nat>, filterData: seq<int>, inC: nat, outC: nat,
                             transform4x4: FilterTransform, transform8x8: FilterTransform)
      returns (ptr: seq<int>)
      requires tile == 2 || tile == 6
      requires |tfShape| > 0
      modifies this
      ensures (transformedFilter, ptr) ==
        WinogradFilter(old(transformedFilter), params.filterTransformed, tile, tfShape, filterData, inC, outC,
                       transform4x4, transform8x8)
    {
      if |transformedFilter.shape| == 0 {
        if params.filterTransformed {
          ptr := filterData;
        } else {
          if tile == 2 {
            ptr := transform4x4(filterData, inC, outC);
          } else {
            ptr := transform8x8(filterData, inC, outC);
          }
          transformedFilter := FilterCache(tfShape, ptr);
        }
      } else {
        ptr := transformedFilter.data;
      }
    }

    /**
     * operator() (lines 99-452): check the arguments, plan, carve the
     * scratch arena, fetch the Winograd filter, pad the input, run the
     * kernel on a cleared output extent, crop it into the output and add
     * the bias. The result and the cache afterwards are Conv2dOutcome's.
     */
    method Run(c: Call, ks: Collaborators) returns (r: Result<seq<int>, Fatal>)
      requires CallOk(params, c, ks)
      requires scratch.Valid()
      modifies this, scratch
      ensures scratch.Valid()
      ensures (r, transformedFilter) == Conv2dOutcome(old(transformedFilter), params, c, ks)
      ensures r.Failure? ==> scratch.capacity == old(scratch.capacity) && scratch.offset == old(scratch.offset)
      ensures r.Success? ==>
        var fs := CheckArguments(c.input, c.filter, c.outputGiven, params.filterTransformed, c.outShape).value;
        var total := CallPlan(params, c, fs).totalScratch;
        scratch.offset == total &&
        scratch.capacity == if old(scratch.capacity) >= total then old(scratch.capacity) else total
    {
      var checked := CheckArguments(c.input, c.filter, c.outputGiven, params.filterTransformed, c.outShape);
      if checked.Failure? {
        return Failure(checked.error);
      }
      var fs := checked.value;
      var x := c.input.value;
      var plan := MakePlan(x.shape, c.outShape, fs[2], fs[3], params, c.paddings);
      var views := CarveScratch(plan.sizes);
      var d := KernelDims(plan.algorithm, plan.extents, c.outShape, x.shape.channels, fs[2], fs[3], params);
      ghost var cache0 := transformedFilter;
      var f := c.filter.value.data;
      if plan.algorithm == Winograd {
        f := WinogradFilterFor(plan.tile, plan.transformedFilterShape, f, fs[1], fs[0],
                               ks.transform4x4, ks.transform8x8);
      }
      assert (transformedFilter, f) == CallFilter(cache0, params, c, ks, fs);
      CallFacts(cache0, params, c, ks);
      var padIn := KernelInput(x, plan, ks.pad);
      var out := ConvolveAndFinish(plan.algorithm, plan.tile, padIn, f, d, ks.kernel, c.bias, ShapeDims(c.outShape));
      r := Success(out);
    }

    /**
     * Lines 285-291: rewind the arena, grow it to the total, then take the
     * four regions in order. They are the carving of the four sizes from
     * offset 0, so they are pairwise disjoint and all lie inside the arena.
     */
    method CarveScratch(sizes: ScratchSizes) returns (views: seq<ScratchArena.View>)
      requires scratch.Valid()
      modifies scratch
      ensures scratch.Valid()
      ensures views == ScratchLayout(sizes)
      ensures scratch.capacity == if old(scratch.capacity) >= Total(sizes) then old(scratch.capacity) else Total(sizes)
      ensures scratch.offset == Total(sizes)
    {
      scratch.Rewind();
      scratch.GrowSize(Total(sizes));
      var ti := scratch.Scratch(sizes.transformedInput);
      var to := scratch.Scratch(sizes.transformedOutput);
      var pi := scratch.Scratch(sizes.paddedInput);
      var po := scratch.Scratch(sizes.paddedOutput);
      assert ti == ScratchArena.View(0, sizes.transformedInput);
      assert to == ScratchArena.View(sizes.transformedInput, sizes.transformedOutput);
      assert pi == ScratchArena.View(sizes.transformedInput + sizes.transformedOutput, sizes.paddedInput);
      views := [ti, to, pi, po];
      SizeListSum(sizes);
    }
  }

  /** The four regions operator() takes from a rewound arena, in order. */
  function ScratchLayout(s: ScratchSizes): seq<ScratchArena.View>
  {
    [ScratchArena.View(0, s.transformedInput),
     ScratchArena.View(s.transformedInput, s.transformedOutput),
     ScratchArena.View(s.transformedInput + s.transformedOutput, s.paddedInput),
     ScratchArena.View(s.transformedInput + s.transformedOutput + s.paddedInput, s.paddedOutput)]
  }

  /**
   * The layout is the carving of the four sizes from offset 0: the
   * regions have the sizes asked for, are pairwise disjoint and all lie
   * inside the first Total(s) bytes.
   */
  lemma ScratchLayoutIsCarve(s: ScratchSizes)
    ensures ScratchLayout(s) == ScratchArena.Carve(SizeList(s), 0)
    ensures forall i :: 0 <= i < 4 ==>
      ScratchLayout(s)[i].size == SizeList(s)[i] && ScratchLayout(s)[i].offset + ScratchLayout(s)[i].size <= Total(s)
    ensures forall i, j :: 0 <= i < 4 && 0 <= j < 4 && i != j ==>
      ScratchArena.Disjoint(ScratchLayout(s)[i], ScratchLayout(s)[j])
  {
    CarveFour(s);
    ScratchArena.CarveLayout(SizeList(s), 0);
    SizeListSum(s);
  }

  /** Carving the four sizes unfolds to the four explicit regions. */
  lemma CarveFour(s: ScratchSizes)
    ensures ScratchLayout(s) == ScratchArena.Carve(SizeList(s), 0)
  {
    CarveFourSizes(s.transformedInput, s.transformedOutput, s.paddedInput, s.paddedOutput);
  }

  lemma CarveFourSizes(a: nat, b: nat, c: nat, d: nat)
    ensures ScratchArena.Carve([a, b, c, d], 0) ==
      [ScratchArena.View(0, a), ScratchArena.View(a, b), ScratchArena.View(a + b, c), ScratchArena.View(a + b + c, d)]
  {
    CarveCons(a, [b, c, d], 0);
    assert [a] + [b, c, d] == [a, b, c, d];
    CarveThreeSizes(b, c, d, a);
  }

  lemma CarveThreeSizes(b: nat, c: nat, d: nat, start: nat)
    ensures ScratchArena.Carve([b, c, d], start) ==
      [ScratchArena.View(start, b), ScratchArena.View(start + b, c), ScratchArena.View(start + b + c, d)]
  {
    CarveCons(b, [c, d], start);
    assert [b] + [c, d] == [b, c, d];
    CarveTwoSizes(c, d, start + b);
  }

  lemma CarveTwoSizes(c: nat, d: nat, start: nat)
    ensures ScratchArena.Carve([c, d], start) == [ScratchArena.View(start, c), ScratchArena.View(start + c, d)]
  {
    CarveCons(c, [d], start);
    assert [c] + [d] == [c, d];
    CarveCons(d, [], start + c);
    assert [d] + [] == [d];
  }

  lemma CarveCons(x: nat, rest: seq<nat>, start: nat)
    ensures ScratchArena.Carve([x] + rest, start) == [ScratchArena.View(start, x)] + ScratchArena.Carve(rest, start + x)
  {
    assert ([x] + rest)[1..] == rest;
  }
}
