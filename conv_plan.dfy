// The planning arithmetic of the NEON float convolution driver: how the
// total padding is split, which of the five kernels runs, which Winograd
// tile is used, how far the input and output extents are rounded up for
// the chosen kernel, and how large the four scratch buffers are.
//
// The output shape and the two total paddings are inputs here: they come
// from the shape planner (CalcNCHWPaddingAndOutputSize / CalcNCHWOutputSize),
// which is not part of this model.

module ConvPlan {
  import Arith

  /** The five convolution kernels, in the order the driver tries them. */
  datatype Algorithm = Winograd | Neon3x3S1 | Neon3x3S2 | Neon1x1S1 | Direct

  /** The functor's configuration: strides_, dilations_ and is_filter_transformed_. */
  datatype ConvParams = ConvParams(
    strideH: nat, strideW: nat,
    dilationH: nat, dilationW: nat,
    filterTransformed: bool)

  /** An NCHW feature-map shape. */
  datatype Shape4 = Shape4(batch: nat, channels: nat, height: nat, width: nat)

  datatype Pads = Pads(top: nat, bottom: nat, left: nat, right: nat)

  /** Extents after rounding for the chosen kernel ("extra" input and output sizes). */
  datatype Extents = Extents(inH: nat, inW: nat, outH: nat, outW: nat)

  /** Byte sizes of the four scratch buffers, in carving order. */
  datatype ScratchSizes = ScratchSizes(
    transformedInput: nat, transformedOutput: nat,
    paddedInput: nat, paddedOutput: nat)

  datatype Plan = Plan(
    algorithm: Algorithm,
    tile: nat,
    pads: Pads,
    extents: Extents,
    transformedInputShape: seq<nat>,
    transformedOutputShape: seq<nat>,
    transformedFilterShape: seq<nat>,
    sizes: ScratchSizes,
    totalScratch: nat)

  /** sizeof(float) */
  const FloatBytes: nat := 4

  // ---- padding split ----

  /**
   * Splits a total padding into (top, bottom) or (left, right): the first
   * half is the total shifted right by one, the second takes the rest, so
   * the odd cell goes to the bottom/right side.
   */
  function SplitPadding(total: nat): (p: (nat, nat))
    ensures p.0 + p.1 == total
    ensures p.0 <= p.1 <= p.0 + 1
  {
    (total / 2, total - total / 2)
  }

  // ---- rounding ----

  /** RoundUp<index_t>(x, g): the least multiple of `g` that is at least `x`. */
  function RoundUp(x: nat, g: nat): (r: nat)
    requires g > 0
    ensures r % g == 0
    ensures x <= r < x + g
  {
    var q := (x + g - 1) / g;
    Arith.DivMod(q, (x + g - 1) % g, g);
    Arith.DivMod(q, 0, g);
    q * g
  }

  function Max(a: int, b: int): int
  {
    if a >= b then a else b
  }

  // ---- kernel selection ----

  predicate Is3x3S1(fh: nat, fw: nat, p: ConvParams)
  {
    fh == 3 && fw == 3 && p.strideH == 1 && p.strideW == 1 && p.dilationH == 1 && p.dilationW == 1
  }

  predicate Is3x3S2(fh: nat, fw: nat, p: ConvParams)
  {
    fh == 3 && fw == 3 && p.strideH == 2 && p.strideW == 2 && p.dilationH == 1 && p.dilationW == 1
  }

  predicate Is1x1S1(fh: nat, fw: nat, p: ConvParams)
  {
    fh == 1 && fw == 1 && p.strideH == 1 && p.strideW == 1 && p.dilationH == 1 && p.dilationW == 1
  }

  /** When each kernel is able to run (the generic direct loop always is). */
  predicate Eligible(a: Algorithm, fh: nat, fw: nat, inC: nat, outC: nat, p: ConvParams)
  {
    match a
    case Winograd => p.filterTransformed || (Is3x3S1(fh, fw, p) && inC >= 8 && outC >= 8)
    case Neon3x3S1 => Is3x3S1(fh, fw, p)
    case Neon3x3S2 => Is3x3S2(fh, fw, p)
    case Neon1x1S1 => Is1x1S1(fh, fw, p)
    case Direct => true
  }

  /** Position of a kernel in the dispatch order. */
  function Rank(a: Algorithm): nat
  {
    match a
    case Winograd => 0
    case Neon3x3S1 => 1
    case Neon3x3S2 => 2
    case Neon1x1S1 => 3
    case Direct => 4
  }

  /**
   * The use_* flags and the if/else-if chain that picks conv_func: the
   * chosen kernel is eligible and no kernel earlier in the order is.
   */
  function SelectAlgorithm(fh: nat, fw: nat, inC: nat, outC: nat, p: ConvParams): (a: Algorithm)
    ensures Eligible(a, fh, fw, inC, outC, p)
    ensures forall b: Algorithm :: Rank(b) < Rank(a) ==> !Eligible(b, fh, fw, inC, outC, p)
  {
    var useWinograd := p.filterTransformed || (Is3x3S1(fh, fw, p) && inC >= 8 && outC >= 8);
    if useWinograd then Winograd
    else if Is3x3S1(fh, fw, p) then Neon3x3S1
    else if Is3x3S2(fh, fw, p) then Neon3x3S2
    else if Is1x1S1(fh, fw, p) then Neon1x1S1
    else Direct
  }

  /** Output tile of the Winograd kernel: 6 for maps larger than 16x16, else 2. */
  function WinogradTile(inputH: nat, inputW: nat): (t: nat)
    ensures t == 2 || t == 6
    ensures t == 6 <==> inputH > 16 && inputW > 16
  {
    if inputH > 16 && inputW > 16 then 6 else 2
  }

  // ---- extent rounding ----

  /**
   * The extents the chosen kernel works on. Every kernel keeps at least the
   * padded input and the logical output; Winograd rounds the output up to
   * whole tiles, 3x3 stride 1 to 2 rows by 4 columns, 3x3 stride 2 to 4
   * columns, and each then grows the input (only when needed) to cover the
   * receptive field of the rounded output.
   */
  function ExtraExtents(a: Algorithm, tile: nat, paddedH: nat, paddedW: nat, height: nat, width: nat)
    : (e: Extents)
    requires tile > 0
    ensures e.inH >= paddedH && e.inW >= paddedW && e.outH >= height && e.outW >= width
    ensures a == Winograd ==>
      e.outH % tile == 0 && e.outH < height + tile &&
      e.outW % tile == 0 && e.outW < width + tile &&
      e.inH >= e.outH + 2 && e.inW >= e.outW + 2 &&
      (e.inH > paddedH ==> e.inH == e.outH + 2) && (e.inW > paddedW ==> e.inW == e.outW + 2)
    ensures a == Neon3x3S1 ==>
      e.outH % 2 == 0 && e.outH < height + 2 &&
      e.outW % 4 == 0 && e.outW < width + 4 &&
      e.inH >= e.outH + 2 && e.inW >= e.outW + 2 &&
      (e.inH > paddedH ==> e.inH == e.outH + 2) && (e.inW > paddedW ==> e.inW == e.outW + 2)
    ensures a == Neon3x3S2 ==>
      e.outH == height &&
      e.outW % 4 == 0 && e.outW < width + 4 &&
      e.inH >= (e.outH - 1) * 2 + 3 && e.inW >= (e.outW - 1) * 2 + 3 &&
      (e.inH > paddedH ==> e.inH == (e.outH - 1) * 2 + 3) &&
      (e.inW > paddedW ==> e.inW == (e.outW - 1) * 2 + 3)
    ensures a == Neon1x1S1 || a == Direct ==> e == Extents(paddedH, paddedW, height, width)
  {
    match a
    case Winograd =>
      var oh := RoundUp(height, tile);
      var ow := RoundUp(width, tile);
      Extents(Max(paddedH, oh + 2), Max(paddedW, ow + 2), oh, ow)
    case Neon3x3S1 =>
      var oh := RoundUp(height, 2);
      var ow := RoundUp(width, 4);
      Extents(Max(paddedH, oh + 2), Max(paddedW, ow + 2), oh, ow)
    case Neon3x3S2 =>
      var oh := height;
      var ow := RoundUp(width, 4);
      Extents(Max(paddedH, (oh - 1) * 2 + 3), Max(paddedW, (ow - 1) * 2 + 3), oh, ow)
    case _ =>
      Extents(paddedH, paddedW, height, width)
  }

  // ---- scratch sizing ----

  /** std::accumulate(shape, 1, multiplies): the element count of a shape. */
  function Product(s: seq<nat>): nat
  {
    if s == [] then 1 else s[0] * Product(s[1..])
  }

  /** Bytes of a contiguous float buffer of the given shape. */
  function FloatBufferBytes(shape: seq<nat>): nat
  {
    Product(shape) * FloatBytes
  }

  function Total(s: ScratchSizes): nat
  {
    s.transformedInput + s.transformedOutput + s.paddedInput + s.paddedOutput
  }

  /**
   * Padding after rounding: top/left keep the floor half of the total,
   * bottom/right take the rest plus whatever the kernel's input growth adds
   * (conv_2d.cc lines 168-171 and the pad_bottom/pad_right updates).
   */
  function GrowPads(input: Shape4, paddings: (nat, nat), e: Extents): (pads: Pads)
    requires e.inH >= input.height + paddings.0 && e.inW >= input.width + paddings.1
    ensures pads.top == SplitPadding(paddings.0).0 && pads.left == SplitPadding(paddings.1).0
    ensures pads.bottom >= SplitPadding(paddings.0).1 && pads.right >= SplitPadding(paddings.1).1
    ensures input.height + pads.top + pads.bottom == e.inH
    ensures input.width + pads.left + pads.right == e.inW
  {
    var paddedH := input.height + paddings.0;
    var paddedW := input.width + paddings.1;
    var (top, bottom) := SplitPadding(paddings.0);
    var (left, right) := SplitPadding(paddings.1);
    var bottom' := if e.inH != paddedH then bottom + (e.inH - paddedH) else bottom;
    var right' := if e.inW != paddedW then right + (e.inW - paddedW) else right;
    Pads(top, bottom', left, right')
  }

  /** Shapes of the Winograd transformed input, output and filter buffers. */
  datatype WinogradShapes = WinogradShapes(input: seq<nat>, output: seq<nat>, filter: seq<nat>)

  /**
   * Winograd buffer shapes (lines 213-226): (tile+2)^2 taps, and a tile
   * count whose tiles exactly cover the rounded output.
   */
  function MakeWinogradShapes(tile: nat, e: Extents, batch: nat, inC: nat, outC: nat): (w: WinogradShapes)
    requires tile > 0 && e.outH % tile == 0 && e.outW % tile == 0
    ensures (e.outH / tile) * tile == e.outH && (e.outW / tile) * tile == e.outW
    ensures |w.input| == 4 && |w.output| == 4 && |w.filter| == 3
    ensures w.input[0] == w.output[0] == w.filter[0] == (tile + 2) * (tile + 2)
    ensures w.input[1] == w.output[1] == batch
    ensures w.input[2] == w.filter[2] == inC && w.output[2] == w.filter[1] == outC
    ensures w.input[3] == w.output[3] == (e.outH / tile) * (e.outW / tile)
  {
    Arith.DivMod(e.outH / tile, 0, tile);
    Arith.DivMod(e.outW / tile, 0, tile);
    var tileCount := (e.outH / tile) * (e.outW / tile);
    var inTileArea := (tile + 2) * (tile + 2);
    WinogradShapes([inTileArea, batch, inC, tileCount], [inTileArea, batch, outC, tileCount],
                   [inTileArea, outC, inC])
  }

  /**
   * Scratch sizes (lines 254-283): each buffer is sized only when the call
   * needs it, and the total is accumulated over the needed ones, so it is
   * the sum of all four.
   */
  function MakeScratchSizes(useWinograd: bool, w: WinogradShapes, input: Shape4, output: Shape4,
                            pads: Pads, e: Extents): (r: (ScratchSizes, nat))
    requires input.height + pads.top + pads.bottom == e.inH
    requires input.width + pads.left + pads.right == e.inW
    ensures r.0.transformedInput == if useWinograd then FloatBufferBytes(w.input) else 0
    ensures r.0.transformedOutput == if useWinograd then FloatBufferBytes(w.output) else 0
    ensures r.0.paddedInput ==
      if e.inH != input.height || e.inW != input.width
      then FloatBufferBytes([output.batch, input.channels, e.inH, e.inW])
      else 0
    ensures r.0.paddedOutput ==
      if e.outH != output.height || e.outW != output.width
      then FloatBufferBytes([output.batch, output.channels, e.outH, e.outW])
      else 0
    ensures r.1 == Total(r.0)
  {
    var total := 0;
    var tiSize := if useWinograd then FloatBufferBytes(w.input) else 0;
    var toSize := if useWinograd then FloatBufferBytes(w.output) else 0;
    var total := if useWinograd then total + tiSize + toSize else total;
    var piNeeded := e.inH != input.height || e.inW != input.width;
    // e.inH and e.inW are the padded input's height and width (see the requires)
    var piSize := if piNeeded then FloatBufferBytes([output.batch, input.channels, e.inH, e.inW]) else 0;
    var total := if piNeeded then total + piSize else total;
    var poNeeded := e.outH != output.height || e.outW != output.width;
    var poSize := if poNeeded then FloatBufferBytes([output.batch, output.channels, e.outH, e.outW]) else 0;
    var total := if poNeeded then total + poSize else total;
    (ScratchSizes(tiSize, toSize, piSize, poSize), total)
  }

  /**
   * The whole plan of one call (conv_2d.cc lines 161-283). `input` and
   * `output` are the input and (already planned) output shapes, `fh`/`fw`
   * the filter's spatial size, `paddings` the two total paddings.
   */
  function MakePlan(input: Shape4, output: Shape4, fh: nat, fw: nat, p: ConvParams, paddings: (nat, nat))
    : Plan
  {
    var algorithm := SelectAlgorithm(fh, fw, input.channels, output.channels, p);
    var tile := WinogradTile(input.height, input.width);
    var e := ExtraExtents(algorithm, tile, input.height + paddings.0, input.width + paddings.1,
                          output.height, output.width);
    var pads := GrowPads(input, paddings, e);
    var w := if algorithm == Winograd
             then MakeWinogradShapes(tile, e, output.batch, input.channels, output.channels)
             else WinogradShapes([], [], []);
    var (sizes, total) := MakeScratchSizes(algorithm == Winograd, w, input, output, pads, e);
    Plan(algorithm, tile, pads, e, w.input, w.output, w.filter, sizes, total)
  }

  /**
   * The pieces of a plan fit together: the pads grow the input exactly to
   * the rounded input extent, the padded-input buffer holds exactly that
   * padded input and the padded-output buffer the rounded output,
   * Winograd's tiles exactly cover the rounded output, the transform
   * buffers exist only for Winograd, and the total is the sum of the four
   * buffers.
   */
  lemma PlanConsistent(input: Shape4, output: Shape4, fh: nat, fw: nat, p: ConvParams, paddings: (nat, nat))
    ensures var plan := MakePlan(input, output, fh, fw, p, paddings);
      Eligible(plan.algorithm, fh, fw, input.channels, output.channels, p) &&
      (plan.tile == 2 || plan.tile == 6) &&
      plan.pads.top == SplitPadding(paddings.0).0 && plan.pads.left == SplitPadding(paddings.1).0 &&
      input.height + plan.pads.top + plan.pads.bottom == plan.extents.inH &&
      input.width + plan.pads.left + plan.pads.right == plan.extents.inW &&
      plan.extents.outH >= output.height && plan.extents.outW >= output.width &&
      (plan.algorithm == Winograd ==>
         |plan.transformedInputShape| == 4 &&
         plan.extents.outH % plan.tile == 0 && plan.extents.outW % plan.tile == 0 &&
         plan.transformedInputShape[3] == (plan.extents.outH / plan.tile) * (plan.extents.outW / plan.tile)) &&
      (plan.algorithm != Winograd ==> plan.sizes.transformedInput == 0 && plan.sizes.transformedOutput == 0) &&
      plan.sizes.paddedInput ==
        (if plan.extents.inH != input.height || plan.extents.inW != input.width
         then FloatBufferBytes([output.batch, input.channels, input.height + plan.pads.top + plan.pads.bottom,
                                input.width + plan.pads.left + plan.pads.right])
         else 0) &&
      plan.sizes.paddedOutput ==
        (if plan.extents.outH != output.height || plan.extents.outW != output.width
         then FloatBufferBytes([output.batch, output.channels, plan.extents.outH, plan.extents.outW])
         else 0) &&
      plan.totalScratch == Total(plan.sizes)
  {
  }

  /** The plan's kernel, tile, extents and pads are those dispatch, tile choice and rounding give. */
  lemma PlanParts(input: Shape4, output: Shape4, fh: nat, fw: nat, p: ConvParams, paddings: (nat, nat))
    ensures var plan := MakePlan(input, output, fh, fw, p, paddings);
      plan.algorithm == SelectAlgorithm(fh, fw, input.channels, output.channels, p) &&
      plan.tile == WinogradTile(input.height, input.width) &&
      plan.extents == ExtraExtents(plan.algorithm, plan.tile, input.height + paddings.0, input.width + paddings.1,
                                   output.height, output.width) &&
      plan.pads == GrowPads(input, paddings, plan.extents)
  {
  }
}
