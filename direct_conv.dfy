// The generic direct convolution Conv2dNCHW: for every output cell
// (b, m, h, w) it adds, over every input channel c and filter tap
// (kh, kw), input[b, c, h*sh + kh*dh, w*sw + kw*dw] * filter[m, c, kh, kw]
// to the flat NCHW output buffer. It is a correlation (the filter is not
// flipped) and it accumulates: the caller pre-zeroes the output.

module DirectConv {
  import Arith

  /** The scalar arguments of Conv2dNCHW. */
  datatype ConvDims = ConvDims(
    batch: nat,
    inH: nat, inW: nat, inC: nat,
    outH: nat, outW: nat, outC: nat,
    fH: nat, fW: nat,
    sH: nat, sW: nat,
    dH: nat, dW: nat)

  function InDims(d: ConvDims): Arith.Dims4 { Arith.Dims4(d.batch, d.inC, d.inH, d.inW) }
  function OutDims(d: ConvDims): Arith.Dims4 { Arith.Dims4(d.batch, d.outC, d.outH, d.outW) }
  function FilterDims(d: ConvDims): Arith.Dims4 { Arith.Dims4(d.outC, d.inC, d.fH, d.fW) }

  /**
   * The receptive field of the last output row (column) ends inside the
   * input: IH >= (OH - 1) * sh + (FH - 1) * dh + 1, and likewise for width.
   */
  predicate Covers(d: ConvDims)
  {
    (d.outH == 0 || d.fH == 0 || (d.outH - 1) * d.sH + (d.fH - 1) * d.dH < d.inH) &&
    (d.outW == 0 || d.fW == 0 || (d.outW - 1) * d.sW + (d.fW - 1) * d.dW < d.inW)
  }

  /** Buffers of exactly the NCHW / OIHW sizes the loops walk over. */
  predicate WellFormed(input: seq<int>, filter: seq<int>, d: ConvDims)
  {
    |input| == Arith.Count(InDims(d)) && |filter| == Arith.Count(FilterDims(d)) && Covers(d)
  }

  /** One output cell (b, m, h, w). */
  datatype Point = Point(b: nat, m: nat, h: nat, w: nat)

  predicate ValidPoint(d: ConvDims, p: Point)
  {
    Arith.InRange(OutDims(d), p.b, p.m, p.h, p.w)
  }

  lemma TapInRange(o: nat, k: nat, stride: nat, dilation: nat, outExtent: nat, fExtent: nat, inExtent: nat)
    requires o < outExtent && k < fExtent
    requires (outExtent - 1) * stride + (fExtent - 1) * dilation < inExtent
    ensures o * stride + k * dilation < inExtent
  {
    Arith.MulMono(o, outExtent - 1, stride);
    Arith.MulMono(k, fExtent - 1, dilation);
  }

  /** The input row and column read by output cell `p` at tap (kh, kw). */
  function InRow(d: ConvDims, p: Point, kh: nat): nat { p.h * d.sH + kh * d.dH }
  function InCol(d: ConvDims, p: Point, kw: nat): nat { p.w * d.sW + kw * d.dW }

  /** Every input and filter offset the loops form is in bounds. */
  lemma TapOffsets(input: seq<int>, filter: seq<int>, d: ConvDims, p: Point, c: nat, kh: nat, kw: nat)
    requires WellFormed(input, filter, d) && ValidPoint(d, p)
    requires c < d.inC && kh < d.fH && kw < d.fW
    ensures InRow(d, p, kh) < d.inH && InCol(d, p, kw) < d.inW
    ensures Arith.Offset(InDims(d), p.b, c, InRow(d, p, kh), InCol(d, p, kw)) < |input|
    ensures Arith.Offset(FilterDims(d), p.m, c, kh, kw) < |filter|
  {
    TapInRange(p.h, kh, d.sH, d.dH, d.outH, d.fH, d.inH);
    TapInRange(p.w, kw, d.sW, d.dW, d.outW, d.fW, d.inW);
  }

  /** input[b, c, h*sh + kh*dh, w*sw + kw*dw]: the input value tap (c, kh, kw) of cell p reads. */
  function InputAt(input: seq<int>, filter: seq<int>, d: ConvDims, p: Point, c: nat, kh: nat, kw: nat): int
    requires WellFormed(input, filter, d) && ValidPoint(d, p)
    requires c < d.inC && kh < d.fH && kw < d.fW
  {
    TapOffsets(input, filter, d, p, c, kh, kw);
    input[Arith.Offset(InDims(d), p.b, c, InRow(d, p, kh), InCol(d, p, kw))]
  }

  /** filter[m, c, kh, kw] */
  function FilterAt(input: seq<int>, filter: seq<int>, d: ConvDims, p: Point, c: nat, kh: nat, kw: nat): int
    requires WellFormed(input, filter, d) && ValidPoint(d, p)
    requires c < d.inC && kh < d.fH && kw < d.fW
  {
    TapOffsets(input, filter, d, p, c, kh, kw);
    filter[Arith.Offset(FilterDims(d), p.m, c, kh, kw)]
  }

  function Term(input: seq<int>, filter: seq<int>, d: ConvDims, p: Point, c: nat, kh: nat, kw: nat): int
    requires WellFormed(input, filter, d) && ValidPoint(d, p)
    requires c < d.inC && kh < d.fH && kw < d.fW
  {
    InputAt(input, filter, d, p, c, kh, kw) * FilterAt(input, filter, d, p, c, kh, kw)
  }

  /** Sum of the first `n` taps of filter row kh of channel c. */
  function SumKw(input: seq<int>, filter: seq<int>, d: ConvDims, p: Point, c: nat, kh: nat, n: nat): int
    requires WellFormed(input, filter, d) && ValidPoint(d, p)
    requires c < d.inC && kh < d.fH && n <= d.fW
  {
    if n == 0 then 0 else SumKw(input, filter, d, p, c, kh, n - 1) + Term(input, filter, d, p, c, kh, n - 1)
  }

  /** Sum of the first `n` filter rows of channel c. */
  function SumKh(input: seq<int>, filter: seq<int>, d: ConvDims, p: Point, c: nat, n: nat): int
    requires WellFormed(input, filter, d) && ValidPoint(d, p)
    requires c < d.inC && n <= d.fH
  {
    if n == 0 then 0 else SumKh(input, filter, d, p, c, n - 1) + SumKw(input, filter, d, p, c, n - 1, d.fW)
  }

  /** Sum over the first `n` input channels. */
  function SumC(input: seq<int>, filter: seq<int>, d: ConvDims, p: Point, n: nat): int
    requires WellFormed(input, filter, d) && ValidPoint(d, p)
    requires n <= d.inC
  {
    if n == 0 then 0 else SumC(input, filter, d, p, n - 1) + SumKh(input, filter, d, p, n - 1, d.fH)
  }

  /** The value the kernel adds to output cell p: the full correlation sum. */
  function ConvPoint(input: seq<int>, filter: seq<int>, d: ConvDims, p: Point): int
    requires WellFormed(input, filter, d) && ValidPoint(d, p)
  {
    SumC(input, filter, d, p, d.inC)
  }

  /** The value added to the output cell at flat offset i. */
  function Expected(input: seq<int>, filter: seq<int>, d: ConvDims, i: nat): int
    requires WellFormed(input, filter, d) && i < Arith.Count(OutDims(d))
  {
    var q := Arith.Decode(OutDims(d), i);
    ConvPoint(input, filter, d, Point(q.a, q.b, q.c, q.e))
  }

  // ---- correlation, not convolution ----

  /** The filter of output channel m is zero except for a single 1 at tap (c0, kh0, kw0). */
  ghost predicate UnitTap(filter: seq<int>, d: ConvDims, m: nat, c0: nat, kh0: nat, kw0: nat)
    requires |filter| == Arith.Count(FilterDims(d))
  {
    forall c: nat, kh: nat, kw: nat :: Arith.InRange(FilterDims(d), m, c, kh, kw) ==>
      filter[Arith.Offset(FilterDims(d), m, c, kh, kw)] == if c == c0 && kh == kh0 && kw == kw0 then 1 else 0
  }

  lemma {:induction false} UnitTapKw(input: seq<int>, filter: seq<int>, d: ConvDims, p: Point,
                                     c0: nat, kh0: nat, kw0: nat, c: nat, kh: nat, n: nat)
    requires WellFormed(input, filter, d) && ValidPoint(d, p)
    requires c0 < d.inC && kh0 < d.fH && kw0 < d.fW && UnitTap(filter, d, p.m, c0, kh0, kw0)
    requires c < d.inC && kh < d.fH && n <= d.fW
    ensures SumKw(input, filter, d, p, c, kh, n) ==
      if c == c0 && kh == kh0 && kw0 < n then InputAt(input, filter, d, p, c0, kh0, kw0) else 0
  {
    if n > 0 {
      UnitTapKw(input, filter, d, p, c0, kh0, kw0, c, kh, n - 1);
      assert FilterAt(input, filter, d, p, c, kh, n - 1) ==
        if c == c0 && kh == kh0 && n - 1 == kw0 then 1 else 0;
    }
  }

  lemma {:induction false} UnitTapKh(input: seq<int>, filter: seq<int>, d: ConvDims, p: Point,
                                     c0: nat, kh0: nat, kw0: nat, c: nat, n: nat)
    requires WellFormed(input, filter, d) && ValidPoint(d, p)
    requires c0 < d.inC && kh0 < d.fH && kw0 < d.fW && UnitTap(filter, d, p.m, c0, kh0, kw0)
    requires c < d.inC && n <= d.fH
    ensures SumKh(input, filter, d, p, c, n) ==
      if c == c0 && kh0 < n then InputAt(input, filter, d, p, c0, kh0, kw0) else 0
  {
    if n > 0 {
      UnitTapKh(input, filter, d, p, c0, kh0, kw0, c, n - 1);
      UnitTapKw(input, filter, d, p, c0, kh0, kw0, c, n - 1, d.fW);
    }
  }

  lemma {:induction false} UnitTapC(input: seq<int>, filter: seq<int>, d: ConvDims, p: Point,
                                    c0: nat, kh0: nat, kw0: nat, n: nat)
    requires WellFormed(input, filter, d) && ValidPoint(d, p)
    requires c0 < d.inC && kh0 < d.fH && kw0 < d.fW && UnitTap(filter, d, p.m, c0, kh0, kw0)
    requires n <= d.inC
    ensures SumC(input, filter, d, p, n) == if c0 < n then InputAt(input, filter, d, p, c0, kh0, kw0) else 0
  {
    if n > 0 {
      UnitTapC(input, filter, d, p, c0, kh0, kw0, n - 1);
      UnitTapKh(input, filter, d, p, c0, kh0, kw0, n - 1, d.fH);
    }
  }

  /**
   * The kernel is a correlation: with a filter whose only non-zero entry is
   * a 1 at tap (c0, kh0, kw0), cell (b, m, h, w) receives exactly
   * input[b, c0, h*sh + kh0*dh, w*sw + kw0*dw] -- the tap is read where it
   * stands, not mirrored to (FH-1-kh0, FW-1-kw0).
   */
  lemma UnitTapIsCorrelation(input: seq<int>, filter: seq<int>, d: ConvDims, p: Point,
                             c0: nat, kh0: nat, kw0: nat)
    requires WellFormed(input, filter, d) && ValidPoint(d, p)
    requires c0 < d.inC && kh0 < d.fH && kw0 < d.fW && UnitTap(filter, d, p.m, c0, kh0, kw0)
    ensures ConvPoint(input, filter, d, p) == InputAt(input, filter, d, p, c0, kh0, kw0)
  {
    UnitTapC(input, filter, d, p, c0, kh0, kw0, d.inC);
  }

  /**
   * Distinct output cells have distinct offsets, so the iterations of the
   * parallel (b, m) loop write disjoint cells.
   */
  lemma ParallelWritesDisjoint(d: ConvDims, p: Point, q: Point)
    requires ValidPoint(d, p) && ValidPoint(d, q) && p != q
    ensures Arith.Offset(OutDims(d), p.b, p.m, p.h, p.w) != Arith.Offset(OutDims(d), q.b, q.m, q.h, q.w)
  {
    Arith.DecodeOffset(OutDims(d), p.b, p.m, p.h, p.w);
    Arith.DecodeOffset(OutDims(d), q.b, q.m, q.h, q.w);
  }

  /**
   * The three inner loops of Conv2dNCHW for one output cell: output[o] grows
   * by exactly ConvPoint, every other cell is untouched.
   */
  method AccumulatePoint(input: seq<int>, filter: seq<int>, d: ConvDims, p: Point, output: array<int>, o: nat)
    requires WellFormed(input, filter, d) && ValidPoint(d, p)
    requires o == Arith.Offset(OutDims(d), p.b, p.m, p.h, p.w) && o < output.Length
    modifies output
    ensures output[o] == old(output[o]) + ConvPoint(input, filter, d, p)
    ensures forall j :: 0 <= j < output.Length && j != o ==> output[j] == old(output[j])
  {
    ghost var base := output[o];
    for c := 0 to d.inC
      invariant output[o] == base + SumC(input, filter, d, p, c)
      invariant forall j :: 0 <= j < output.Length && j != o ==> output[j] == old(output[j])
    {
      AccumulateChannel(input, filter, d, p, c, output, o);
    }
  }

  /** The kh and kw loops for input channel c: output[o] grows by SumKh over all filter rows. */
  method AccumulateChannel(input: seq<int>, filter: seq<int>, d: ConvDims, p: Point, c: nat,
                           output: array<int>, o: nat)
    requires WellFormed(input, filter, d) && ValidPoint(d, p) && c < d.inC
    requires o == Arith.Offset(OutDims(d), p.b, p.m, p.h, p.w) && o < output.Length
    modifies output
    ensures output[o] == old(output[o]) + SumKh(input, filter, d, p, c, d.fH)
    ensures forall j :: 0 <= j < output.Length && j != o ==> output[j] == old(output[j])
  {
    ghost var base := output[o];
    for kh := 0 to d.fH
      invariant output[o] == base + SumKh(input, filter, d, p, c, kh)
      invariant forall j :: 0 <= j < output.Length && j != o ==> output[j] == old(output[j])
    {
      for kw := 0 to d.fW
        invariant output[o] == base + SumKh(input, filter, d, p, c, kh) + SumKw(input, filter, d, p, c, kh, kw)
        invariant forall j :: 0 <= j < output.Length && j != o ==> output[j] == old(output[j])
      {
        var ih := p.h * d.sH + kh * d.dH;
        var iw := p.w * d.sW + kw * d.dW;
        var inOffset := ((p.b * d.inC + c) * d.inH + ih) * d.inW + iw;
        var filterOffset := ((p.m * d.inC + c) * d.fH + kh) * d.fW + kw;
        TapOffsets(input, filter, d, p, c, kh, kw);
        output[o] := output[o] + input[inOffset] * filter[filterOffset];
      }
    }
  }

  /** Cells below flat offset k have received their sum; the others are as in `orig`. */
  ghost predicate DoneBelow(input: seq<int>, filter: seq<int>, d: ConvDims, orig: seq<int>, out: seq<int>, k: nat)
    requires WellFormed(input, filter, d)
    requires |orig| == |out| == Arith.Count(OutDims(d))
  {
    forall i :: 0 <= i < |out| ==> out[i] == orig[i] + (if i < k then Expected(input, filter, d, i) else 0)
  }

  lemma DoneStep(input: seq<int>, filter: seq<int>, d: ConvDims, orig: seq<int>, before: seq<int>, after: seq<int>, k: nat)
    requires WellFormed(input, filter, d)
    requires |orig| == |before| == |after| == Arith.Count(OutDims(d)) && k < |after|
    requires DoneBelow(input, filter, d, orig, before, k)
    requires after[k] == before[k] + Expected(input, filter, d, k)
    requires forall j :: 0 <= j < |after| && j != k ==> after[j] == before[j]
    ensures DoneBelow(input, filter, d, orig, after, k + 1)
  {
  }

  /**
   * The w loop of Conv2dNCHW for output row (b, m, h): the row's cells, which
   * follow one another at flat offsets k0 .. k0 + OW - 1, receive their sums.
   */
  method ConvRow(input: seq<int>, filter: seq<int>, d: ConvDims, b: nat, m: nat, h: nat,
                 output: array<int>, ghost orig: seq<int>, ghost k0: nat)
    requires WellFormed(input, filter, d) && output.Length == Arith.Count(OutDims(d)) == |orig|
    requires b < d.batch && m < d.outC && h < d.outH
    requires k0 == Arith.Offset(OutDims(d), b, m, h, 0)
    requires DoneBelow(input, filter, d, orig, output[..], k0)
    modifies output
    ensures DoneBelow(input, filter, d, orig, output[..], k0 + d.outW)
  {
    ghost var od := OutDims(d);
    for w := 0 to d.outW
      invariant DoneBelow(input, filter, d, orig, output[..], k0 + w)
    {
      var outOffset := ((b * d.outC + m) * d.outH + h) * d.outW + w;
      assert outOffset == Arith.Offset(od, b, m, h, w) == k0 + w;
      Arith.DecodeOffset(od, b, m, h, w);
      ghost var before := output[..];
      AccumulatePoint(input, filter, d, Point(b, m, h, w), output, outOffset);
      DoneStep(input, filter, d, orig, before, output[..], k0 + w);
    }
  }

  /** The h and w loops for output plane (b, m). */
  method ConvPlane(input: seq<int>, filter: seq<int>, d: ConvDims, b: nat, m: nat,
                   output: array<int>, ghost orig: seq<int>)
    requires WellFormed(input, filter, d) && output.Length == Arith.Count(OutDims(d)) == |orig|
    requires b < d.batch && m < d.outC
    requires DoneBelow(input, filter, d, orig, output[..], Arith.Offset(OutDims(d), b, m, 0, 0))
    modifies output
    ensures DoneBelow(input, filter, d, orig, output[..], Arith.Offset(OutDims(d), b, m + 1, 0, 0))
  {
    ghost var od := OutDims(d);
    ghost var k: nat := Arith.Offset(od, b, m, 0, 0);
    for h := 0 to d.outH
      invariant k == Arith.Offset(od, b, m, h, 0)
      invariant DoneBelow(input, filter, d, orig, output[..], k)
    {
      ConvRow(input, filter, d, b, m, h, output, orig, k);
      Arith.NextRow((b * d.outC + m) * d.outH + h, d.outW);
      k := k + d.outW;
    }
    Arith.NextRow(b * d.outC + m, d.outH);
  }

  /**
   * Conv2dNCHW (conv_2d.cc lines 23-64): every output cell grows by its
   * correlation sum, and nothing else changes.
   */
  method Conv2dNCHW(input: seq<int>, filter: seq<int>, d: ConvDims, output: array<int>)
    requires WellFormed(input, filter, d) && output.Length == Arith.Count(OutDims(d))
    modifies output
    ensures forall i :: 0 <= i < output.Length ==> output[i] == old(output[i]) + Expected(input, filter, d, i)
    ensures forall b: nat, m: nat, h: nat, w: nat :: ValidPoint(d, Point(b, m, h, w)) ==>
      output[Arith.Offset(OutDims(d), b, m, h, w)] ==
        old(output[Arith.Offset(OutDims(d), b, m, h, w)]) + ConvPoint(input, filter, d, Point(b, m, h, w))
  {
    ghost var orig := output[..];
    ghost var od := OutDims(d);
    // k is the flat offset of the next cell: cells below it are done
    ghost var k: nat := 0;
    for b := 0 to d.batch
      invariant k == Arith.Offset(od, b, 0, 0, 0)
      invariant DoneBelow(input, filter, d, orig, output[..], k)
    {
      for m := 0 to d.outC
        invariant k == Arith.Offset(od, b, m, 0, 0)
        invariant DoneBelow(input, filter, d, orig, output[..], k)
      {
        ConvPlane(input, filter, d, b, m, output, orig);
        k := Arith.Offset(od, b, m + 1, 0, 0);
      }
      Arith.NextRow(b, d.outC);
    }
    ExpectedCells(input, filter, d, orig, output[..]);
  }

  /** The flat form of the result, read cell by cell. */
  lemma ExpectedCells(input: seq<int>, filter: seq<int>, d: ConvDims, orig: seq<int>, out: seq<int>)
    requires WellFormed(input, filter, d) && |orig| == |out| == Arith.Count(OutDims(d))
    requires forall i :: 0 <= i < |out| ==> out[i] == orig[i] + Expected(input, filter, d, i)
    ensures forall b: nat, m: nat, h: nat, w: nat :: ValidPoint(d, Point(b, m, h, w)) ==>
      out[Arith.Offset(OutDims(d), b, m, h, w)] ==
        orig[Arith.Offset(OutDims(d), b, m, h, w)] + ConvPoint(input, filter, d, Point(b, m, h, w))
  {
    forall b: nat, m: nat, h: nat, w: nat | ValidPoint(d, Point(b, m, h, w))
      ensures out[Arith.Offset(OutDims(d), b, m, h, w)] ==
        orig[Arith.Offset(OutDims(d), b, m, h, w)] + ConvPoint(input, filter, d, Point(b, m, h, w))
    {
      Arith.DecodeOffset(OutDims(d), b, m, h, w);
    }
  }
}
