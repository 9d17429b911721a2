// The two passes that follow the kernel: copying the rounded-up output
// back into the logical output (rows and columns past height/width are
// dropped; padding was only ever added at the bottom/right, so no offset
// is needed at the top/left), and adding one bias value per channel.

module OutputStage {
  import Arith
  import opened Wrappers

  // ---- crop ----

  /**
   * memcpy(dst + dstOffset, src + srcOffset, n elements): the `n` cells from
   * dstOffset take the source cells in order; every other cell is kept.
   */
  method Memcpy(dst: array<int>, dstOffset: nat, src: seq<int>, srcOffset: nat, n: nat)
    requires dstOffset + n <= dst.Length && srcOffset + n <= |src|
    modifies dst
    ensures forall j :: 0 <= j < dst.Length ==>
      dst[j] == if dstOffset <= j < dstOffset + n then src[srcOffset + (j - dstOffset)] else old(dst[j])
  {
    for t := 0 to n
      invariant forall j :: 0 <= j < dst.Length ==>
        dst[j] == if dstOffset <= j < dstOffset + t then src[srcOffset + (j - dstOffset)] else old(dst[j])
    {
      dst[dstOffset + t] := src[srcOffset + t];
    }
  }

  /** The padded-output cell that the logical output cell at flat offset i comes from. */
  function SourceCell(logical: Arith.Dims4, padded: Arith.Dims4, i: nat): (j: nat)
    requires i < Arith.Count(logical)
    requires logical.d0 == padded.d0 && logical.d1 == padded.d1
    requires logical.d2 <= padded.d2 && logical.d3 <= padded.d3
    ensures j < Arith.Count(padded)
  {
    var q := Arith.Decode(logical, i);
    Arith.Offset(padded, q.a, q.b, q.c, q.e)
  }

  ghost predicate CropDone(logical: Arith.Dims4, padded: Arith.Dims4, padOutput: seq<int>,
                           orig: seq<int>, out: seq<int>, k: nat)
    requires logical.d0 == padded.d0 && logical.d1 == padded.d1
    requires logical.d2 <= padded.d2 && logical.d3 <= padded.d3
    requires |padOutput| == Arith.Count(padded) && |orig| == |out| == Arith.Count(logical)
  {
    forall i :: 0 <= i < |out| ==>
      out[i] == if i < k then padOutput[SourceCell(logical, padded, i)] else orig[i]
  }

  /** Cell w of logical row (b, c, h) comes from cell w of padded row (b, c, h). */
  lemma RowCellSource(logical: Arith.Dims4, padded: Arith.Dims4, b: nat, c: nat, h: nat, w: nat)
    requires logical.d0 == padded.d0 && logical.d1 == padded.d1
    requires logical.d2 <= padded.d2 && logical.d3 <= padded.d3
    requires Arith.InRange(logical, b, c, h, w)
    ensures Arith.Offset(logical, b, c, h, 0) + w < Arith.Count(logical)
    ensures SourceCell(logical, padded, Arith.Offset(logical, b, c, h, 0) + w) == Arith.Offset(padded, b, c, h, 0) + w
  {
    Arith.DecodeOffset(logical, b, c, h, w);
  }

  /** The memcpy of row (b, c, h) completes the cells of that row. */
  lemma CropRowStep(logical: Arith.Dims4, padded: Arith.Dims4, padOutput: seq<int>,
                    orig: seq<int>, before: seq<int>, after: seq<int>, b: nat, c: nat, h: nat)
    requires logical.d0 == padded.d0 && logical.d1 == padded.d1
    requires logical.d2 <= padded.d2 && logical.d3 <= padded.d3
    requires |padOutput| == Arith.Count(padded)
    requires |orig| == |before| == |after| == Arith.Count(logical)
    requires b < logical.d0 && c < logical.d1 && h < logical.d2
    requires CropDone(logical, padded, padOutput, orig, before, Arith.Offset(logical, b, c, h, 0))
    requires Arith.Offset(padded, b, c, h, 0) + logical.d3 <= |padOutput|
    requires forall j :: 0 <= j < |after| ==>
      after[j] == if Arith.Offset(logical, b, c, h, 0) <= j < Arith.Offset(logical, b, c, h, 0) + logical.d3
                  then padOutput[Arith.Offset(padded, b, c, h, 0) + (j - Arith.Offset(logical, b, c, h, 0))]
                  else before[j]
    ensures CropDone(logical, padded, padOutput, orig, after, Arith.Offset(logical, b, c, h, 0) + logical.d3)
  {
    var k := Arith.Offset(logical, b, c, h, 0);
    forall i | 0 <= i < |after|
      ensures after[i] == if i < k + logical.d3 then padOutput[SourceCell(logical, padded, i)] else orig[i]
    {
      if k <= i < k + logical.d3 {
        RowCellSource(logical, padded, b, c, h, i - k);
      }
    }
  }

  /** The memcpy of logical row (b, c, h) from the same row of the padded output. */
  method CopyRow(padOutput: seq<int>, batch: nat, channels: nat, height: nat, width: nat,
                 extraHeight: nat, extraWidth: nat, b: nat, c: nat, h: nat,
                 output: array<int>, ghost orig: seq<int>)
    requires height <= extraHeight && width <= extraWidth
    requires b < batch && c < channels && h < height
    requires |padOutput| == Arith.Count(Arith.Dims4(batch, channels, extraHeight, extraWidth))
    requires output.Length == Arith.Count(Arith.Dims4(batch, channels, height, width)) == |orig|
    requires CropDone(Arith.Dims4(batch, channels, height, width), Arith.Dims4(batch, channels, extraHeight, extraWidth),
                      padOutput, orig, output[..], Arith.Offset(Arith.Dims4(batch, channels, height, width), b, c, h, 0))
    modifies output
    ensures CropDone(Arith.Dims4(batch, channels, height, width), Arith.Dims4(batch, channels, extraHeight, extraWidth),
                     padOutput, orig, output[..],
                     Arith.Offset(Arith.Dims4(batch, channels, height, width), b, c, h, 0) + width)
  {
    ghost var logical := Arith.Dims4(batch, channels, height, width);
    ghost var padded := Arith.Dims4(batch, channels, extraHeight, extraWidth);
    var dstOffset := b * channels * height * width + c * height * width + h * width;
    var srcOffset := b * channels * extraHeight * extraWidth + c * extraHeight * extraWidth + h * extraWidth;
    Arith.OffsetExpanded(logical, b, c, h);
    Arith.OffsetExpanded(padded, b, c, h);
    RowEnd(logical, b, c, h);
    RowEnd(padded, b, c, h);
    ghost var before := output[..];
    Memcpy(output, dstOffset, padOutput, srcOffset, width);
    CropRowStep(logical, padded, padOutput, orig, before, output[..], b, c, h);
  }

  /**
   * The unpacking loop (conv_2d.cc lines 421-437): for every batch,
   * channel and logical row, `width` elements are copied from the padded
   * output row at the same (b, c, h). Afterwards every logical cell holds
   * the padded cell with the same coordinates.
   */
  method CropOutput(padOutput: seq<int>, batch: nat, channels: nat, height: nat, width: nat,
                    extraHeight: nat, extraWidth: nat, output: array<int>)
    requires height <= extraHeight && width <= extraWidth
    requires |padOutput| == Arith.Count(Arith.Dims4(batch, channels, extraHeight, extraWidth))
    requires output.Length == Arith.Count(Arith.Dims4(batch, channels, height, width))
    modifies output
    ensures forall i :: 0 <= i < output.Length ==>
      output[i] == padOutput[SourceCell(Arith.Dims4(batch, channels, height, width),
                                        Arith.Dims4(batch, channels, extraHeight, extraWidth), i)]
    ensures forall b: nat, c: nat, h: nat, w: nat ::
      Arith.InRange(Arith.Dims4(batch, channels, height, width), b, c, h, w) ==>
        output[Arith.Offset(Arith.Dims4(batch, channels, height, width), b, c, h, w)] ==
          padOutput[Arith.Offset(Arith.Dims4(batch, channels, extraHeight, extraWidth), b, c, h, w)]
  {
    ghost var logical := Arith.Dims4(batch, channels, height, width);
    ghost var padded := Arith.Dims4(batch, channels, extraHeight, extraWidth);
    ghost var orig := output[..];
    ghost var k: nat := 0;
    for b := 0 to batch
      invariant k == Arith.Offset(logical, b, 0, 0, 0)
      invariant CropDone(logical, padded, padOutput, orig, output[..], k)
    {
      for c := 0 to channels
        invariant k == Arith.Offset(logical, b, c, 0, 0)
        invariant CropDone(logical, padded, padOutput, orig, output[..], k)
      {
        for h := 0 to height
          invariant k == Arith.Offset(logical, b, c, h, 0)
          invariant CropDone(logical, padded, padOutput, orig, output[..], k)
        {
          CopyRow(padOutput, batch, channels, height, width, extraHeight, extraWidth, b, c, h, output, orig);
          Arith.NextRow((b * channels + c) * height + h, width);
          k := k + width;
        }
        Arith.NextRow(b * channels + c, height);
      }
      Arith.NextRow(b, channels);
    }
    CropCells(logical, padded, padOutput, output[..]);
  }

  /** The flat form of the crop, read cell by cell. */
  lemma CropCells(logical: Arith.Dims4, padded: Arith.Dims4, padOutput: seq<int>, out: seq<int>)
    requires logical.d0 == padded.d0 && logical.d1 == padded.d1
    requires logical.d2 <= padded.d2 && logical.d3 <= padded.d3
    requires |padOutput| == Arith.Count(padded) && |out| == Arith.Count(logical)
    requires forall i :: 0 <= i < |out| ==> out[i] == padOutput[SourceCell(logical, padded, i)]
    ensures forall b: nat, c: nat, h: nat, w: nat :: Arith.InRange(logical, b, c, h, w) ==>
      out[Arith.Offset(logical, b, c, h, w)] == padOutput[Arith.Offset(padded, b, c, h, w)]
  {
    forall b: nat, c: nat, h: nat, w: nat | Arith.InRange(logical, b, c, h, w)
      ensures out[Arith.Offset(logical, b, c, h, w)] == padOutput[Arith.Offset(padded, b, c, h, w)]
    {
      Arith.DecodeOffset(logical, b, c, h, w);
    }
  }

  /** A whole row (b, c, h) lies inside the buffer. */
  lemma RowEnd(d: Arith.Dims4, b: nat, c: nat, h: nat)
    requires b < d.d0 && c < d.d1 && h < d.d2
    ensures Arith.Offset(d, b, c, h, 0) + d.d3 <= Arith.Count(d)
  {
    Arith.RowMajorBound(b, d.d0, c, d.d1);
    Arith.RowMajorBound(b * d.d1 + c, d.d0 * d.d1, h, d.d2);
    Arith.MulMono((b * d.d1 + c) * d.d2 + h + 1, d.d0 * d.d1 * d.d2, d.d3);
    Arith.NextRow((b * d.d1 + c) * d.d2 + h, d.d3);
  }

  // ---- bias ----

  /** The channel of the output cell at flat offset i. */
  function ChannelOf(dims: Arith.Dims4, i: nat): (c: nat)
    requires i < Arith.Count(dims)
    ensures c < dims.d1
  {
    Arith.Decode(dims, i).b
  }

  ghost predicate BiasDone(dims: Arith.Dims4, bias: seq<int>, orig: seq<int>, out: seq<int>, k: nat)
    requires |bias| >= dims.d1 && |orig| == |out| == Arith.Count(dims)
  {
    forall i :: 0 <= i < |out| ==>
      out[i] == orig[i] + (if i < k then bias[ChannelOf(dims, i)] else 0)
  }

  /** The i-th cell of channel plane (b, c) belongs to channel c. */
  lemma PlaneCell(dims: Arith.Dims4, b: nat, c: nat, i: nat)
    requires b < dims.d0 && c < dims.d1 && i < dims.d2 * dims.d3
    ensures (b * dims.d1 + c) * (dims.d2 * dims.d3) + i < Arith.Count(dims)
    ensures ChannelOf(dims, (b * dims.d1 + c) * (dims.d2 * dims.d3) + i) == c
  {
    var h, w := i / dims.d3, i % dims.d3;
    Arith.Split(i, dims.d2, dims.d3);
    var q := b * dims.d1 + c;
    Arith.MulAssoc(q, dims.d2, dims.d3);
    assert q * (dims.d2 * dims.d3) + i == (q * dims.d2 + h) * dims.d3 + w;
    Arith.Digits(dims, b, c, h, w, q, q * dims.d2 + h, q * (dims.d2 * dims.d3) + i);
    Arith.DecodeOffset(dims, b, c, h, w);
  }

  /** Adding bias[c] at cell i of plane (b, c) completes one more cell. */
  lemma BiasStep(dims: Arith.Dims4, bias: seq<int>, orig: seq<int>, before: seq<int>, after: seq<int>,
                 k: nat, c: nat)
    requires |bias| >= dims.d1 && |orig| == |before| == |after| == Arith.Count(dims)
    requires k < |after| && ChannelOf(dims, k) == c
    requires BiasDone(dims, bias, orig, before, k)
    requires after == before[k := before[k] + bias[c]]
    ensures BiasDone(dims, bias, orig, after, k + 1)
  {
    forall j | 0 <= j < |after|
      ensures after[j] == orig[j] + (if j < k + 1 then bias[ChannelOf(dims, j)] else 0)
    {
    }
  }

  /** The i loop of the bias pass for channel plane (b, c). */
  method AddBiasPlane(bias: seq<int>, batch: nat, channels: nat, height: nat, width: nat,
                      b: nat, c: nat, output: array<int>, ghost orig: seq<int>)
    requires |bias| >= channels && b < batch && c < channels
    requires output.Length == Arith.Count(Arith.Dims4(batch, channels, height, width)) == |orig|
    requires BiasDone(Arith.Dims4(batch, channels, height, width), bias, orig, output[..],
                      (b * channels + c) * (height * width))
    modifies output
    ensures BiasDone(Arith.Dims4(batch, channels, height, width), bias, orig, output[..],
                     (b * channels + c) * (height * width) + height * width)
  {
    ghost var dims := Arith.Dims4(batch, channels, height, width);
    ghost var k0 := (b * channels + c) * (height * width);
    Arith.MulAssoc(b * channels + c, height, width);
    for i := 0 to height * width
      invariant BiasDone(dims, bias, orig, output[..], k0 + i)
    {
      var offset := (b * channels + c) * height * width + i;
      PlaneCell(dims, b, c, i);
      assert offset == k0 + i;
      ghost var before := output[..];
      output[offset] := output[offset] + bias[c];
      BiasStep(dims, bias, orig, before, output[..], k0 + i, c);
    }
  }

  /**
   * The bias loop (conv_2d.cc lines 439-448): with a bias, every cell of
   * channel c, in every batch, grows by exactly bias[c]; without one (a
   * null bias) the output is left as it is.
   */
  method AddBias(bias: Option<seq<int>>, batch: nat, channels: nat, height: nat, width: nat,
                 output: array<int>)
    requires bias.Some? ==> |bias.value| >= channels
    requires output.Length == Arith.Count(Arith.Dims4(batch, channels, height, width))
    modifies output
    ensures bias.None? ==> output[..] == old(output[..])
    ensures bias.Some? ==> forall i :: 0 <= i < output.Length ==>
      output[i] == old(output[i]) + bias.value[ChannelOf(Arith.Dims4(batch, channels, height, width), i)]
    ensures forall b: nat, c: nat, h: nat, w: nat ::
      Arith.InRange(Arith.Dims4(batch, channels, height, width), b, c, h, w) ==>
        output[Arith.Offset(Arith.Dims4(batch, channels, height, width), b, c, h, w)] ==
          old(output[Arith.Offset(Arith.Dims4(batch, channels, height, width), b, c, h, w)]) + BiasAt(bias, c)
  {
    ghost var dims := Arith.Dims4(batch, channels, height, width);
    ghost var orig := output[..];
    if bias.Some? {
      var biasData := bias.value;
      ghost var plane := height * width;
      ghost var k: nat := 0;
      for b := 0 to batch
        invariant k == b * channels * plane
        invariant BiasDone(dims, biasData, orig, output[..], k)
      {
        for c := 0 to channels
          invariant k == (b * channels + c) * plane
          invariant BiasDone(dims, biasData, orig, output[..], k)
        {
          AddBiasPlane(biasData, batch, channels, height, width, b, c, output, orig);
          Arith.NextRow(b * channels + c, plane);
          k := k + plane;
        }
        Arith.NextRow(b, channels);
      }
      Arith.MulAssoc(batch * channels, height, width);
    }
    BiasCells(dims, bias, orig, output[..]);
  }

  /** The flat form of the bias pass, read cell by cell. */
  lemma BiasCells(dims: Arith.Dims4, bias: Option<seq<int>>, orig: seq<int>, out: seq<int>)
    requires |orig| == |out| == Arith.Count(dims)
    requires bias.Some? ==> |bias.value| >= dims.d1
    requires bias.None? ==> out == orig
    requires bias.Some? ==> forall i :: 0 <= i < |out| ==> out[i] == orig[i] + bias.value[ChannelOf(dims, i)]
    ensures forall b: nat, c: nat, h: nat, w: nat :: Arith.InRange(dims, b, c, h, w) ==>
      out[Arith.Offset(dims, b, c, h, w)] == orig[Arith.Offset(dims, b, c, h, w)] + BiasAt(bias, c)
  {
    forall b: nat, c: nat, h: nat, w: nat | Arith.InRange(dims, b, c, h, w)
      ensures out[Arith.Offset(dims, b, c, h, w)] == orig[Arith.Offset(dims, b, c, h, w)] + BiasAt(bias, c)
    {
      Arith.DecodeOffset(dims, b, c, h, w);
    }
  }

  /** The bias of channel c, or nothing without a bias tensor. */
  function BiasAt(bias: Option<seq<int>>, c: nat): int
    requires bias.Some? ==> c < |bias.value|
  {
    if bias.Some? then bias.value[c] else 0
  }
}
