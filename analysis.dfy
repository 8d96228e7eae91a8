/** The calculation over a snapshot of the buffer: the early exit for short
    series, and the nested layer/block loops that compute, for every block of
    every layer, its mean, variance and range. The floating-point tail of the
    calculation (square root, logarithms, regression) is not part of this
    model. */
module Analysis {
  import opened Schedule
  import opened BlockStats

  /** Statistics of one block `[idx0, idx1)` of the snapshot. */
  datatype Block = Block(idx0: int, idx1: int, mean: real, variance: real, range: real)

  /** One scale of the analysis: its block size and its blocks, in order. */
  datatype Layer = Layer(size: int, blocks: seq<Block>)

  /** Either too few samples (with or without a warning), or the layers. */
  datatype CalcOutcome = TooFew(warned: bool) | Analysed(layers: seq<Layer>)

  /** Block `j` of the layer with block size `size`. */
  function BlockOf(s: seq<real>, size: int, j: int): (b: Block)
    requires 2 <= size && 0 <= j < |s| / size
    ensures 0 <= b.idx0 < b.idx1 <= |s| - 1
  {
    BlockBoundsValid(|s|, size, j);
    var (i0, i1) := BlockBounds(|s|, size, j);
    var m := Mean(s[i0..i1]);
    Block(i0, i1, m, Variance(s[i0..i1]), Range(s[i0..i1], m))
  }

  /** The layer with block size `size`: `|s| / size` blocks. */
  function LayerOf(s: seq<real>, size: int): Layer
    requires 2 <= size
  {
    Layer(size, seq(|s| / size, j requires 0 <= j < |s| / size => BlockOf(s, size, j)))
  }

  /** What the calculation computes from the snapshot `s`, given the
      size-warning flag. */
  function Outcome(s: seq<real>, showSizeWarning: int): CalcOutcome
  {
    if |s| < MinSamples then TooFew(showSizeWarning == 1)
    else
      var d := DivSize(|s|);
      Analysed(seq(NumLayers(|s|, d), i requires 0 <= i < NumLayers(|s|, d) => LayerOf(s, BlockSize(i, d))))
  }

  /** The calculation's loops: count the layers, then for every layer and
      every block compute the block's statistics. */
  method Calculate(s: seq<real>, showSizeWarning: int) returns (outcome: CalcOutcome)
    ensures outcome == Outcome(s, showSizeWarning)
  {
    var n := |s|;
    if n < MinSamples {
      return TooFew(showSizeWarning == 1);
    }
    var d := DivSize(n);
    var layerCount := LayerCount(n, d);
    var layers: seq<Layer> := [];
    var i := 0;
    while i < layerCount
      invariant 0 <= i <= layerCount
      invariant |layers| == i
      invariant forall k :: 0 <= k < i ==> layers[k] == LayerOf(s, BlockSize(k, d))
    {
      var layer := ComputeLayer(s, Pow2(i) * d);
      layers := layers + [layer];
      i := i + 1;
    }
    outcome := Analysed(layers);
  }

  /** The inner loop of the calculation: the statistics of every block of
      the layer with block size `size`. */
  method ComputeLayer(s: seq<real>, size: int) returns (layer: Layer)
    requires 2 <= size
    ensures layer == LayerOf(s, size)
  {
    var n := |s|;
    var blockCount := n / size;
    var blocks: seq<Block> := [];
    var j := 0;
    while j < blockCount
      invariant 0 <= j <= blockCount
      invariant |blocks| == j
      invariant forall k :: 0 <= k < j ==> blocks[k] == BlockOf(s, size, k)
    {
      BlockBoundsValid(n, size, j);
      var (idx0, idx1) := BlockBounds(n, size, j);
      var mean, variance := MeanAndVariance(s, idx0, idx1);
      var range := ComputeRange(s, idx0, idx1, mean);
      blocks := blocks + [Block(idx0, idx1, mean, variance, range)];
      j := j + 1;
    }
    layer := Layer(size, blocks);
  }

  /** The calculation produces layers exactly when there are at least 16
      samples, warns only when it does not and the flag is 1, and then has at
      least four layers, every one with at least one block, each block a
      non-empty range inside the series with a non-negative variance and
      range. */
  lemma OutcomeShape(s: seq<real>, showSizeWarning: int)
    ensures Outcome(s, showSizeWarning).TooFew? <==> |s| < MinSamples
    ensures Outcome(s, showSizeWarning).TooFew? ==>
      (Outcome(s, showSizeWarning).warned <==> showSizeWarning == 1)
    ensures Outcome(s, showSizeWarning).Analysed? ==>
      var layers := Outcome(s, showSizeWarning).layers;
      && |layers| >= 4
      && forall i :: 0 <= i < |layers| ==>
        && layers[i].size == BlockSize(i, DivSize(|s|))
        && |layers[i].blocks| == |s| / layers[i].size >= 1
        && forall j :: 0 <= j < |layers[i].blocks| ==>
          var b := layers[i].blocks[j];
          0 <= b.idx0 < b.idx1 <= |s| - 1 && b.variance >= 0.0 && b.range >= 0.0
  {
    if |s| >= MinSamples {
      AtLeastFourLayers(|s|);
      var d := DivSize(|s|);
      var layers := Outcome(s, showSizeWarning).layers;
      forall i | 0 <= i < |layers|
        ensures layers[i].size == BlockSize(i, d) && |layers[i].blocks| == |s| / layers[i].size >= 1
        ensures forall j :: 0 <= j < |layers[i].blocks| ==>
          var b := layers[i].blocks[j];
          0 <= b.idx0 < b.idx1 <= |s| - 1 && b.variance >= 0.0 && b.range >= 0.0
      {
        LayerHasBlocks(|s|, d, i);
        LayerShape(s, BlockSize(i, d));
      }
    }
  }

  /** Every block of a layer is a non-empty range inside the series with a
      non-negative variance and range. */
  lemma LayerShape(s: seq<real>, size: int)
    requires 2 <= size
    ensures forall j :: 0 <= j < |LayerOf(s, size).blocks| ==>
      var b := LayerOf(s, size).blocks[j];
      0 <= b.idx0 < b.idx1 <= |s| - 1 && b.variance >= 0.0 && b.range >= 0.0
  {
    forall j | 0 <= j < |s| / size
      ensures BlockOf(s, size, j).variance >= 0.0 && BlockOf(s, size, j).range >= 0.0
    {
      var (i0, i1) := BlockBounds(|s|, size, j);
      BlockBoundsValid(|s|, size, j);
      VarianceBounds(s[i0..i1]);
      RangeNonNegative(s[i0..i1], Mean(s[i0..i1]));
    }
  }

  /** With the end of a block clamped to `n - 1`, a series of even length
      below 64 has a one-sample last block in its first layer: its variance
      and range are 0, so its standard deviation is replaced by the floor. */
  lemma LastBlockOfFirstLayer(s: seq<real>, showSizeWarning: int)
    requires MinSamples <= |s| < 64 && |s| % 2 == 0
    ensures var layers := Outcome(s, showSizeWarning).layers;
      var last := layers[0].blocks[|s| / 2 - 1];
      && last.idx0 == |s| - 2 && last.idx1 == |s| - 1
      && last.variance == 0.0 && last.range == 0.0
  {
    OutcomeShape(s, showSizeWarning);
    var b := BlockOf(s, 2, |s| / 2 - 1);
    assert b.idx0 == |s| - 2 && b.idx1 == |s| - 1;
    VarianceBounds(s[|s| - 2..|s| - 1]);
    RangeOfSingleton(s[|s| - 2..|s| - 1], b.mean);
  }
}
