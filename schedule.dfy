/** The integer skeleton of the Hurst calculation: which base division size is
    chosen, how many geometric scales ("layers") are analysed, and which index
    range each block of a layer covers. */
module Schedule {

  /** Fewer samples than this and no estimate is computed. */
  const MinSamples := 16

  /** Base division size (the smallest block), chosen by fixed thresholds on the
      number of samples. */
  function DivSize(n: int): (d: int)
    ensures d == 2 || d == 4 || d == 6 || d == 8
    ensures n >= MinSamples ==> 8 * d <= n
  {
    if n < 64 then 2
    else if n < 128 then 4
    else if n < 256 then 6
    else 8
  }

  /** A larger series never gets a smaller base division size. */
  lemma DivSizeMonotone(n: int, m: int)
    requires n <= m
    ensures DivSize(n) <= DivSize(m)
  {
  }

  function Pow2(i: nat): (p: nat)
    ensures p >= 1
  {
    if i == 0 then 1 else 2 * Pow2(i - 1)
  }

  /** Block size of layer `i`: 2^i times the base division size. */
  function BlockSize(i: nat, d: int): int
  {
    Pow2(i) * d
  }

  lemma BlockSizeDoubles(i: nat, d: int)
    ensures BlockSize(i + 1, d) == 2 * BlockSize(i, d)
  {
  }

  /** Number of consecutive layers, starting at layer `i`, whose block size
      still fits into `n` samples. */
  function NumLayersFrom(n: int, d: int, i: nat): (r: nat)
    requires d >= 1
    ensures forall k :: i <= k < i + r ==> BlockSize(k, d) <= n
    ensures BlockSize(i + r, d) > n
    decreases n - BlockSize(i, d)
  {
    BlockSizeDoubles(i, d);
    if BlockSize(i, d) > n then 0 else 1 + NumLayersFrom(n, d, i + 1)
  }

  /** The number of layers the calculation analyses. */
  function NumLayers(n: int, d: int): nat
    requires d >= 1
  {
    NumLayersFrom(n, d, 0)
  }

  /** The first loop of the calculation: count the layers whose block size is
      at most `n`. */
  method LayerCount(n: int, d: int) returns (count: nat)
    requires d >= 1
    ensures forall k :: 0 <= k < count ==> BlockSize(k, d) <= n
    ensures BlockSize(count, d) > n
    ensures count == NumLayers(n, d)
  {
    count := 0;
    var i := 0;
    while Pow2(i) * d <= n
      invariant count == i
      invariant NumLayers(n, d) == i + NumLayersFrom(n, d, i)
      decreases n - BlockSize(i, d)
    {
      BlockSizeDoubles(i, d);
      count := count + 1;
      i := i + 1;
    }
  }

  /** Whenever there are enough samples, at least four layers are analysed:
      the regression that follows never sees a single scale. */
  lemma {:induction false} AtLeastFourLayers(n: int)
    requires n >= MinSamples
    ensures NumLayers(n, DivSize(n)) >= 4
  {
    var d := DivSize(n);
    assert Pow2(3) == 8;
    assert BlockSize(3, d) <= n;
    // the ensures of NumLayersFrom puts BlockSize(NumLayers(n, d), d) above n
  }

  /** Bounds of block `j` of a layer with block size `size`: it starts at
      `j * size` and ends (exclusive) at `(j + 1) * size`, except that an end
      that reaches `n` is clamped to `n - 1`. */
  function BlockBounds(n: int, size: int, j: int): (int, int)
  {
    var end := (j + 1) * size;
    (j * size, if end < n then end else n - 1)
  }

  lemma MulMonotone(a: int, b: int, c: int)
    requires a <= b && c >= 0
    ensures a * c <= b * c
  {
  }

  /** Every block of a layer lies inside the series and is non-empty. */
  lemma BlockBoundsValid(n: int, size: int, j: int)
    requires 2 <= size && 0 <= j < n / size
    ensures 0 <= BlockBounds(n, size, j).0 < BlockBounds(n, size, j).1 <= n - 1
  {
    MulMonotone(j + 1, n / size, size);
    assert (n / size) * size <= n;
    assert (j + 1) * size <= n;
    MulMonotone(0, j, size);
  }

  /** A block has exactly `size` samples, except when its end reaches `n`:
      then the clamp drops the last sample and it has `size - 1`. */
  lemma BlockLength(n: int, size: int, j: int)
    requires 2 <= size && 0 <= j < n / size
    ensures var (i0, i1) := BlockBounds(n, size, j);
      i1 - i0 == (if (j + 1) * size == n then size - 1 else size)
  {
    BlockBoundsValid(n, size, j);
    MulMonotone(j + 1, n / size, size);
  }

  /** Blocks of one layer are in increasing order and do not overlap. */
  lemma BlocksOrdered(n: int, size: int, j: int)
    requires 2 <= size && 0 <= j && j + 1 < n / size
    ensures BlockBounds(n, size, j).1 == BlockBounds(n, size, j + 1).0
  {
    MulMonotone(j + 2, n / size, size);
  }

  /** Every layer of the calculation has at least one block. */
  lemma LayerHasBlocks(n: int, d: int, i: nat)
    requires d >= 1 && i < NumLayers(n, d)
    ensures BlockSize(i, d) >= 1 && n / BlockSize(i, d) >= 1
  {
  }
}
