/**
 * Channel compositing of equally shaped colour images.
 *
 * An image is a dense `array3<int>` indexed by (row, column, channel):
 * `Length0` is the height, `Length1` the width and `Length2` the number of
 * channels. The compositors never write to their input images (they have no
 * `modifies` clause) and return a freshly allocated output image.
 *
 * Python's `random.randint` is replaced by a caller-supplied sequence of
 * draws, consumed front to back: even positions hold image indices, odd
 * positions channel indices.
 */
module Glitchify {
  import opened Wrappers

  datatype GlitchError =
    | WrongImageCount   // `assert len(aImages) ...` fails
    | ShapeMismatch     // `assert CheckImageListDimensions(aImages)` fails
    | ZeroBlockSize     // division by a block size of 0

  // ---------------------------------------------------------------------
  // Shapes and the shape validator
  // ---------------------------------------------------------------------

  /** `np.shape` of an image. */
  function ShapeOf(img: array3<int>): seq<int>
  {
    [img.Length0, img.Length1, img.Length2]
  }

  function ShapesOf(images: seq<array3<int>>): (shapes: seq<seq<int>>)
    ensures |shapes| == |images|
    ensures forall k :: 0 <= k < |images| ==> shapes[k] == ShapeOf(images[k])
  {
    seq(|images|, k requires 0 <= k < |images| => ShapeOf(images[k]))
  }

  /**
   * The shape check on a list of `np.shape` tuples of any rank: the first
   * image has three axes, its channel axis has length 3, and every later
   * image has exactly the first image's shape.
   */
  predicate ShapesCompatible(shapes: seq<seq<int>>)
    requires |shapes| > 0
  {
    && |shapes[0]| == 3
    && shapes[0][2] == 3
    && forall k :: 1 <= k < |shapes| ==> shapes[k] == shapes[0]
  }

  /** The validator as the source runs it: one flag threaded through a loop. */
  method CheckImageListDimensions(shapes: seq<seq<int>>) returns (result: bool)
    requires |shapes| > 0
    ensures result <==> ShapesCompatible(shapes)
  {
    result := |shapes[0]| == 3;
    result := result && shapes[0][2] == 3;
    var k := 1;
    while k < |shapes|
      invariant 1 <= k <= |shapes|
      invariant result <==>
        |shapes[0]| == 3 && shapes[0][2] == 3 &&
        forall m :: 1 <= m < k ==> shapes[m] == shapes[0]
    {
      result := result && shapes[k] == shapes[0];
      k := k + 1;
    }
  }

  /** A non-empty batch of images that all have the first image's height and width, with 3 channels. */
  predicate SameShape(images: seq<array3<int>>)
  {
    && |images| > 0
    && images[0].Length2 == 3
    && forall k :: 0 <= k < |images| ==>
         && images[k].Length0 == images[0].Length0
         && images[k].Length1 == images[0].Length1
         && images[k].Length2 == 3
  }

  /** The validator accepts a batch of images exactly when they all share one 3-channel shape. */
  lemma SameShapeIff(images: seq<array3<int>>)
    requires |images| > 0
    ensures ShapesCompatible(ShapesOf(images)) <==> SameShape(images)
  {
    var shapes := ShapesOf(images);
    if ShapesCompatible(shapes) {
      forall k | 0 <= k < |images|
        ensures images[k].Length0 == images[0].Length0
        ensures images[k].Length1 == images[0].Length1
        ensures images[k].Length2 == 3
      {
        if k > 0 {
          assert shapes[k] == shapes[0];
          assert shapes[k][0] == shapes[0][0] && shapes[k][1] == shapes[0][1] && shapes[k][2] == shapes[0][2];
        }
      }
    }
  }

  // ---------------------------------------------------------------------
  // Copying a rectangle of one channel plane
  // ---------------------------------------------------------------------

  /**
   * `dst[y0:y1, x0:x1, dstChannel] = src[y0:y1, x0:x1, srcChannel]`:
   * exactly the samples of that rectangle in that channel change.
   */
  method CopyBlock(src: array3<int>, srcChannel: int, dst: array3<int>, dstChannel: int,
                   y0: int, y1: int, x0: int, x1: int)
    requires src != dst
    requires 0 <= y0 <= y1 <= src.Length0 && y1 <= dst.Length0
    requires 0 <= x0 <= x1 <= src.Length1 && x1 <= dst.Length1
    requires 0 <= srcChannel < src.Length2 && 0 <= dstChannel < dst.Length2
    modifies dst
    ensures forall y, x, c :: 0 <= y < dst.Length0 && 0 <= x < dst.Length1 && 0 <= c < dst.Length2 ==>
      dst[y, x, c] ==
        if y0 <= y < y1 && x0 <= x < x1 && c == dstChannel then src[y, x, srcChannel]
        else old(dst[y, x, c])
  {
    var y := y0;
    while y < y1
      invariant y0 <= y <= y1
      invariant forall yy, xx, c :: 0 <= yy < dst.Length0 && 0 <= xx < dst.Length1 && 0 <= c < dst.Length2 ==>
        dst[yy, xx, c] ==
          if y0 <= yy < y && x0 <= xx < x1 && c == dstChannel then src[yy, xx, srcChannel]
          else old(dst[yy, xx, c])
    {
      var x := x0;
      while x < x1
        invariant x0 <= x <= x1
        invariant forall yy, xx, c :: 0 <= yy < dst.Length0 && 0 <= xx < dst.Length1 && 0 <= c < dst.Length2 ==>
          dst[yy, xx, c] ==
            if ((y0 <= yy < y && x0 <= xx < x1) || (yy == y && x0 <= xx < x)) && c == dstChannel
            then src[yy, xx, srcChannel]
            else old(dst[yy, xx, c])
      {
        dst[y, x, dstChannel] := src[y, x, srcChannel];
        x := x + 1;
      }
      y := y + 1;
    }
  }

  // ---------------------------------------------------------------------
  // Deterministic strategy
  // ---------------------------------------------------------------------

  /**
   * `glitchify`: the output has the first image's shape, and its channel
   * `c` is channel `c` of image `c`.
   */
  method Glitchify(images: seq<array3<int>>) returns (r: Result<array3<int>, GlitchError>)
    ensures |images| != 3 ==> r == Err(WrongImageCount)
    ensures |images| == 3 && !SameShape(images) ==> r == Err(ShapeMismatch)
    ensures |images| == 3 && SameShape(images) ==>
      && r.Ok?
      && fresh(r.value)
      && r.value.Length0 == images[0].Length0
      && r.value.Length1 == images[0].Length1
      && r.value.Length2 == 3
      && forall y, x, c :: 0 <= y < r.value.Length0 && 0 <= x < r.value.Length1 && 0 <= c < 3 ==>
           r.value[y, x, c] == images[c][y, x, c]
  {
    if |images| != 3 {
      return Err(WrongImageCount);
    }
    var ok := CheckImageListDimensions(ShapesOf(images));
    SameShapeIff(images);
    if !ok {
      return Err(ShapeMismatch);
    }
    var h, w := images[0].Length0, images[0].Length1;
    var out := new int[h, w, 3]((_, _, _) => 0);
    assert forall k :: 0 <= k < |images| ==> images[k] != out;
    var c := 0;
    while c < out.Length2
      invariant 0 <= c <= 3
      invariant forall y, x, d :: 0 <= y < h && 0 <= x < w && 0 <= d < 3 ==>
        out[y, x, d] == if d < c then images[d][y, x, d] else 0
    {
      CopyBlock(images[c], c, out, c, 0, h, 0, w);
      c := c + 1;
    }
    return Ok(out);
  }

  // ---------------------------------------------------------------------
  // The block grid
  // ---------------------------------------------------------------------

  /** Python's integer `a / b` (`//` in Python 3): the quotient rounded toward minus infinity. */
  function FloorDiv(a: int, b: int): int
    requires b != 0
  {
    if b > 0 then a / b else (-a) / (-b)
  }

  /** Python's `a % b`: what is left after the floor quotient's multiple. */
  function FloorMod(a: int, b: int): int
    requires b != 0
  {
    a - b * FloorDiv(a, b)
  }

  /**
   * Python's division identity: `a == b * (a / b) + a % b` with the
   * remainder strictly between 0 and `b` (or 0 itself), so it takes the
   * sign of `b`; `b * (a / b)` is the last multiple of `b` at or below `a`
   * for positive `b`, and at or above it for negative `b`.
   */
  lemma FloorDivIsFloor(a: int, b: int)
    requires b != 0
    ensures a == b * FloorDiv(a, b) + FloorMod(a, b)
    ensures b > 0 ==> 0 <= FloorMod(a, b) < b
    ensures b < 0 ==> b < FloorMod(a, b) <= 0
  {
    if b < 0 {
      var m, q := -b, (-a) / (-b);
      assert -a == m * q + (-a) % m && 0 <= (-a) % m < m;
      assert b * q == -(m * q);
    }
  }

  /** `dim / b + (0 if dim % b == 0 else 1)`: blocks along one axis. */
  function NumBlocks(dim: int, b: int): int
    requires b != 0
  {
    FloorDiv(dim, b) + (if FloorMod(dim, b) == 0 then 0 else 1)
  }

  /** First row (or column) of block `k`. */
  function BlockStart(k: int, b: int): int
  {
    k * b
  }

  /** One past the last row (or column) of block `k`, clipped to the image as a slice is. */
  function BlockEnd(k: int, b: int, dim: int): int
  {
    if (k + 1) * b < dim then (k + 1) * b else dim
  }

  /** For a positive block size the count is the ceiling of `dim / b`: the fewest blocks that cover `dim`. */
  lemma NumBlocksIsCeiling(dim: nat, b: int)
    requires b >= 1
    ensures 0 <= NumBlocks(dim, b)
    ensures (NumBlocks(dim, b) - 1) * b < dim <= NumBlocks(dim, b) * b
  {
    var q, r := dim / b, dim % b;
    assert dim == q * b + r;
    if r == 0 {
      assert NumBlocks(dim, b) == q;
      assert (q - 1) * b == dim - b;
    } else {
      assert NumBlocks(dim, b) == q + 1;
      assert (q + 1) * b == dim - r + b;
    }
  }

  /** For a negative block size there is no block at all (Python's `range` of the count is empty). */
  lemma NumBlocksNonPositive(dim: nat, b: int)
    requires b < 0
    ensures NumBlocks(dim, b) <= 0
  {
    var d: int := dim;
    var m := -b;
    var q, r := (-d) / m, (-d) % m;
    assert -d == q * m + r && 0 <= r < m;
    assert FloorDiv(dim, b) == q;
    if d > 0 {
      if q >= 0 {
        MulLeft(-1, q, m);
      }
      assert q <= -1;
    } else {
      assert q == 0;
      assert FloorMod(dim, b) == 0;
    }
  }

  lemma MulLeft(a: int, a': int, n: int)
    requires a < a' && n > 0
    ensures a * n + n <= a' * n
  {
    var d := a' - a;
    assert d >= 1;
    assert a' * n == a * n + d * n;
    assert d * n >= n;
  }

  /**
   * A sample position lies in block `k` (as clipped) exactly when `k` is the
   * position divided by the block size: the blocks partition each axis, so
   * every sample belongs to exactly one block.
   */
  lemma BlockOfSample(p: int, b: int, dim: int, k: int)
    requires b >= 1 && 0 <= p < dim && 0 <= k
    ensures BlockStart(k, b) <= p < BlockEnd(k, b, dim) <==> k == p / b
  {
    var q := p / b;
    assert q * b <= p < q * b + b;
    if k < q {
      MulLeft(k, q, b);
    } else if k > q {
      MulLeft(q, k, b);
    }
    assert (k + 1) * b == k * b + b;
  }

  /** The block of an in-image position is in the grid. */
  lemma BlockInGrid(p: int, b: int, dim: nat)
    requires b >= 1 && 0 <= p < dim
    ensures 0 <= p / b < NumBlocks(dim, b)
  {
    NumBlocksIsCeiling(dim, b);
    var n := NumBlocks(dim, b);
    var q := p / b;
    assert q * b <= p;
    if q > n {
      MulLeft(n, q, b);
    }
  }

  /** Every block of the grid is a non-empty range inside the image. */
  lemma BlockInImage(k: int, b: int, dim: nat)
    requires b >= 1 && 0 <= k < NumBlocks(dim, b)
    ensures 0 <= BlockStart(k, b) < BlockEnd(k, b, dim) <= dim
  {
    NumBlocksIsCeiling(dim, b);
    var n := NumBlocks(dim, b);
    if k < n - 1 {
      MulLeft(k, n - 1, b);
    }
    assert k * b <= (n - 1) * b;
    assert (k + 1) * b == k * b + b;
  }

  // ---------------------------------------------------------------------
  // Draw order
  // ---------------------------------------------------------------------

  /**
   * Rank of block (column `bc`, row `br`) of channel `c` in the order the
   * loops visit them: channel outermost, then block column, then block row.
   */
  function DrawIndex(c: int, bc: int, br: int, nbx: int, nby: int): int
  {
    (c * nbx + bc) * nby + br
  }

  lemma DivModUnique(a: int, r: int, a': int, r': int, n: int)
    requires n > 0 && 0 <= r < n && 0 <= r' < n
    requires a * n + r == a' * n + r'
    ensures a == a' && r == r'
  {
    if a < a' {
      MulLeft(a, a', n);
    } else if a > a' {
      MulLeft(a', a, n);
    }
  }

  /** Different (channel, block) triples of the grid have different ranks. */
  lemma DrawIndexInjective(c: int, bc: int, br: int, c': int, bc': int, br': int, nbx: int, nby: int)
    requires 0 <= c < 3 && 0 <= bc < nbx && 0 <= br < nby
    requires 0 <= c' < 3 && 0 <= bc' < nbx && 0 <= br' < nby
    ensures DrawIndex(c, bc, br, nbx, nby) == DrawIndex(c', bc', br', nbx, nby) <==>
      c == c' && bc == bc' && br == br'
  {
    if DrawIndex(c, bc, br, nbx, nby) == DrawIndex(c', bc', br', nbx, nby) {
      DivModUnique(c * nbx + bc, br, c' * nbx + bc', br', nby);
      DivModUnique(c, bc, c', bc', nbx);
    }
  }

  lemma DrawIndexBound(c: int, bc: int, br: int, nbx: int, nby: int)
    requires 0 <= c < 3 && 0 <= bc < nbx && 0 <= br < nby
    ensures 0 <= DrawIndex(c, bc, br, nbx, nby) < 3 * nbx * nby
  {
    MulLeft(c, 3, nbx);
    assert c * nbx + bc < 3 * nbx;
    MulLeft(c * nbx + bc, 3 * nbx, nby);
    assert 0 <= c * nbx + bc;
    assert 0 <= (c * nbx + bc) * nby;
  }

  /** The random draws are in range: image indices below `count`, channel indices below 3. */
  predicate DrawsInRange(draws: seq<int>, count: int)
  {
    forall k :: 0 <= k < |draws| ==>
      0 <= draws[k] && draws[k] < (if k % 2 == 0 then count else 3)
  }

  /** Number of `randint` calls: two for every (channel, block). */
  function DrawsNeeded(h: int, w: int, b: int): int
    requires b != 0
  {
    if b < 0 then 0 else 2 * (3 * NumBlocks(w, b) * NumBlocks(h, b))
  }

  /** Rank of the (channel, block) that sample (y, x, c) belongs to. */
  function SampleDraw(h: int, w: int, b: int, y: int, x: int, c: int): int
    requires b >= 1
  {
    DrawIndex(c, x / b, y / b, NumBlocks(w, b), NumBlocks(h, b))
  }

  lemma SampleDrawBound(h: nat, w: nat, b: int, y: int, x: int, c: int)
    requires b >= 1 && 0 <= y < h && 0 <= x < w && 0 <= c < 3
    ensures 0 <= SampleDraw(h, w, b, y, x, c) < 3 * NumBlocks(w, b) * NumBlocks(h, b)
  {
    BlockInGrid(x, b, w);
    BlockInGrid(y, b, h);
    DrawIndexBound(c, x / b, y / b, NumBlocks(w, b), NumBlocks(h, b));
  }

  /** The preconditions of the random strategy once its asserts have passed. */
  predicate RandomInputs(images: seq<array3<int>>, b: int, draws: seq<int>)
  {
    && SameShape(images)
    && b >= 1
    && DrawsInRange(draws, |images|)
    && |draws| >= DrawsNeeded(images[0].Length0, images[0].Length1, b)
  }

  /**
   * The value `glitchify_random` leaves at sample (y, x, c): the co-located
   * sample of the image and channel drawn for that sample's (channel, block).
   */
  function RandomSample(images: seq<array3<int>>, b: int, draws: seq<int>, y: int, x: int, c: int): (v: int)
    reads images
    requires RandomInputs(images, b, draws)
    requires 0 <= y < images[0].Length0 && 0 <= x < images[0].Length1 && 0 <= c < 3
    ensures exists i, j :: 0 <= i < |images| && 0 <= j < 3 && v == images[i][y, x, j]
  {
    var h, w := images[0].Length0, images[0].Length1;
    SampleDrawBound(h, w, b, y, x, c);
    var k := SampleDraw(h, w, b, y, x, c);
    images[draws[2 * k]][y, x, draws[2 * k + 1]]
  }

  /** Whether (channel, block) `(c, bc, br)` is visited before `(c', bc', br')`. */
  predicate Before(c: int, bc: int, br: int, c': int, bc': int, br': int)
  {
    c < c' || (c == c' && (bc < bc' || (bc == bc' && br < br')))
  }

  /**
   * Loop invariant of the random strategy: samples of the blocks visited so
   * far hold their final value, all others still hold the initial 0.
   */
  ghost predicate Filled(out: array3<int>, images: seq<array3<int>>, b: int, draws: seq<int>,
                         c: int, bc: int, br: int)
    reads out, images
    requires RandomInputs(images, b, draws)
    requires out.Length0 == images[0].Length0 && out.Length1 == images[0].Length1 && out.Length2 == 3
  {
    forall y, x, d :: 0 <= y < out.Length0 && 0 <= x < out.Length1 && 0 <= d < 3 ==>
      out[y, x, d] ==
        if Before(d, x / b, y / b, c, bc, br) then RandomSample(images, b, draws, y, x, d) else 0
  }

  /** The output image the random strategy writes into, before and after each block. */
  predicate OutputFor(out: array3<int>, images: seq<array3<int>>)
    requires |images| > 0
  {
    && out.Length0 == images[0].Length0
    && out.Length1 == images[0].Length1
    && out.Length2 == 3
    && forall k :: 0 <= k < |images| ==> images[k] != out
  }

  /**
   * One step of the innermost loop: consume the two draws at `next` (image
   * index first, then channel index) and copy block (`bc`, `br`) of that
   * image's channel into channel `c` of `out`.
   */
  method FillBlock(out: array3<int>, images: seq<array3<int>>, b: int, draws: seq<int>,
                   c: int, bc: int, br: int, next: int)
    requires RandomInputs(images, b, draws) && OutputFor(out, images)
    requires 0 <= c < 3
    requires 0 <= bc < NumBlocks(images[0].Length1, b) && 0 <= br < NumBlocks(images[0].Length0, b)
    requires next == 2 * DrawIndex(c, bc, br, NumBlocks(images[0].Length1, b), NumBlocks(images[0].Length0, b))
    requires Filled(out, images, b, draws, c, bc, br)
    modifies out
    ensures Filled(out, images, b, draws, c, bc, br + 1)
  {
    var h, w := images[0].Length0, images[0].Length1;
    DrawIndexBound(c, bc, br, NumBlocks(w, b), NumBlocks(h, b));
    var i := draws[next];
    var j := draws[next + 1];
    BlockInImage(bc, b, w);
    BlockInImage(br, b, h);
    CopyBlock(images[i], j, out, c, BlockStart(br, b), BlockEnd(br, b, h), BlockStart(bc, b), BlockEnd(bc, b, w));
    forall y, x, d | 0 <= y < h && 0 <= x < w && 0 <= d < 3
      ensures out[y, x, d] ==
        if Before(d, x / b, y / b, c, bc, br + 1) then RandomSample(images, b, draws, y, x, d) else 0
    {
      BlockOfSample(x, b, w, bc);
      BlockOfSample(y, b, h, br);
    }
  }

  /** Before any block is visited, the freshly zeroed output satisfies the loop invariant. */
  lemma FilledInitially(out: array3<int>, images: seq<array3<int>>, b: int, draws: seq<int>)
    requires RandomInputs(images, b, draws) && OutputFor(out, images)
    requires forall y, x, d :: 0 <= y < out.Length0 && 0 <= x < out.Length1 && 0 <= d < 3 ==> out[y, x, d] == 0
    ensures Filled(out, images, b, draws, 0, 0, 0)
  {
    forall y, x, d | 0 <= y < out.Length0 && 0 <= x < out.Length1 && 0 <= d < 3
      ensures !Before(d, x / b, y / b, 0, 0, 0)
    {
      BlockInGrid(x, b, out.Length1);
      BlockInGrid(y, b, out.Length0);
    }
  }

  /** Finishing the last block row of a column moves on to the next column. */
  lemma FilledNextColumn(out: array3<int>, images: seq<array3<int>>, b: int, draws: seq<int>, c: int, bc: int)
    requires RandomInputs(images, b, draws) && OutputFor(out, images)
    requires Filled(out, images, b, draws, c, bc, NumBlocks(images[0].Length0, b))
    ensures Filled(out, images, b, draws, c, bc + 1, 0)
  {
    var h, w := images[0].Length0, images[0].Length1;
    forall y, x, d | 0 <= y < h && 0 <= x < w && 0 <= d < 3
      ensures Before(d, x / b, y / b, c, bc, NumBlocks(h, b)) == Before(d, x / b, y / b, c, bc + 1, 0)
    {
      BlockInGrid(y, b, h);
    }
  }

  /** Finishing the last block column of a channel moves on to the next channel. */
  lemma FilledNextChannel(out: array3<int>, images: seq<array3<int>>, b: int, draws: seq<int>, c: int)
    requires RandomInputs(images, b, draws) && OutputFor(out, images)
    requires Filled(out, images, b, draws, c, NumBlocks(images[0].Length1, b), 0)
    ensures Filled(out, images, b, draws, c + 1, 0, 0)
  {
    var h, w := images[0].Length0, images[0].Length1;
    forall y, x, d | 0 <= y < h && 0 <= x < w && 0 <= d < 3
      ensures Before(d, x / b, y / b, c, NumBlocks(w, b), 0) == Before(d, x / b, y / b, c + 1, 0, 0)
    {
      BlockInGrid(x, b, w);
    }
  }

  // ---------------------------------------------------------------------
  // Random-block strategy
  // ---------------------------------------------------------------------

  /**
   * `glitchify_random`: for every channel and every (clipped) block, copy that
   * block from the drawn channel of the drawn image. Returns the output and
   * the number of draws consumed.
   */
  method GlitchifyRandom(images: seq<array3<int>>, blockSize: int, draws: seq<int>)
    returns (r: Result<array3<int>, GlitchError>, used: nat)
    requires DrawsInRange(draws, |images|)
    requires |images| >= 2 && SameShape(images) && blockSize != 0 ==>
      |draws| >= DrawsNeeded(images[0].Length0, images[0].Length1, blockSize)
    ensures |images| < 2 ==> r == Err(WrongImageCount) && used == 0
    ensures |images| >= 2 && !SameShape(images) ==> r == Err(ShapeMismatch) && used == 0
    ensures |images| >= 2 && SameShape(images) && blockSize == 0 ==> r == Err(ZeroBlockSize) && used == 0
    ensures |images| >= 2 && SameShape(images) && blockSize != 0 ==>
      && r.Ok?
      && fresh(r.value)
      && r.value.Length0 == images[0].Length0
      && r.value.Length1 == images[0].Length1
      && r.value.Length2 == 3
      && used == DrawsNeeded(images[0].Length0, images[0].Length1, blockSize)
      && forall y, x, c :: 0 <= y < r.value.Length0 && 0 <= x < r.value.Length1 && 0 <= c < 3 ==>
           r.value[y, x, c] ==
             if blockSize < 0 then 0 else RandomSample(images, blockSize, draws, y, x, c)
  {
    if |images| < 2 {
      return Err(WrongImageCount), 0;
    }
    var ok := CheckImageListDimensions(ShapesOf(images));
    SameShapeIff(images);
    if !ok {
      return Err(ShapeMismatch), 0;
    }
    var h, w := images[0].Length0, images[0].Length1;
    var out := new int[h, w, 3]((_, _, _) => 0);
    if blockSize == 0 {
      return Err(ZeroBlockSize), 0;
    }
    var b := blockSize;
    var nbx := NumBlocks(w, b);
    var nby := NumBlocks(h, b);
    if b < 0 {
      // Both counts are at most 0, so the block loops visit nothing.
      NumBlocksNonPositive(w, b);
      return Ok(out), 0;
    }
    NumBlocksIsCeiling(w, b);
    NumBlocksIsCeiling(h, b);
    assert OutputFor(out, images);
    FilledInitially(out, images, b, draws);
    var next := 0;
    var c := 0;
    while c < 3
      invariant 0 <= c <= 3
      invariant next == 2 * DrawIndex(c, 0, 0, nbx, nby)
      invariant Filled(out, images, b, draws, c, 0, 0)
    {
      var bc := 0;
      while bc < nbx
        invariant 0 <= bc <= nbx
        invariant next == 2 * DrawIndex(c, bc, 0, nbx, nby)
        invariant Filled(out, images, b, draws, c, bc, 0)
      {
        var br := 0;
        while br < nby
          invariant 0 <= br <= nby
          invariant next == 2 * DrawIndex(c, bc, br, nbx, nby)
          invariant Filled(out, images, b, draws, c, bc, br)
        {
          FillBlock(out, images, b, draws, c, bc, br, next);
          next := next + 2;
          br := br + 1;
        }
        FilledNextColumn(out, images, b, draws, c, bc);
        assert (c * nbx + bc) * nby + nby == (c * nbx + bc + 1) * nby;
        bc := bc + 1;
      }
      FilledNextChannel(out, images, b, draws, c);
      assert (c * nbx + nbx) * nby == ((c + 1) * nbx) * nby;
      c := c + 1;
    }
    return Ok(out), next;
  }

  // ---------------------------------------------------------------------
  // Properties of the random strategy
  // ---------------------------------------------------------------------

  /**
   * Two samples take their value from the same pair of draws exactly when
   * they are in the same channel and the same block: every (channel, block)
   * gets its own image and channel choice.
   */
  lemma SameDrawIffSameBlock(h: nat, w: nat, b: int, y: int, x: int, c: int, y': int, x': int, c': int)
    requires b >= 1
    requires 0 <= y < h && 0 <= x < w && 0 <= c < 3
    requires 0 <= y' < h && 0 <= x' < w && 0 <= c' < 3
    ensures SampleDraw(h, w, b, y, x, c) == SampleDraw(h, w, b, y', x', c') <==>
      c == c' && x / b == x' / b && y / b == y' / b
  {
    BlockInGrid(x, b, w);
    BlockInGrid(y, b, h);
    BlockInGrid(x', b, w);
    BlockInGrid(y', b, h);
    DrawIndexInjective(c, x / b, y / b, c', x' / b, y' / b, NumBlocks(w, b), NumBlocks(h, b));
  }

  /**
   * A block size of at least the image's height and width gives one block per
   * channel, so each output channel is one whole plane of one drawn image.
   */
  lemma WholePlanePerChannel(images: seq<array3<int>>, b: int, draws: seq<int>, y: int, x: int, c: int)
    requires RandomInputs(images, b, draws)
    requires b >= images[0].Length0 && b >= images[0].Length1
    requires 0 <= y < images[0].Length0 && 0 <= x < images[0].Length1 && 0 <= c < 3
    ensures NumBlocks(images[0].Length0, b) == 1 && NumBlocks(images[0].Length1, b) == 1
    ensures RandomSample(images, b, draws, y, x, c) == images[draws[2 * c]][y, x, draws[2 * c + 1]]
  {
    var h, w := images[0].Length0, images[0].Length1;
    SingleBlock(h, b);
    SingleBlock(w, b);
    BlockOfSample(x, b, w, 0);
    BlockOfSample(y, b, h, 0);
    assert SampleDraw(h, w, b, y, x, c) == DrawIndex(c, 0, 0, 1, 1) == c;
  }

  /** A block at least as long as a non-empty axis covers it alone. */
  lemma SingleBlock(dim: int, b: int)
    requires 0 < dim <= b
    ensures NumBlocks(dim, b) == 1
  {
    var q, r := dim / b, dim % b;
    assert dim == q * b + r;
    if dim == b {
      DivModUnique(1, 0, q, r, b);
    } else {
      DivModUnique(0, dim, q, r, b);
    }
  }

  /**
   * A block size of 1 is pixel-wise: every sample of every channel has its
   * own pair of draws, ranked channel, then column, then row.
   */
  lemma PixelWise(images: seq<array3<int>>, draws: seq<int>, y: int, x: int, c: int)
    requires RandomInputs(images, 1, draws)
    requires 0 <= y < images[0].Length0 && 0 <= x < images[0].Length1 && 0 <= c < 3
    ensures
      var k := (c * images[0].Length1 + x) * images[0].Length0 + y;
      0 <= 2 * k + 1 < |draws| &&
      RandomSample(images, 1, draws, y, x, c) == images[draws[2 * k]][y, x, draws[2 * k + 1]]
  {
    var h, w := images[0].Length0, images[0].Length1;
    NumBlocksIsCeiling(h, 1);
    NumBlocksIsCeiling(w, 1);
    SampleDrawBound(h, w, 1, y, x, c);
  }
}
