// Chunk geometry of a resumable upload: how a declared size is cut into
// chunks, and why the chunk bodies put together are exactly the object.
module Tiling {
  import opened GoInt

  newtype byte = x: int | 0 <= x < 256
  type Bytes = seq<byte>

  /** Number of chunks minted by create, in int64 arithmetic. */
  function ChunkCount(size: int, chunkSize: int): int
    requires chunkSize > 0
  {
    Quo(Wrap64(size + chunkSize - 1), chunkSize)
  }

  /** Exact body length that chunk n must have. */
  function ExpectedLen(size: int, chunkSize: int, count: int, n: int): int
  {
    if n == count - 1 then size - chunkSize * (count - 1) else chunkSize
  }

  /** The geometry every stored session satisfies: count is the ceiling of size over chunkSize. */
  ghost predicate Tiles(size: int, chunkSize: int, count: int)
  {
    0 < size && 0 < chunkSize && 0 < count && chunkSize * (count - 1) < size <= chunkSize * count
  }

  lemma PositiveQuotient(c: int, q: int)
    requires c > 0 && c * q > 0
    ensures q > 0
  {
    if q <= 0 {
      MulMono(c, q, 0);
    }
  }

  lemma MulMono(c: int, a: int, b: int)
    requires 0 <= c && a <= b
    ensures c * a <= c * b
  {
    assert c * (b - a) >= 0;
  }

  /** A positive count comes out exactly when the sum does not overflow, and then it tiles the file. */
  lemma ChunkCountTiles(size: int, chunkSize: int)
    requires 0 < size <= MAX_INT64 && 0 < chunkSize <= MAX_INT64
    ensures ChunkCount(size, chunkSize) > 0 <==> size + chunkSize - 1 <= MAX_INT64
    ensures ChunkCount(size, chunkSize) > 0 ==> Tiles(size, chunkSize, ChunkCount(size, chunkSize))
  {
    var x := size + chunkSize - 1;
    if x <= MAX_INT64 {
      var q := ChunkCount(size, chunkSize);
      PositiveQuotient(chunkSize, q);
      assert chunkSize * (q - 1) == chunkSize * q - chunkSize;
    } else {
      assert Wrap64(x) == x - TWO_64;
    }
  }

  /** Byte offset at which chunk k starts; the end of the file when k is the chunk count. */
  function Offset(size: int, chunkSize: int, count: int, k: int): int
  {
    if k < count then chunkSize * k else size
  }

  /** Offsets climb from 0 to size by exactly the expected lengths, each in (0, chunkSize]. */
  lemma OffsetSteps(size: int, chunkSize: int, count: int, n: int)
    requires Tiles(size, chunkSize, count) && 0 <= n < count
    ensures 0 < ExpectedLen(size, chunkSize, count, n) <= chunkSize
    ensures Offset(size, chunkSize, count, n + 1)
         == Offset(size, chunkSize, count, n) + ExpectedLen(size, chunkSize, count, n)
    ensures 0 <= Offset(size, chunkSize, count, n) < Offset(size, chunkSize, count, n + 1) <= size
  {
    MulMono(chunkSize, 0, n);
    MulMono(chunkSize, n, count - 1);
    assert chunkSize * (count - 1) == chunkSize * count - chunkSize;
    assert chunkSize * (n + 1) == chunkSize * n + chunkSize;
    if n + 1 < count {
      MulMono(chunkSize, n + 1, count - 1);
    }
  }

  function Concat(bodies: seq<Bytes>): Bytes
  {
    if |bodies| == 0 then [] else Concat(bodies[..|bodies| - 1]) + bodies[|bodies| - 1]
  }

  /** Every body has exactly the length the server demands for its index. */
  ghost predicate Fits(bodies: seq<Bytes>, size: int, chunkSize: int, count: int)
  {
    |bodies| <= count && forall i :: 0 <= i < |bodies| ==> |bodies[i]| == ExpectedLen(size, chunkSize, count, i)
  }

  lemma {:induction false} ConcatLength(bodies: seq<Bytes>, size: int, chunkSize: int, count: int)
    requires Tiles(size, chunkSize, count) && Fits(bodies, size, chunkSize, count)
    ensures |Concat(bodies)| == Offset(size, chunkSize, count, |bodies|)
  {
    if |bodies| > 0 {
      ConcatLength(bodies[..|bodies| - 1], size, chunkSize, count);
      OffsetSteps(size, chunkSize, count, |bodies| - 1);
    }
  }

  /** A full set of fitting bodies concatenates to exactly the declared size. */
  lemma ReassembledSize(bodies: seq<Bytes>, size: int, chunkSize: int, count: int)
    requires Tiles(size, chunkSize, count) && |bodies| == count && Fits(bodies, size, chunkSize, count)
    ensures |Concat(bodies)| == size
  {
    ConcatLength(bodies, size, chunkSize, count);
  }

  lemma SliceOfPrefix(a: Bytes, b: Bytes, lo: int, hi: int)
    requires 0 <= lo <= hi <= |a|
    ensures (a + b)[lo..hi] == a[lo..hi]
  {
  }

  lemma SliceOfSuffix(a: Bytes, b: Bytes)
    ensures (a + b)[|a|..|a| + |b|] == b
  {
  }

  /** Body i occupies exactly the bytes from its own offset up to the next one. */
  lemma {:induction false} BodyAtOffset(bodies: seq<Bytes>, size: int, chunkSize: int, count: int, i: nat)
    requires Tiles(size, chunkSize, count) && Fits(bodies, size, chunkSize, count) && i < |bodies|
    ensures 0 <= Offset(size, chunkSize, count, i) <= Offset(size, chunkSize, count, i + 1) <= |Concat(bodies)|
    ensures Concat(bodies)[Offset(size, chunkSize, count, i) .. Offset(size, chunkSize, count, i + 1)] == bodies[i]
  {
    var front, last := bodies[..|bodies| - 1], bodies[|bodies| - 1];
    var lo, hi := Offset(size, chunkSize, count, i), Offset(size, chunkSize, count, i + 1);
    assert Concat(bodies) == Concat(front) + last;
    hide Concat, Tiles;
    ConcatLength(front, size, chunkSize, count);
    OffsetSteps(size, chunkSize, count, i);
    if i < |bodies| - 1 {
      BodyAtOffset(front, size, chunkSize, count, i);
      SliceOfPrefix(Concat(front), last, lo, hi);
    } else {
      SliceOfSuffix(Concat(front), last);
    }
  }

  /** The first k slices a client cuts from a file. */
  function Slices(file: Bytes, chunkSize: int, count: int, k: nat): (r: seq<Bytes>)
    requires Tiles(|file|, chunkSize, count) && k <= count
    ensures |r| == k
  {
    if k == 0 then []
    else
      OffsetSteps(|file|, chunkSize, count, k - 1);
      Slices(file, chunkSize, count, k - 1)
      + [file[Offset(|file|, chunkSize, count, k - 1) .. Offset(|file|, chunkSize, count, k)]]
  }

  lemma FitsOneMore(front: seq<Bytes>, b: Bytes, size: int, chunkSize: int, count: int)
    requires Fits(front, size, chunkSize, count) && |front| < count && |b| == ExpectedLen(size, chunkSize, count, |front|)
    ensures Fits(front + [b], size, chunkSize, count)
  {
    hide ExpectedLen;
  }

  lemma ConcatOneMore(front: seq<Bytes>, b: Bytes)
    ensures Concat(front + [b]) == Concat(front) + b
  {
    assert (front + [b])[..|front|] == front;
  }

  lemma PrefixOneMore(file: Bytes, lo: nat, hi: nat)
    requires lo <= hi <= |file|
    ensures file[..lo] + file[lo..hi] == file[..hi]
  {
  }

  lemma {:induction false} SlicesPrefix(file: Bytes, chunkSize: int, count: int, k: nat)
    requires Tiles(|file|, chunkSize, count) && k <= count
    ensures Fits(Slices(file, chunkSize, count, k), |file|, chunkSize, count)
    ensures 0 <= Offset(|file|, chunkSize, count, k) <= |file|
    ensures Concat(Slices(file, chunkSize, count, k)) == file[..Offset(|file|, chunkSize, count, k)]
  {
    if k > 0 {
      SlicesPrefix(file, chunkSize, count, k - 1);
      OffsetSteps(|file|, chunkSize, count, k - 1);
      var front := Slices(file, chunkSize, count, k - 1);
      var lo, hi := Offset(|file|, chunkSize, count, k - 1), Offset(|file|, chunkSize, count, k);
      assert Slices(file, chunkSize, count, k) == front + [file[lo..hi]];
      hide Slices, Concat, Fits, Tiles, Offset, ExpectedLen;
      FitsOneMore(front, file[lo..hi], |file|, chunkSize, count);
      ConcatOneMore(front, file[lo..hi]);
      PrefixOneMore(file, lo, hi);
    }
  }

  /** Cutting a file into the chunks the client sends and reassembling them gives the file back. */
  lemma SliceRoundTrip(file: Bytes, chunkSize: int, count: int)
    requires Tiles(|file|, chunkSize, count)
    ensures Fits(Slices(file, chunkSize, count, count), |file|, chunkSize, count)
    ensures Concat(Slices(file, chunkSize, count, count)) == file
  {
    SlicesPrefix(file, chunkSize, count, count);
    assert file[..|file|] == file;
  }
}
