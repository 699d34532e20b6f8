/** `SplitCorpus` (corpus/edit/edit.go): the position range cut into chunks of one size, each written to
    its subcorpus file as two little-endian 64-bit numbers. */
module SplitCorpus {

  const MAX_REASONABLE_NUM_CHUNKS := 200

  type byte = b: int | 0 <= b < 256

  /** The positions `from <= p < to`. */
  datatype Chunk = Chunk(from: nat, to: nat)

  datatype SplitResult = Split(subcorpora: seq<seq<byte>>) | TooManyChunks(numChunks: nat) | Panicked

  /** size / chunkSize rounded up. */
  function NumChunks(size: nat, chunkSize: nat): (n: nat)
    requires chunkSize > 0
    ensures n * chunkSize >= size
    ensures n > 0 ==> (n - 1) * chunkSize < size
  {
    var n := (size + chunkSize - 1) / chunkSize;
    assert n * chunkSize + (size + chunkSize - 1) % chunkSize == size + chunkSize - 1;
    assert n > 0 ==> (n - 1) * chunkSize == n * chunkSize - chunkSize;
    n
  }

  function Min(a: nat, b: nat): nat {
    if a < b then a else b
  }

  function ChunkAt(size: nat, chunkSize: nat, i: nat): Chunk
    requires chunkSize > 0 && i < NumChunks(size, chunkSize)
  {
    ChunkBounds(size, chunkSize, i, NumChunks(size, chunkSize));
    Chunk(i * chunkSize, Min((i + 1) * chunkSize, size))
  }

  lemma ChunkBounds(size: nat, chunkSize: nat, i: nat, n: nat)
    requires chunkSize > 0 && i < n && (n - 1) * chunkSize < size
    ensures 0 <= i * chunkSize < (i + 1) * chunkSize && i * chunkSize < size
  {
    assert (n - 1 - i) * chunkSize >= 0;
    assert (n - 1) * chunkSize == (n - 1 - i) * chunkSize + i * chunkSize;
  }

  /** The chunks tile `0 .. size`: they are non-empty, the first starts at 0, each next one starts where
      the one before ends, the last one ends at `size`, and only the last one may be short. */
  lemma ChunksTile(size: nat, chunkSize: nat, i: nat)
    requires chunkSize > 0 && i < NumChunks(size, chunkSize)
    ensures var n, c := NumChunks(size, chunkSize), ChunkAt(size, chunkSize, i);
            && c.from < c.to <= size
            && (i == 0 ==> c.from == 0)
            && (i + 1 < n ==> c.to == ChunkAt(size, chunkSize, i + 1).from == c.from + chunkSize)
            && (i + 1 == n ==> c.to == size && c.to - c.from <= chunkSize)
  {
    var n := NumChunks(size, chunkSize);
    ChunkBounds(size, chunkSize, i, n);
    if i + 1 < n {
      ChunkBounds(size, chunkSize, i + 1, n);
    }
    assert (i + 1) * chunkSize == i * chunkSize + chunkSize;
  }

  // ----- the subcorpus file -----

  /** `k` little-endian bytes of `n`. */
  function PutUint(n: nat, k: nat): (bytes: seq<byte>)
    ensures |bytes| == k
  {
    if k == 0 then [] else [n % 256] + PutUint(n / 256, k - 1)
  }

  function GetUint(bytes: seq<byte>): nat {
    if bytes == [] then 0 else bytes[0] + 256 * GetUint(bytes[1..])
  }

  function Pow256(k: nat): nat {
    if k == 0 then 1 else 256 * Pow256(k - 1)
  }

  lemma {:induction false} UintRoundTrip(n: nat, k: nat)
    requires n < Pow256(k)
    ensures GetUint(PutUint(n, k)) == n
  {
    if k > 0 {
      UintRoundTrip(n / 256, k - 1);
      assert PutUint(n, k)[1..] == PutUint(n / 256, k - 1);
    }
  }

  function SubcorpusFile(c: Chunk): (file: seq<byte>)
    ensures |file| == 16
  {
    PutUint(c.from, 8) + PutUint(c.to, 8)
  }

  function ReadSubcorpus(file: seq<byte>): Chunk
    requires |file| == 16
  {
    Chunk(GetUint(file[..8]), GetUint(file[8..]))
  }

  lemma SubcorpusRoundTrip(c: Chunk)
    requires c.from < Pow256(8) && c.to < Pow256(8)
    ensures ReadSubcorpus(SubcorpusFile(c)) == c
  {
    UintRoundTrip(c.from, 8);
    UintRoundTrip(c.to, 8);
    assert SubcorpusFile(c)[..8] == PutUint(c.from, 8);
    assert SubcorpusFile(c)[8..] == PutUint(c.to, 8);
  }

  /** The eight bytes from `at` on, the least significant one first, are those of `n`. */
  predicate HoldsUint(file: seq<byte>, at: nat, n: nat)
    requires at + 8 <= |file|
  {
    var byteAt := (i: nat) requires at + i < |file| => file[at + i] as int;
    n == byteAt(0) + 0x100 * byteAt(1) + 0x1_0000 * byteAt(2) + 0x100_0000 * byteAt(3)
         + 0x1_0000_0000 * byteAt(4) + 0x100_0000_0000 * byteAt(5)
         + 0x1_0000_0000_0000 * byteAt(6) + 0x100_0000_0000_0000 * byteAt(7)
  }

  lemma GetUintFrom(bytes: seq<byte>, i: nat)
    requires i < |bytes|
    ensures GetUint(bytes[i..]) == bytes[i] as int + 256 * GetUint(bytes[i + 1..])
  {
    assert bytes[i..][1..] == bytes[i + 1..];
  }

  lemma GetUintOfEight(bytes: seq<byte>)
    requires |bytes| == 8
    ensures HoldsUint(bytes, 0, GetUint(bytes))
  {
    assert bytes[0..] == bytes && bytes[8..] == [];
    GetUintFrom(bytes, 0);
    GetUintFrom(bytes, 1);
    GetUintFrom(bytes, 2);
    GetUintFrom(bytes, 3);
    GetUintFrom(bytes, 4);
    GetUintFrom(bytes, 5);
    GetUintFrom(bytes, 6);
    GetUintFrom(bytes, 7);
  }

  /** The first eight bytes of the file are the start of the chunk, the last eight its end. */
  lemma SubcorpusBytes(c: Chunk)
    requires c.from < Pow256(8) && c.to < Pow256(8)
    ensures |SubcorpusFile(c)| == 16
    ensures HoldsUint(SubcorpusFile(c), 0, c.from) && HoldsUint(SubcorpusFile(c), 8, c.to)
  {
    UintRoundTrip(c.from, 8);
    UintRoundTrip(c.to, 8);
    GetUintOfEight(PutUint(c.from, 8));
    GetUintOfEight(PutUint(c.to, 8));
  }

  /** The number of chunks that the program computes: the quotient rounded up, also when it is negative. */
  function Quotient(size: nat, chunkSize: int): int
    requires chunkSize != 0
  {
    if chunkSize > 0 then NumChunks(size, chunkSize) else -(size / -chunkSize)
  }

  /** A negative chunk size of at most the corpus size makes the number of chunks negative, and a larger
      one makes it zero. */
  lemma NegativeQuotient(size: nat, chunkSize: int)
    requires chunkSize != 0
    ensures chunkSize < 0 ==> Quotient(size, chunkSize) <= 0
    ensures chunkSize < 0 ==> (Quotient(size, chunkSize) < 0 <==> -chunkSize <= size)
  {
    if chunkSize < 0 {
      var c := -chunkSize;
      assert size == size / c * c + size % c;
    }
  }

  /** The files hold the first chunks of the tiling. */
  predicate HoldsChunks(files: seq<seq<byte>>, size: nat, chunkSize: nat)
    requires chunkSize > 0
  {
    && |files| <= NumChunks(size, chunkSize)
    && forall i | 0 <= i < |files| ::
         var c := ChunkAt(size, chunkSize, i);
         && |files[i]| == 16 && ReadSubcorpus(files[i]) == c
         && HoldsUint(files[i], 0, c.from) && HoldsUint(files[i], 8, c.to)
  }

  /** The files written for a corpus of the given size: reading them back yields exactly the tiling. The
      slice for a negative number of chunks cannot be made. */
  method SplitCorpus(size: nat, chunkSize: int) returns (ans: SplitResult)
    requires chunkSize != 0 && size < 0x1_0000_0000_0000_0000
    ensures chunkSize < 0 ==> ans == if -chunkSize <= size then Panicked else Split([])
    ensures chunkSize > 0 ==>
              var n := NumChunks(size, chunkSize);
              if n > 200 then ans == TooManyChunks(n)
              else ans.Split? && |ans.subcorpora| == n && HoldsChunks(ans.subcorpora, size, chunkSize)
  {
    var numChunks := Quotient(size, chunkSize);
    if numChunks > MAX_REASONABLE_NUM_CHUNKS {
      NegativeQuotient(size, chunkSize);
      return TooManyChunks(numChunks);
    }
    if numChunks < 0 {
      NegativeQuotient(size, chunkSize);
      return Panicked;
    }
    var files := [];
    for i := 0 to numChunks
      invariant |files| == i
      invariant chunkSize > 0 ==> HoldsChunks(files, size, chunkSize)
    {
      NegativeQuotient(size, chunkSize);
      ChunkBounds(size, chunkSize, i, numChunks);
      var limit := Min((i + 1) * chunkSize, size);
      SubcorpusRoundTrip(ChunkAt(size, chunkSize, i));
      SubcorpusBytes(ChunkAt(size, chunkSize, i));
      files := files + [SubcorpusFile(Chunk(i * chunkSize, limit))];
    }
    NegativeQuotient(size, chunkSize);
    return Split(files);
  }
}
