/**
  The chunked compression block of a package: a 16-byte prologue (magic, block size, total
  compressed size, total decompressed size), one (compressed size, decompressed size) pair per
  block, then the compressed blocks laid out back to back. `LZO::Decompress` parses the prologue,
  fills a table of block descriptors with running offsets and decodes the blocks one by one.

  The LZO codec itself (`lzo1x_decompress_safe`) is foreign: it is a parameter of type
  `BlockDecoder` that returns an LZO status code and the bytes it produced.
*/
module Lzo {
  import opened Common

  /** The package magic, which also opens every compressed chunk. */
  const COMPRESSED_BLOCK_MAGIC: u32 := 0x9E2A83C1
  const CHUNK_HEADER_SIZE: nat := 16
  const BLOCK_HEADER_SIZE: nat := 8
  const LZO_E_OK: int := 0

  /** Low nibble of the compression flags: the codec. */
  const COMPRESSION_FLAGS_TYPE_MASK: bv32 := 0x0F
  const COMPRESS_ZLIB: bv32 := 0x01
  const COMPRESS_LZO: bv32 := 0x02
  const COMPRESS_LZX: bv32 := 0x04

  /** What `lzo1x_decompress_safe` reports: a status code and the bytes it wrote. */
  datatype LzoResult = LzoResult(code: int, output: seq<byte>)

  /** The foreign block decoder: compressed bytes and output capacity in, status and output out. */
  type BlockDecoder = (seq<byte>, nat) -> LzoResult

  /** The "safe" decoder never produces more bytes than the capacity it is given. */
  ghost predicate SafeDecoder(decode: BlockDecoder)
  {
    forall input, capacity :: |decode(input, capacity).output| <= capacity
  }

  /** Why `LZO::Decompress` throws. */
  datatype DecompressError =
    | BadMagic              // "Invalid or corrupted compression block!"
    | InitFailed            // "Failed to initialize LZO!"
    | InvalidBlockSize      // block size 0: the block count is not a number and the table allocation throws
    | CorruptBlock(code: int) // "Corrupted compression block. Code: %d"

  datatype CompressionBlock = CompressionBlock(srcOffset: u32, srcSize: u32, dstOffset: u32, dstSize: u32)

  datatype Prologue = Prologue(magic: u32, blockSize: u32, totalCompressedSize: u32, totalDecompressedSize: u32)

  /** A little-endian 32-bit word, as `*(uint32*)ptr` reads it on x86. */
  function ReadU32(s: seq<byte>, at: nat): u32
    requires at + 4 <= |s|
  {
    s[at] as int + s[at + 1] as int * 0x100 + s[at + 2] as int * 0x1_0000 + s[at + 3] as int * 0x100_0000
  }

  function ReadPrologue(src: seq<byte>): (h: Prologue)
    requires CHUNK_HEADER_SIZE <= |src|
    ensures h.magic == ReadU32(src, 0)
  {
    Prologue(ReadU32(src, 0), ReadU32(src, 4), ReadU32(src, 8), ReadU32(src, 12))
  }

  /** Number of blocks: the ceiling of the decompressed size over the block size. */
  function BlockCount(totalDecompressedSize: nat, blockSize: nat): nat
    requires blockSize > 0
  {
    (totalDecompressedSize + blockSize - 1) / blockSize
  }

  lemma BlockCountIsCeiling(total: nat, blockSize: nat)
    requires blockSize > 0
    ensures BlockCount(total, blockSize) * blockSize >= total
    ensures BlockCount(total, blockSize) > 0 ==> (BlockCount(total, blockSize) - 1) * blockSize < total
    ensures BlockCount(total, blockSize) == 0 <==> total == 0
  {
    var q := (total + blockSize - 1) / blockSize;
    var r := (total + blockSize - 1) % blockSize;
    assert q * blockSize + r == total + blockSize - 1;
    assert (q - 1) * blockSize == q * blockSize - blockSize;
  }

  /** The compressed and decompressed sizes of the n blocks, read from the pairs after the prologue. */
  function SrcSizes(src: seq<byte>, n: nat): (xs: seq<nat>)
    requires CHUNK_HEADER_SIZE + n * BLOCK_HEADER_SIZE <= |src|
    ensures |xs| == n
  {
    seq(n, i requires 0 <= i < n => ReadU32(src, CHUNK_HEADER_SIZE + i * BLOCK_HEADER_SIZE) as nat)
  }

  function DstSizes(src: seq<byte>, n: nat): (xs: seq<nat>)
    requires CHUNK_HEADER_SIZE + n * BLOCK_HEADER_SIZE <= |src|
    ensures |xs| == n
  {
    seq(n, i requires 0 <= i < n => ReadU32(src, CHUNK_HEADER_SIZE + i * BLOCK_HEADER_SIZE + 4) as nat)
  }

  /**
    The descriptor of block i: its source offset is the end of the header region plus the compressed
    sizes of the blocks before it, its destination offset the decompressed sizes before it, both in
    `uint32` arithmetic.
  */
  function Descriptor(src: seq<byte>, n: nat, i: nat): CompressionBlock
    requires CHUNK_HEADER_SIZE + n * BLOCK_HEADER_SIZE <= |src|
    requires i < n
  {
    CompressionBlock(
      Wrap32(CHUNK_HEADER_SIZE + n * BLOCK_HEADER_SIZE + Sum(SrcSizes(src, n)[..i])),
      SrcSizes(src, n)[i],
      Wrap32(Sum(DstSizes(src, n)[..i])),
      DstSizes(src, n)[i])
  }

  function BlockTable(src: seq<byte>, n: nat): (table: seq<CompressionBlock>)
    requires CHUNK_HEADER_SIZE + n * BLOCK_HEADER_SIZE <= |src|
    ensures |table| == n
  {
    seq(n, i requires 0 <= i < n => Descriptor(src, n, i))
  }

  ghost predicate FitsSource(table: seq<CompressionBlock>, srcLength: nat)
  {
    forall i :: 0 <= i < |table| ==> table[i].srcOffset + table[i].srcSize <= srcLength
  }

  /** Every block's compressed bytes lie inside the source and its output range inside the destination. */
  ghost predicate FitsBuffers(table: seq<CompressionBlock>, srcLength: nat, dstLength: nat)
  {
    && FitsSource(table, srcLength)
    && forall i :: 0 <= i < |table| ==> table[i].dstOffset + table[i].dstSize <= dstLength
  }

  /**
    What the caller of `LZO::Decompress` must guarantee, since the code reads and writes through raw
    pointers and never compares a header field with `srcSize` or `dstSize`: the magic is readable, and
    when it matches, the prologue, the size pairs and every block's ranges are inside the buffers.
  */
  ghost predicate WellFramed(src: seq<byte>, dstLength: nat)
  {
    && 4 <= |src|
    && (ReadU32(src, 0) == COMPRESSED_BLOCK_MAGIC ==>
         && CHUNK_HEADER_SIZE <= |src|
         && var h := ReadPrologue(src);
            h.blockSize > 0 ==>
              var n := BlockCount(h.totalDecompressedSize, h.blockSize);
              && CHUNK_HEADER_SIZE + n * BLOCK_HEADER_SIZE <= |src|
              && FitsBuffers(BlockTable(src, n), |src|, dstLength))
  }

  function BlockInput(src: seq<byte>, b: CompressionBlock): seq<byte>
    requires b.srcOffset + b.srcSize <= |src|
  {
    src[b.srcOffset..b.srcOffset + b.srcSize]
  }

  /** The foreign call for one block: its compressed bytes, with its decompressed size as capacity. */
  function DecodeBlock(src: seq<byte>, b: CompressionBlock, decode: BlockDecoder): LzoResult
    requires b.srcOffset + b.srcSize <= |src|
  {
    decode(BlockInput(src, b), b.dstSize)
  }

  /** Index of the first block, from `from` on, whose decoding fails; |table| if none does. */
  function FirstFailureFrom(src: seq<byte>, table: seq<CompressionBlock>, decode: BlockDecoder, from: nat): (k: nat)
    requires FitsSource(table, |src|)
    requires from <= |table|
    ensures from <= k <= |table|
    ensures forall j :: from <= j < k ==> DecodeBlock(src, table[j], decode).code == LZO_E_OK
    ensures k < |table| ==> DecodeBlock(src, table[k], decode).code != LZO_E_OK
    decreases |table| - from
  {
    if from == |table| then from
    else if DecodeBlock(src, table[from], decode).code != LZO_E_OK then from
    else FirstFailureFrom(src, table, decode, from + 1)
  }

  /** The buffer `d` with `data` written at `offset`. */
  function Patch(d: seq<byte>, offset: nat, data: seq<byte>): (r: seq<byte>)
    requires offset + |data| <= |d|
    ensures |r| == |d|
  {
    seq(|d|, q requires 0 <= q < |d| => if offset <= q < offset + |data| then data[q - offset] else d[q])
  }

  /** The destination after blocks 0 .. k-1 have been decoded into it, in index order. */
  function Decoded(d: seq<byte>, src: seq<byte>, table: seq<CompressionBlock>, decode: BlockDecoder, k: nat): (r: seq<byte>)
    requires FitsBuffers(table, |src|, |d|) && SafeDecoder(decode)
    requires k <= |table|
    ensures |r| == |d|
  {
    if k == 0 then d
    else
      var out := DecodeBlock(src, table[k - 1], decode).output;
      assert |out| <= table[k - 1].dstSize;
      Patch(Decoded(d, src, table, decode, k - 1), table[k - 1].dstOffset, out)
  }

  /** Number of blocks handed to the decoder when block k is the first to fail (k == n: none fails). */
  function Attempted(k: nat, n: nat): (m: nat)
    requires k <= n
    ensures m <= n
  {
    if k < n then k + 1 else n
  }

  datatype Decompression = Decompression(result: Outcome<DecompressError>, dst: seq<byte>)

  /**
    The outcome of the sequential `LZO::Decompress` on `src` into a destination holding `d`: the checks in
    source order, then the blocks decoded in index order up to and including the first one that fails
    (whatever the decoder wrote for that block before reporting the error stays in the destination).
  */
  function DecompressSpec(src: seq<byte>, d: seq<byte>, decode: BlockDecoder, lzoInitCode: int): Decompression
    requires WellFramed(src, |d|) && SafeDecoder(decode)
  {
    if ReadU32(src, 0) != COMPRESSED_BLOCK_MAGIC then Decompression(Fail(BadMagic), d)
    else
      var h := ReadPrologue(src);
      if lzoInitCode != LZO_E_OK then Decompression(Fail(InitFailed), d)
      else if h.blockSize == 0 then Decompression(Fail(InvalidBlockSize), d)
      else
        var n := BlockCount(h.totalDecompressedSize, h.blockSize);
        var table := BlockTable(src, n);
        var k := FirstFailureFrom(src, table, decode, 0);
        var result := if k == n then Pass else Fail(CorruptBlock(DecodeBlock(src, table[k], decode).code));
        Decompression(result, Decoded(d, src, table, decode, Attempted(k, n)))
  }

  /**
    One step of the table loop: from the running offsets after i blocks, the C++ expressions give
    descriptor i and the running offsets after i + 1 blocks.
  */
  lemma DescriptorStep(src: seq<byte>, n: nat, i: nat, compressedOffset: u32, decompressedOffset: u32)
    requires CHUNK_HEADER_SIZE + n * BLOCK_HEADER_SIZE <= |src|
    requires i < n
    requires compressedOffset == Wrap32(Sum(SrcSizes(src, n)[..i]))
    requires decompressedOffset == Wrap32(Sum(DstSizes(src, n)[..i]))
    ensures Descriptor(src, n, i) == CompressionBlock(
              Wrap32(Wrap32(CHUNK_HEADER_SIZE + compressedOffset) + Wrap32(n * BLOCK_HEADER_SIZE)),
              ReadU32(src, CHUNK_HEADER_SIZE + i * BLOCK_HEADER_SIZE),
              decompressedOffset,
              ReadU32(src, CHUNK_HEADER_SIZE + i * BLOCK_HEADER_SIZE + 4))
    ensures Wrap32(compressedOffset + ReadU32(src, CHUNK_HEADER_SIZE + i * BLOCK_HEADER_SIZE)) == Wrap32(Sum(SrcSizes(src, n)[..i + 1]))
    ensures Wrap32(decompressedOffset + ReadU32(src, CHUNK_HEADER_SIZE + i * BLOCK_HEADER_SIZE + 4)) == Wrap32(Sum(DstSizes(src, n)[..i + 1]))
  {
    var srcSizes, dstSizes := SrcSizes(src, n), DstSizes(src, n);
    var s := Sum(srcSizes[..i]);
    WrapAddRight(CHUNK_HEADER_SIZE, s);
    WrapAddLeft(CHUNK_HEADER_SIZE + s, Wrap32(n * BLOCK_HEADER_SIZE));
    WrapAddRight(CHUNK_HEADER_SIZE + s, n * BLOCK_HEADER_SIZE);
    SumExtend(srcSizes, i);
    SumExtend(dstSizes, i);
    WrapAddLeft(s, srcSizes[i]);
    WrapAddLeft(Sum(dstSizes[..i]), dstSizes[i]);
  }

  /** Fills the descriptor table with running compressed and decompressed offsets (Core.cpp:227-241). */
  method BuildBlockTable(src: seq<byte>, totalBlocks: nat) returns (compressionInfo: array<CompressionBlock>)
    requires CHUNK_HEADER_SIZE + totalBlocks * BLOCK_HEADER_SIZE <= |src|
    ensures fresh(compressionInfo)
    ensures compressionInfo[..] == BlockTable(src, totalBlocks)
  {
    compressionInfo := new CompressionBlock[totalBlocks](_ => CompressionBlock(0, 0, 0, 0));
    var ptr := CHUNK_HEADER_SIZE;
    var compressedOffset: u32 := 0;
    var decompressedOffset: u32 := 0;
    for i := 0 to totalBlocks
      invariant ptr == CHUNK_HEADER_SIZE + i * BLOCK_HEADER_SIZE
      invariant compressedOffset == Wrap32(Sum(SrcSizes(src, totalBlocks)[..i]))
      invariant decompressedOffset == Wrap32(Sum(DstSizes(src, totalBlocks)[..i]))
      invariant forall j :: 0 <= j < i ==> compressionInfo[j] == Descriptor(src, totalBlocks, j)
    {
      DescriptorStep(src, totalBlocks, i, compressedOffset, decompressedOffset);
      var srcOffset := Wrap32(Wrap32(CHUNK_HEADER_SIZE + compressedOffset) + Wrap32(totalBlocks * BLOCK_HEADER_SIZE));
      var srcSize := ReadU32(src, ptr);
      ptr := ptr + 4;
      var dstSize := ReadU32(src, ptr);
      ptr := ptr + 4;
      compressionInfo[i] := CompressionBlock(srcOffset, srcSize, decompressedOffset, dstSize);
      compressedOffset := Wrap32(compressedOffset + srcSize);
      decompressedOffset := Wrap32(decompressedOffset + dstSize);
    }
  }

  /** What the foreign decoder does to the destination: its output lands at the block's offset. */
  method WriteBlock(dst: array<byte>, offset: nat, data: seq<byte>)
    requires offset + |data| <= dst.Length
    modifies dst
    ensures dst[..] == Patch(old(dst[..]), offset, data)
  {
    forall q | offset <= q < offset + |data| {
      dst[q] := data[q - offset];
    }
  }

  /** One block of the sequential decode: hand its compressed bytes to the decoder and write what it produced at the block's offset. */
  method DecodeOne(src: seq<byte>, block: CompressionBlock, dst: array<byte>, decode: BlockDecoder) returns (res: LzoResult)
    requires block.srcOffset + block.srcSize <= |src| && block.dstOffset + block.dstSize <= dst.Length
    requires SafeDecoder(decode)
    modifies dst
    ensures res == DecodeBlock(src, block, decode)
    ensures dst[..] == Patch(old(dst[..]), block.dstOffset, res.output)
  {
    res := decode(src[block.srcOffset..block.srcOffset + block.srcSize], block.dstSize);
    assert |res.output| <= block.dstSize;
    WriteBlock(dst, block.dstOffset, res.output);
  }

  /** The sequential branch of the decode (Core.cpp:256-264): stop at the first block that fails. */
  method DecodeBlocks(src: seq<byte>, compressionInfo: array<CompressionBlock>, dst: array<byte>, decode: BlockDecoder)
    returns (r: Outcome<DecompressError>)
    requires FitsBuffers(compressionInfo[..], |src|, dst.Length)
    requires SafeDecoder(decode)
    requires compressionInfo as object != dst
    modifies dst
    ensures var table := old(compressionInfo[..]);
            var k := FirstFailureFrom(src, table, decode, 0);
            && dst[..] == Decoded(old(dst[..]), src, table, decode, Attempted(k, |table|))
            && r == if k == |table| then Pass else Fail(CorruptBlock(DecodeBlock(src, table[k], decode).code))
  {
    ghost var table := compressionInfo[..];
    ghost var d0 := dst[..];
    var i := 0;
    while i < compressionInfo.Length
      invariant 0 <= i <= compressionInfo.Length
      invariant compressionInfo[..] == table
      invariant FirstFailureFrom(src, table, decode, 0) == FirstFailureFrom(src, table, decode, i)
      invariant dst[..] == Decoded(d0, src, table, decode, i)
    {
      var block := compressionInfo[i];
      assert block == table[i];
      var res := DecodeOne(src, block, dst, decode);
      if res.code != LZO_E_OK {
        return Fail(CorruptBlock(res.code));
      }
      i := i + 1;
    }
    return Pass;
  }

  /**
    `LZO::Decompress` with `concurrent == false`: check the magic, read the prologue, check the LZO
    initialisation, build the block table and decode the blocks in order.
  */
  method Decompress(src: seq<byte>, dst: array<byte>, decode: BlockDecoder, lzoInitCode: int)
    returns (r: Outcome<DecompressError>)
    requires WellFramed(src, dst.Length)
    requires SafeDecoder(decode)
    modifies dst
    ensures ReadU32(src, 0) != COMPRESSED_BLOCK_MAGIC ==> r == Fail(BadMagic) && dst[..] == old(dst[..])
    ensures Decompression(r, dst[..]) == DecompressSpec(src, old(dst[..]), decode, lzoInitCode)
  {
    if ReadU32(src, 0) != COMPRESSED_BLOCK_MAGIC {
      return Fail(BadMagic);
    }
    var blockSize := ReadU32(src, 4);
    var totalCompressedSize := ReadU32(src, 8);
    var totalDecompressedSize := ReadU32(src, 12);
    if lzoInitCode != LZO_E_OK {
      return Fail(InitFailed);
    }
    if blockSize == 0 {
      return Fail(InvalidBlockSize);
    }
    var totalBlocks := BlockCount(totalDecompressedSize, blockSize);
    var compressionInfo := BuildBlockTable(src, totalBlocks);
    r := DecodeBlocks(src, compressionInfo, dst, decode);
  }

  /** What a single-shot decode reports, and the destination buffer afterwards. */
  datatype BufferDecode = BufferDecode(ok: bool, dst: seq<byte>)

  /**
    The single-shot `Decompress` of Core.cpp:270: one decoder call over the whole buffer `d`, whose
    length is the capacity. The decoder's output lands at the start of the buffer whether or not it
    reports an error; the rest of the buffer is untouched.
  */
  function DecompressWhole(compressed: seq<byte>, d: seq<byte>, decode: BlockDecoder): (r: BufferDecode)
    requires SafeDecoder(decode)
    ensures r.ok <==> decode(compressed, |d|).code == LZO_E_OK
    ensures |r.dst| == |d|
    ensures var out := decode(compressed, |d|).output;
            && (forall q :: 0 <= q < |out| ==> r.dst[q] == out[q])
            && (forall q :: |out| <= q < |d| ==> r.dst[q] == d[q])
  {
    var res := decode(compressed, |d|);
    assert |res.output| <= |d|;
    var written := Patch(d, 0, res.output);
    if res.code != LZO_E_OK then BufferDecode(false, written) else BufferDecode(true, written)
  }

  /**
    `DecompressMemory`: the codec is chosen by the low nibble of the flags alone. zlib and LZX are not
    implemented (a debug break, then false); LZO goes to the single-shot decoder; anything else is an
    unknown format and false. Only the LZO branch touches the destination.
  */
  function DecompressMemory(flags: bv32, d: seq<byte>, compressed: seq<byte>, decode: BlockDecoder): (r: BufferDecode)
    requires SafeDecoder(decode)
    ensures flags & COMPRESSION_FLAGS_TYPE_MASK == COMPRESS_LZO ==> r == DecompressWhole(compressed, d, decode)
    ensures flags & COMPRESSION_FLAGS_TYPE_MASK != COMPRESS_LZO ==> !r.ok && r.dst == d
    ensures r.ok <==> flags & COMPRESSION_FLAGS_TYPE_MASK == COMPRESS_LZO && decode(compressed, |d|).code == LZO_E_OK
  {
    var codec := flags & COMPRESSION_FLAGS_TYPE_MASK;
    if codec == COMPRESS_ZLIB then BufferDecode(false, d)
    else if codec == COMPRESS_LZO then DecompressWhole(compressed, d, decode)
    else if codec == COMPRESS_LZX then BufferDecode(false, d)
    else BufferDecode(false, d)
  }

  /** When the decoder fills the whole capacity, the buffer afterwards is exactly its output. */
  lemma WholeDecodeFills(compressed: seq<byte>, d: seq<byte>, decode: BlockDecoder)
    requires SafeDecoder(decode)
    requires |decode(compressed, |d|).output| == |d|
    ensures DecompressWhole(compressed, d, decode).dst == decode(compressed, |d|).output
  {
  }

  /** Only the codec nibble of the flags matters: the other flag bits never change the outcome. */
  lemma DecompressMemoryIgnoresHighBits(flags: bv32, d: seq<byte>, compressed: seq<byte>, decode: BlockDecoder)
    requires SafeDecoder(decode)
    ensures DecompressMemory(flags, d, compressed, decode) == DecompressMemory(flags & COMPRESSION_FLAGS_TYPE_MASK, d, compressed, decode)
  {
    assert (flags & COMPRESSION_FLAGS_TYPE_MASK) & COMPRESSION_FLAGS_TYPE_MASK == flags & COMPRESSION_FLAGS_TYPE_MASK;
  }

  // ---------------------------------------------------------------------------------------------
  // Layout of the block table

  /** The running offsets of an n-block chunk stay below 2^32, so no `uint32` addition wraps. */
  ghost predicate NoWrap(src: seq<byte>, n: nat)
    requires CHUNK_HEADER_SIZE + n * BLOCK_HEADER_SIZE <= |src|
  {
    && CHUNK_HEADER_SIZE + n * BLOCK_HEADER_SIZE + Sum(SrcSizes(src, n)) < TWO_32
    && Sum(DstSizes(src, n)) < TWO_32
  }

  /** Without wrap-around, block i starts after the header region and the compressed bytes of the blocks before it. */
  lemma {:induction false} TableOffsets(src: seq<byte>, n: nat, i: nat)
    requires CHUNK_HEADER_SIZE + n * BLOCK_HEADER_SIZE <= |src|
    requires NoWrap(src, n)
    requires i < n
    ensures BlockTable(src, n)[i].srcOffset == CHUNK_HEADER_SIZE + n * BLOCK_HEADER_SIZE + Sum(SrcSizes(src, n)[..i])
    ensures BlockTable(src, n)[i].dstOffset == Sum(DstSizes(src, n)[..i])
  {
    PrefixSumMonotone(SrcSizes(src, n), i, n);
    SumWhole(SrcSizes(src, n));
    PrefixSumMonotone(DstSizes(src, n), i, n);
    SumWhole(DstSizes(src, n));
  }

  /**
    Without wrap-around the blocks tile both buffers: the first compressed block follows the size pairs,
    the first output block starts at 0, each block starts where the previous one ends, and the last one
    ends at the sum of the sizes.
  */
  lemma {:induction false} TableTiling(src: seq<byte>, n: nat)
    requires CHUNK_HEADER_SIZE + n * BLOCK_HEADER_SIZE <= |src|
    requires NoWrap(src, n)
    ensures var table := BlockTable(src, n);
            && (n > 0 ==> table[0].srcOffset == CHUNK_HEADER_SIZE + n * BLOCK_HEADER_SIZE && table[0].dstOffset == 0)
            && (forall i :: 0 <= i < n - 1 ==>
                  && table[i].srcOffset + table[i].srcSize == table[i + 1].srcOffset
                  && table[i].dstOffset + table[i].dstSize == table[i + 1].dstOffset)
            && (n > 0 ==>
                  && table[n - 1].srcOffset + table[n - 1].srcSize == CHUNK_HEADER_SIZE + n * BLOCK_HEADER_SIZE + Sum(SrcSizes(src, n))
                  && table[n - 1].dstOffset + table[n - 1].dstSize == Sum(DstSizes(src, n)))
  {
    var table := BlockTable(src, n);
    if n > 0 {
      TableOffsets(src, n, 0);
      TableOffsets(src, n, n - 1);
      SumExtend(SrcSizes(src, n), n - 1);
      SumExtend(DstSizes(src, n), n - 1);
      SumWhole(SrcSizes(src, n));
      SumWhole(DstSizes(src, n));
    }
    forall i | 0 <= i < n - 1
      ensures table[i].srcOffset + table[i].srcSize == table[i + 1].srcOffset
      ensures table[i].dstOffset + table[i].dstSize == table[i + 1].dstOffset
    {
      TableOffsets(src, n, i);
      TableOffsets(src, n, i + 1);
      SumExtend(SrcSizes(src, n), i);
      SumExtend(DstSizes(src, n), i);
    }
  }

  /** Without wrap-around, every output position below the total size lies in some block's output range. */
  lemma TableCovers(src: seq<byte>, n: nat, q: nat)
    requires CHUNK_HEADER_SIZE + n * BLOCK_HEADER_SIZE <= |src|
    requires NoWrap(src, n)
    requires q < Sum(DstSizes(src, n))
    ensures exists i :: 0 <= i < n && BlockTable(src, n)[i].dstOffset <= q < BlockTable(src, n)[i].dstOffset + BlockTable(src, n)[i].dstSize
  {
    PrefixSumsCover(DstSizes(src, n), q);
    var i :| 0 <= i < n && Sum(DstSizes(src, n)[..i]) <= q < Sum(DstSizes(src, n)[..i]) + DstSizes(src, n)[i];
    TableOffsets(src, n, i);
  }

  /** Output ranges in ascending, non-overlapping order. */
  ghost predicate DisjointOutputs(table: seq<CompressionBlock>)
  {
    forall i, j :: 0 <= i < j < |table| ==> table[i].dstOffset + table[i].dstSize <= table[j].dstOffset
  }

  lemma {:induction false} TableDisjoint(src: seq<byte>, n: nat)
    requires CHUNK_HEADER_SIZE + n * BLOCK_HEADER_SIZE <= |src|
    requires NoWrap(src, n)
    ensures DisjointOutputs(BlockTable(src, n))
  {
    var table := BlockTable(src, n);
    forall i, j | 0 <= i < j < n
      ensures table[i].dstOffset + table[i].dstSize <= table[j].dstOffset
    {
      TableOffsets(src, n, i);
      TableOffsets(src, n, j);
      SumExtend(DstSizes(src, n), i);
      PrefixSumMonotone(DstSizes(src, n), i + 1, j);
    }
  }

  // ---------------------------------------------------------------------------------------------
  // Contents of the destination

  /** A byte that no decoded block's output range covers keeps its old value. */
  lemma {:induction false} DecodedOutside(d: seq<byte>, src: seq<byte>, table: seq<CompressionBlock>, decode: BlockDecoder, k: nat, q: nat)
    requires FitsBuffers(table, |src|, |d|) && SafeDecoder(decode)
    requires k <= |table| && q < |d|
    requires forall j :: 0 <= j < k ==> !(table[j].dstOffset <= q < table[j].dstOffset + table[j].dstSize)
    ensures Decoded(d, src, table, decode, k)[q] == d[q]
  {
    if k > 0 {
      DecodedOutside(d, src, table, decode, k - 1, q);
      assert |DecodeBlock(src, table[k - 1], decode).output| <= table[k - 1].dstSize;
    }
  }

  /** With disjoint output ranges, byte q of block j's output is at its offset once block j is decoded. */
  lemma {:induction false} DecodedInside(d: seq<byte>, src: seq<byte>, table: seq<CompressionBlock>, decode: BlockDecoder, k: nat, j: nat, q: nat)
    requires FitsBuffers(table, |src|, |d|) && SafeDecoder(decode)
    requires DisjointOutputs(table)
    requires j < k <= |table|
    requires q < |DecodeBlock(src, table[j], decode).output|
    ensures table[j].dstOffset + q < |d|
    ensures Decoded(d, src, table, decode, k)[table[j].dstOffset + q] == DecodeBlock(src, table[j], decode).output[q]
  {
    assert |DecodeBlock(src, table[j], decode).output| <= table[j].dstSize;
    if j < k - 1 {
      DecodedInside(d, src, table, decode, k - 1, j, q);
      assert table[j].dstOffset + table[j].dstSize <= table[k - 1].dstOffset;
    }
  }

  /** The sequential decode succeeds exactly when the magic matches, LZO initialises, the block size is non-zero and every block decodes. */
  lemma {:induction false} DecompressPassIff(src: seq<byte>, d: seq<byte>, decode: BlockDecoder, lzoInitCode: int)
    requires WellFramed(src, |d|) && SafeDecoder(decode)
    ensures DecompressSpec(src, d, decode, lzoInitCode).result == Pass <==>
              && ReadU32(src, 0) == COMPRESSED_BLOCK_MAGIC
              && lzoInitCode == LZO_E_OK
              && ReadPrologue(src).blockSize > 0
              && var n := BlockCount(ReadPrologue(src).totalDecompressedSize, ReadPrologue(src).blockSize);
                 forall j :: 0 <= j < n ==> DecodeBlock(src, BlockTable(src, n)[j], decode).code == LZO_E_OK
  {
    if ReadU32(src, 0) == COMPRESSED_BLOCK_MAGIC && lzoInitCode == LZO_E_OK && ReadPrologue(src).blockSize > 0 {
      var h := ReadPrologue(src);
      var n := BlockCount(h.totalDecompressedSize, h.blockSize);
      var k := FirstFailureFrom(src, BlockTable(src, n), decode, 0);
      if k < n {
        assert DecodeBlock(src, BlockTable(src, n)[k], decode).code != LZO_E_OK;
      }
    }
  }

  /** A successful decode has decoded every block of the table. */
  lemma PassDecodesAll(src: seq<byte>, d: seq<byte>, decode: BlockDecoder, lzoInitCode: int)
    requires WellFramed(src, |d|) && SafeDecoder(decode)
    requires DecompressSpec(src, d, decode, lzoInitCode).result == Pass
    ensures ReadU32(src, 0) == COMPRESSED_BLOCK_MAGIC && ReadPrologue(src).blockSize > 0
    ensures var h := ReadPrologue(src);
            var n := BlockCount(h.totalDecompressedSize, h.blockSize);
            DecompressSpec(src, d, decode, lzoInitCode).dst == Decoded(d, src, BlockTable(src, n), decode, n)
  {
  }

  /** Once every block of a table with disjoint output ranges is decoded, each block's output sits at its offset and every other byte is as it was. */
  lemma DecodedContents(d: seq<byte>, src: seq<byte>, table: seq<CompressionBlock>, decode: BlockDecoder, q: nat)
    requires FitsBuffers(table, |src|, |d|) && SafeDecoder(decode)
    requires DisjointOutputs(table)
    requires q < |d|
    ensures var out := Decoded(d, src, table, decode, |table|);
            && (forall j :: 0 <= j < |table| && table[j].dstOffset <= q < table[j].dstOffset + |DecodeBlock(src, table[j], decode).output| ==>
                  out[q] == DecodeBlock(src, table[j], decode).output[q - table[j].dstOffset])
            && ((forall j :: 0 <= j < |table| ==> !(table[j].dstOffset <= q < table[j].dstOffset + table[j].dstSize)) ==> out[q] == d[q])
  {
    forall j | 0 <= j < |table| && table[j].dstOffset <= q < table[j].dstOffset + |DecodeBlock(src, table[j], decode).output|
      ensures Decoded(d, src, table, decode, |table|)[q] == DecodeBlock(src, table[j], decode).output[q - table[j].dstOffset]
    {
      DecodedInside(d, src, table, decode, |table|, j, q - table[j].dstOffset);
    }
    if forall j :: 0 <= j < |table| ==> !(table[j].dstOffset <= q < table[j].dstOffset + table[j].dstSize) {
      DecodedOutside(d, src, table, decode, |table|, q);
    }
  }

  /**
    After a successful decode without wrap-around, every block's output sits at its offset and every byte
    outside the blocks' output ranges is as it was.
  */
  lemma DecompressContents(src: seq<byte>, d: seq<byte>, decode: BlockDecoder, lzoInitCode: int, q: nat)
    requires WellFramed(src, |d|) && SafeDecoder(decode)
    requires DecompressSpec(src, d, decode, lzoInitCode).result == Pass
    requires ReadU32(src, 0) == COMPRESSED_BLOCK_MAGIC
    requires var h := ReadPrologue(src); NoWrap(src, BlockCount(h.totalDecompressedSize, h.blockSize))
    requires q < |d|
    ensures var h := ReadPrologue(src);
            var n := BlockCount(h.totalDecompressedSize, h.blockSize);
            var table := BlockTable(src, n);
            var out := DecompressSpec(src, d, decode, lzoInitCode).dst;
            && (forall j :: 0 <= j < n && table[j].dstOffset <= q < table[j].dstOffset + |DecodeBlock(src, table[j], decode).output| ==>
                  out[q] == DecodeBlock(src, table[j], decode).output[q - table[j].dstOffset])
            && ((forall j :: 0 <= j < n ==> !(table[j].dstOffset <= q < table[j].dstOffset + table[j].dstSize)) ==> out[q] == d[q])
  {
    var h := ReadPrologue(src);
    var n := BlockCount(h.totalDecompressedSize, h.blockSize);
    PassDecodesAll(src, d, decode, lzoInitCode);
    TableDisjoint(src, n);
    DecodedContents(d, src, BlockTable(src, n), decode, q);
  }

  /**
    When block k is the first to fail, nothing past the end of its output range is touched: the blocks
    after it are never decoded.
  */
  lemma {:induction false} FailureStopsAtBlock(src: seq<byte>, d: seq<byte>, decode: BlockDecoder, lzoInitCode: int, q: nat)
    requires WellFramed(src, |d|) && SafeDecoder(decode)
    requires DecompressSpec(src, d, decode, lzoInitCode).result.Fail?
    requires DecompressSpec(src, d, decode, lzoInitCode).result.error.CorruptBlock?
    requires ReadU32(src, 0) == COMPRESSED_BLOCK_MAGIC
    requires var h := ReadPrologue(src); NoWrap(src, BlockCount(h.totalDecompressedSize, h.blockSize))
    ensures var h := ReadPrologue(src);
            var n := BlockCount(h.totalDecompressedSize, h.blockSize);
            var table := BlockTable(src, n);
            var k := FirstFailureFrom(src, table, decode, 0);
            && k < n
            && DecompressSpec(src, d, decode, lzoInitCode).result.error.code == DecodeBlock(src, table[k], decode).code
            && (table[k].dstOffset + table[k].dstSize <= q < |d| ==> DecompressSpec(src, d, decode, lzoInitCode).dst[q] == d[q])
  {
    var h := ReadPrologue(src);
    var n := BlockCount(h.totalDecompressedSize, h.blockSize);
    var table := BlockTable(src, n);
    var k := FirstFailureFrom(src, table, decode, 0);
    if table[k].dstOffset + table[k].dstSize <= q < |d| {
      TableDisjoint(src, n);
      DecodedOutside(d, src, table, decode, k + 1, q);
    }
  }
}
