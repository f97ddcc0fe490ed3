/** The synthetic workload of one benchmark run: equal sequence lengths, the
    number of cache blocks each sequence occupies, and a block table mapping
    every logical block of every sequence to a random physical block of the
    cache arena. */
module Workload {
  import opened PyInts
  import opened Outcomes

  /** Physical blocks in the key/value cache arena, fixed for every workload. */
  const NUM_BLOCKS: int := 1280 * 1024

  datatype Workload = Workload(
    seqLens: seq<int>,
    maxSeqLen: int,
    seqNumBlocks: seq<int>,
    totalNumBlocks: int,
    maxNumBlocksPerSeq: int)

  /** Blocks per sequence, computed element-wise over the lengths: for a
      positive block size, the fewest blocks that hold each sequence. */
  function SeqNumBlocks(lens: seq<int>, blockSize: int): (blocks: seq<int>)
    requires blockSize != 0
    ensures |blocks| == |lens|
    ensures forall i :: 0 <= i < |lens| ==> blocks[i] == CeilDiv(lens[i], blockSize)
    ensures blockSize > 0 ==> forall i :: 0 <= i < |lens| ==> IsCeil(blocks[i], lens[i], blockSize)
  {
    var blocks := seq(|lens|, i requires 0 <= i < |lens| => CeilDiv(lens[i], blockSize));
    if blockSize > 0 then
      assert forall i :: 0 <= i < |lens| ==> IsCeil(blocks[i], lens[i], blockSize) by {
        forall i | 0 <= i < |lens| {
          CeilDivIsCeiling(lens[i], blockSize);
        }
      }
      blocks
    else blocks
  }

  /** What a successfully generated workload satisfies. */
  predicate WellFormed(w: Workload, numSeqs: nat, seqLen: int, blockSize: int) {
    && |w.seqLens| == numSeqs
    && (forall i :: 0 <= i < numSeqs ==> w.seqLens[i] == seqLen)
    && w.maxSeqLen == seqLen
    && |w.seqNumBlocks| == numSeqs
    && (forall i :: 0 <= i < numSeqs ==> w.seqNumBlocks[i] == w.maxNumBlocksPerSeq)
    && w.totalNumBlocks == numSeqs * w.maxNumBlocksPerSeq
    && (blockSize > 0 ==> IsCeil(w.maxNumBlocksPerSeq, seqLen, blockSize))
  }

  /** The sequence lengths, their maximum, the per-sequence and total block
      counts, and the block-table width. Errors in the order the script meets
      them: `max` of an empty list, the int32 `seq_lens` tensor, then the
      division by the block size. */
  function MakeWorkload(numSeqs: nat, seqLen: int, blockSize: int): (r: Result<Workload>)
    ensures r.Failure? <==> numSeqs == 0 || !InInt32(seqLen) || blockSize == 0
    ensures numSeqs == 0 ==> r == Failure(EmptyBatch)
    ensures numSeqs > 0 && !InInt32(seqLen) ==> r == Failure(Int32Overflow)
    ensures r.Success? ==> WellFormed(r.value, numSeqs, seqLen, blockSize)
  {
    if numSeqs == 0 then Failure(EmptyBatch)
    else
      var lens := seq(numSeqs, _ => seqLen);
      var maxSeqLen := MaxOf(lens);
      if !InInt32(seqLen) then Failure(Int32Overflow)
      else if blockSize == 0 then Failure(ZeroDivision)
      else
        var blocks := SeqNumBlocks(lens, blockSize);
        var perSeq := CeilDiv(maxSeqLen, blockSize);
        SumConstant(blocks, perSeq);
        assert blockSize > 0 ==> IsCeil(perSeq, maxSeqLen, blockSize) by {
          if blockSize > 0 { CeilDivIsCeiling(maxSeqLen, blockSize); }
        }
        Success(Workload(lens, maxSeqLen, blocks, Sum(blocks), perSeq))
  }

  /** The column count the loop produces: `range(m)` is empty when m <= 0. */
  function RangeLen(m: int): nat {
    if m > 0 then m else 0
  }

  /** A `rows` x `cols` table of physical block ids inside the arena. */
  predicate IsBlockTable(t: seq<seq<int>>, rows: nat, cols: nat) {
    && |t| == rows
    && (forall i :: 0 <= i < rows ==> |t[i]| == cols)
    && (forall i, j :: 0 <= i < rows && 0 <= j < |t[i]| ==> 0 <= t[i][j] < NUM_BLOCKS)
  }

  /** `random.randint(lo, hi)`: some integer of the closed range; which one is
      up to the generator, which is not modelled. */
  method RandInt(lo: int, hi: int) returns (v: int)
    requires lo <= hi
    ensures lo <= v <= hi
  {
    v :| lo <= v <= hi;
  }

  /** The nested loop that builds `block_tables_lst` row by row. */
  method BuildBlockTables(numSeqs: nat, maxNumBlocksPerSeq: int) returns (tables: seq<seq<int>>)
    ensures IsBlockTable(tables, numSeqs, RangeLen(maxNumBlocksPerSeq))
  {
    tables := [];
    var i := 0;
    while i < numSeqs
      invariant i <= numSeqs
      invariant IsBlockTable(tables, i, RangeLen(maxNumBlocksPerSeq))
    {
      var row := [];
      var j := 0;
      while j < maxNumBlocksPerSeq
        invariant 0 <= j == |row|
        invariant j <= RangeLen(maxNumBlocksPerSeq)
        invariant forall k :: 0 <= k < j ==> 0 <= row[k] < NUM_BLOCKS
      {
        var id := RandInt(0, NUM_BLOCKS - 1);
        row := row + [id];
        j := j + 1;
      }
      tables := tables + [row];
      i := i + 1;
    }
  }

  /** The default command-line workload: 8 sequences of 4096 tokens in blocks
      of 16 occupy 256 blocks each and 2048 in all. */
  lemma DefaultWorkload()
    ensures MakeWorkload(8, 4096, 16).Success?
    ensures MakeWorkload(8, 4096, 16).value.maxNumBlocksPerSeq == 256
    ensures MakeWorkload(8, 4096, 16).value.totalNumBlocks == 2048
  {
    var w := MakeWorkload(8, 4096, 16).value;
    CeilUnique(w.maxNumBlocksPerSeq, 256, 4096, 16);
  }

  // The block counts as the script computes them: `seq_lens` is an int32
  // tensor, so `seq_lens + block_size - 1` wraps before the division.

  /** One sequence's block count as computed on the int32 tensor. */
  function SeqNumBlocksInt32(seqLen: int, blockSize: int): (k: int)
    requires blockSize != 0
    ensures blockSize > 0 && InInt32(seqLen + blockSize - 1) ==> IsCeil(k, seqLen, blockSize)
  {
    var k := FloorDiv(Wrap32(seqLen + blockSize - 1), blockSize);
    assert (k - 1) * blockSize == k * blockSize - blockSize;
    k
  }

  /** `total_num_blocks` as written: the sum of the wrapped counts, which is
      num_seqs copies of one sequence's count. */
  function TotalNumBlocksAsWritten(numSeqs: nat, seqLen: int, blockSize: int): (total: int)
    requires blockSize != 0
    ensures total == numSeqs * SeqNumBlocksInt32(seqLen, blockSize)
  {
    var counts := seq(numSeqs, _ => SeqNumBlocksInt32(seqLen, blockSize));
    SumConstant(counts, SeqNumBlocksInt32(seqLen, blockSize));
    Sum(counts)
  }

  /** Without wrap-around the tensor computation gives the intended total. */
  lemma AsWrittenAgreesWithoutOverflow(numSeqs: nat, seqLen: int, blockSize: int)
    requires InInt32(seqLen) && blockSize > 0 && seqLen + blockSize - 1 <= INT32_MAX
    ensures TotalNumBlocksAsWritten(numSeqs, seqLen, blockSize) == numSeqs * CeilDiv(seqLen, blockSize)
  {
    assert InInt32(seqLen + blockSize - 1);
  }

  /** Once `seq_len + block_size - 1` passes the int32 maximum, the total turns
      negative although every sequence occupies a positive number of blocks. */
  lemma AsWrittenNegativeOnOverflow(numSeqs: nat, seqLen: int, blockSize: int)
    requires numSeqs > 0 && 0 <= seqLen <= INT32_MAX && 0 < blockSize <= INT32_MAX
    requires seqLen + blockSize - 1 > INT32_MAX
    ensures TotalNumBlocksAsWritten(numSeqs, seqLen, blockSize) < 0
    ensures numSeqs * CeilDiv(seqLen, blockSize) > 0
  {
    var x := seqLen + blockSize - 1;
    var wrapped := x - 0x1_0000_0000;
    assert Wrap32(x) == wrapped;
    var each := SeqNumBlocksInt32(seqLen, blockSize);
    assert each < 0;
    MulMonotone(1, numSeqs, -each);
    CeilDivIsCeiling(seqLen, blockSize);
    var k := CeilDiv(seqLen, blockSize);
    assert seqLen > 0;
    if k <= 0 {
      MulMonotone(k, 0, blockSize);
      assert false;
    }
    MulMonotone(1, numSeqs, k);
  }

  /** The concrete input: one sequence of 2^31 - 1 tokens in blocks of 16
      occupies 134217728 blocks, but the script reports -134217728. */
  lemma OverflowExample()
    ensures TotalNumBlocksAsWritten(1, INT32_MAX, 16) == -134217728
    ensures MakeWorkload(1, INT32_MAX, 16).value.totalNumBlocks == 134217728
  {
    assert Wrap32(INT32_MAX + 15) == -2147483634;
    assert SeqNumBlocksInt32(INT32_MAX, 16) == -134217728;
    var w := MakeWorkload(1, INT32_MAX, 16).value;
    CeilUnique(w.maxNumBlocksPerSeq, 134217728, INT32_MAX, 16);
  }
}
