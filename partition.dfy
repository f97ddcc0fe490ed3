/** Scratch sizing for the partitioned (v2) kernel: the platform picks a
    partition size once per run, each sequence is split into
    ceil(max_seq_len / PARTITION_SIZE) partitions, and the three scratch
    buffers are shaped from that count. */
module Partition {
  import opened PyInts
  import opened Outcomes

  /** Partition size on general hardware. */
  const PARTITION_SIZE: nat := 512
  /** Partition size on ROCm with the custom kernel path or a Navi GPU. */
  const PARTITION_SIZE_ROCM: nat := 256
  /** Partition size on ROCm's default path (a literal in the script). */
  const PARTITION_SIZE_ROCM_DEFAULT: nat := 1024

  /** What the script asks `current_platform`. */
  datatype Platform = Platform(isRocm: bool, isNavi: bool)

  /** The partition size fixed for the run; `customPagedAttn` is the
      `--custom-paged-attn` flag. */
  function PartitionSize(platform: Platform, customPagedAttn: bool): (p: nat)
    ensures !platform.isRocm ==> p == PARTITION_SIZE
    ensures platform.isRocm && !customPagedAttn && !platform.isNavi ==> p == PARTITION_SIZE_ROCM_DEFAULT
    ensures platform.isRocm && (customPagedAttn || platform.isNavi) ==> p == PARTITION_SIZE_ROCM
  {
    if !platform.isRocm then PARTITION_SIZE
    else if !customPagedAttn && !platform.isNavi then PARTITION_SIZE_ROCM_DEFAULT
    else PARTITION_SIZE_ROCM
  }

  /** Element count of a tensor of the given shape. */
  function Numel(shape: seq<int>): int {
    if shape == [] then 1 else shape[0] * Numel(shape[1..])
  }

  /** Appending a dimension multiplies the element count by it. */
  lemma {:induction false} NumelAppend(shape: seq<int>, d: int)
    ensures Numel(shape + [d]) == Numel(shape) * d
  {
    if shape != [] {
      assert (shape + [d])[1..] == shape[1..] + [d];
      NumelAppend(shape[1..], d);
      assert Numel(shape + [d]) == shape[0] * (Numel(shape[1..]) * d);
    } else {
      assert [d][1..] == [];
    }
  }

  /** The v2 scratch state: `tmp_output`, `exp_sums` and `max_logits` shapes. */
  datatype Scratch = Scratch(
    numPartitions: int,
    tmpOutput: seq<int>,
    expSums: seq<int>,
    maxLogits: seq<int>)

  /** Sizes the scratch buffers; torch refuses the negative partition count
      that a length of at most -partitionSize produces. */
  function MakeScratch(numSeqs: nat, numQueryHeads: nat, headSize: nat, maxSeqLen: int,
                       partitionSize: nat): (r: Result<Scratch>)
    requires partitionSize > 0
    ensures r.Failure? <==> maxSeqLen + partitionSize <= 0
    ensures r.Failure? ==> r.error == NegativeDimension
    ensures r.Success? ==>
      && IsCeil(r.value.numPartitions, maxSeqLen, partitionSize)
      && r.value.numPartitions >= 0
      && r.value.expSums == [numSeqs, numQueryHeads, r.value.numPartitions]
      && r.value.maxLogits == r.value.expSums
      && r.value.tmpOutput == r.value.expSums + [headSize]
      && Numel(r.value.tmpOutput) == Numel(r.value.expSums) * headSize
  {
    var numPartitions := CeilDiv(maxSeqLen, partitionSize);
    CeilDivIsCeiling(maxSeqLen, partitionSize);
    assert numPartitions < 0 <==> maxSeqLen + partitionSize <= 0 by {
      if numPartitions < 0 {
        MulMonotone(numPartitions, -1, partitionSize);
      }
      if numPartitions >= 0 {
        MulMonotone(0, numPartitions, partitionSize);
        assert (numPartitions - 1) * partitionSize == numPartitions * partitionSize - partitionSize;
      }
    }
    if numPartitions < 0 then Failure(NegativeDimension)
    else
      var expSums := [numSeqs, numQueryHeads, numPartitions];
      NumelAppend(expSums, headSize);
      Success(Scratch(numPartitions, expSums + [headSize], expSums, expSums))
  }

  /** Every partition size divides evenly into blocks of either supported
      block size (16 or 32 tokens). */
  lemma PartitionHoldsWholeBlocks(platform: Platform, customPagedAttn: bool, blockSize: int)
    requires blockSize == 16 || blockSize == 32
    ensures PartitionSize(platform, customPagedAttn) % blockSize == 0
  {
  }

  /** When a block size divides the partition size, each partition covers
      exactly partitionSize / blockSize columns of the block table: the
      partition count is the block-table width divided, rounding up, by that. */
  lemma PartitionsCoverBlockTable(maxSeqLen: int, blockSize: int, partitionSize: nat)
    requires blockSize > 0 && partitionSize > 0 && partitionSize % blockSize == 0
    ensures partitionSize / blockSize > 0
    ensures CeilDiv(maxSeqLen, partitionSize)
         == CeilDiv(CeilDiv(maxSeqLen, blockSize), partitionSize / blockSize)
  {
    var m := partitionSize / blockSize;
    assert blockSize * m == partitionSize;
    CeilOfCeil(maxSeqLen, blockSize, m);
  }

  /** The default 4096-token sequences give 8 partitions on general hardware,
      4 on ROCm's default path, and 16 with the custom path or on Navi. */
  lemma DefaultPartitions(platform: Platform, customPagedAttn: bool)
    ensures var s := MakeScratch(8, 64, 128, 4096, PartitionSize(platform, customPagedAttn));
      && s.Success?
      && s.value.numPartitions == 4096 / PartitionSize(platform, customPagedAttn)
      && Numel(s.value.tmpOutput) == 8 * 64 * 128 * (4096 / PartitionSize(platform, customPagedAttn))
  {
    var p := PartitionSize(platform, customPagedAttn);
    var s := MakeScratch(8, 64, 128, 4096, p).value;
    CeilUnique(s.numPartitions, 4096 / p, 4096, p);
    assert Numel(s.expSums) == 8 * (64 * (s.numPartitions * 1)) by {
      assert s.expSums[1..] == [64, s.numPartitions];
      assert s.expSums[1..][1..] == [s.numPartitions];
      assert s.expSums[1..][1..][1..] == [];
    }
  }
}
