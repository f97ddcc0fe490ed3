# Paged-attention benchmark harness: a Dafny model

This project models `gpu/scripts/benchmark_paged_attention.py`. That script benchmarks
the paged-attention kernels of an LLM inference engine. The key/value history of every
sequence sits in fixed-size blocks of a cache arena of `NUM_BLOCKS = 1280 * 1024`
physical blocks. A block table maps each logical block of each sequence to a physical
block id.

The model covers the script's integer core:

- **Workload** (`workload.dfy`): all sequences get the same length; Python's `max` and
  `sum`; the ceiling-division block counts; the nested loop that fills the
  `num_seqs x max_num_blocks_per_seq` block table with `random.randint(0, NUM_BLOCKS - 1)`.
- **Partition sizing** (`partition.dfy`): the decision table that picks the v2 partition
  size from the ROCm, custom-path and Navi flags; the partition count; the shapes of the
  `tmp_output`, `exp_sums` and `max_logits` scratch buffers.
- **Dispatch and driver** (`dispatch.dfy`): `run_cuda_benchmark` issues one kernel call
  per iteration, chosen from the version and the custom flag. The driver runs three
  warmup iterations, then one profiled iteration or ten plain ones. Kernel launches,
  profiler start/stop and `time.perf_counter()` readings are events appended to a
  `Device` trace. Lemmas over that trace fix the count, kind and order of calls and
  which launches each timed bracket holds.
- **Run** (`benchmark.dfy`): `main` as a whole, and the command-line entry with its own
  head-count test. Every error is modelled as a `Failure` that ends the run, in the order
  the script raises it.
- `ints.dfy` holds the arithmetic: Python floor division, int32 wrap-around, and the
  ceiling lemmas. `outcomes.dfy` holds the result types and the error list.

Inputs the script reads from outside become parameters:

- `current_platform.is_rocm()` and `is_navi()` become a `Platform` value.
- The `--custom-paged-attn` module global becomes the `customPagedAttn` flag.
- `random.randint` becomes a method that returns some value in its closed range.

The partition size is fixed once per run. The script writes it into a module global,
but `main` runs once per process.

Facts about the script's order of checks that the model keeps:

- The script does not reject an unknown version during set-up. The workload, block
  table and cache are built first, and the `ValueError` comes on the first warmup
  iteration, after one clock reading (`UnknownVersionRaisesAfterSetup`).
- The first thing `main` computes is the attention scale `1.0 / head_size ** 0.5`
  (line 49). A head size of 0 raises `ZeroDivisionError` there, before anything else.
- Inside `main`, the head-count assertion runs after the scale and the query tensor.
  Only the command-line entry tests the head counts before any allocation.
- `main` does not reject a non-positive `seq_len` or an unsupported block size. Only the
  command-line choices restrict the block size, to 16 or 32. A zero block size fails with
  `ZeroDivisionError`. Non-positive lengths give zero or negative block counts, and the
  loop then builds empty rows.

## Model

| member | source | states |
|---|---|---|
| `PyInts.FloorDiv` | gpu/scripts/benchmark_paged_attention.py:72 | Python `//` is floor division for either sign of divisor: q*b <= a < q*b + b for b > 0, mirrored for b < 0 |
| `PyInts.CeilDiv` | gpu/scripts/benchmark_paged_attention.py:65-72 | the script's ceiling idiom `(n + b - 1) // b`, on Python floor division; what it means is stated by `CeilDivIsCeiling` |
| `PyInts.CeilDivIsCeiling` | gpu/scripts/benchmark_paged_attention.py:65-72 | for a positive divisor, `(n + b - 1) // b` is the ceiling of n / b: k*b >= n and (k-1)*b < n, for every integer n |
| `PyInts.CeilUnique` | gpu/scripts/benchmark_paged_attention.py:72 | the ceiling is unique: two values meeting k*b >= n > (k-1)*b are equal |
| `PyInts.CeilOfCeil` | gpu/scripts/benchmark_paged_attention.py:117 | ceil(ceil(n/b)/m) == ceil(n/(b*m)) for positive b and m |
| `PyInts.Wrap32` | gpu/scripts/benchmark_paged_attention.py:62-65 | int32 tensor arithmetic: the result is in int32 range, congruent to the exact value mod 2^32, and equal to it when that fits |
| `PyInts.Sum` | gpu/scripts/benchmark_paged_attention.py:67 | `.sum()` of a list: the elements added up in order, with 0 for the empty list |
| `PyInts.SumConstant` | gpu/scripts/benchmark_paged_attention.py:67 | the sum of a list whose every element is c is length * c |
| `PyInts.MaxOf` | gpu/scripts/benchmark_paged_attention.py:61 | `max` returns an element of the list that no element exceeds |
| `Workload.SeqNumBlocks` | gpu/scripts/benchmark_paged_attention.py:65 | one block count per sequence; for a positive block size each is the fewest blocks that hold that sequence (k * block_size >= length > (k - 1) * block_size) |
| `Workload.MakeWorkload` | gpu/scripts/benchmark_paged_attention.py:60-72 | fails exactly on an empty batch (`max`), a length outside int32 (the `seq_lens` tensor) or a zero block size, in that order; otherwise every length is seq_len, max_seq_len = seq_len, every per-sequence count equals max_num_blocks_per_seq, the total is num_seqs times it, and it is the ceiling of seq_len / block_size |
| `Workload.RandInt` | gpu/scripts/benchmark_paged_attention.py:76 | `random.randint(lo, hi)` returns a value in the closed range [lo, hi] |
| `Workload.BuildBlockTables` | gpu/scripts/benchmark_paged_attention.py:73-78 | the loop builds exactly num_seqs rows of max(0, max_num_blocks_per_seq) entries, each in [0, NUM_BLOCKS) |
| `Workload.DefaultWorkload` | gpu/scripts/benchmark_paged_attention.py:60-72 | 8 sequences of 4096 tokens in blocks of 16 occupy 256 blocks each and 2048 in all |
| `Workload.SeqNumBlocksInt32` | gpu/scripts/benchmark_paged_attention.py:62-65 | one sequence's block count as computed on the int32 tensor (wrap, then floor division); when `seq_len + block_size - 1` fits int32 and the block size is positive it is the ceiling of seq_len / block_size |
| `Workload.TotalNumBlocksAsWritten` | gpu/scripts/benchmark_paged_attention.py:62-67 | `total_num_blocks` as computed: the sum of the int32 counts, which is num_seqs times one sequence's int32 count |
| `Workload.AsWrittenAgreesWithoutOverflow` | gpu/scripts/benchmark_paged_attention.py:62-67 | when seq_len + block_size - 1 fits int32, the int32 computation of total_num_blocks gives num_seqs * ceil(seq_len / block_size) |
| `Workload.AsWrittenNegativeOnOverflow` | gpu/scripts/benchmark_paged_attention.py:62-67 | when seq_len + block_size - 1 exceeds the int32 maximum, the total as computed is negative while the true block count is positive |
| `Workload.OverflowExample` | gpu/scripts/benchmark_paged_attention.py:62-67 | num_seqs = 1, seq_len = 2^31 - 1, block_size = 16: the script computes -134217728 blocks; the model gives 134217728 |
| `Partition.PartitionSize` | gpu/scripts/benchmark_paged_attention.py:27-28 | not ROCm gives 512; ROCm with neither the custom path nor Navi gives 1024; ROCm with the custom path or Navi gives 256 |
| `Partition.NumelAppend` | gpu/scripts/benchmark_paged_attention.py:118-122 | appending a dimension to a shape multiplies its element count by that dimension |
| `Partition.MakeScratch` | gpu/scripts/benchmark_paged_attention.py:117-128 | num_partitions is the ceiling of max_seq_len / partition size. exp_sums has shape (num_seqs, num_query_heads, num_partitions). max_logits has the same shape. tmp_output adds head_size as a fourth dimension and has head_size times as many elements. A negative partition count (max_seq_len <= -partition size) is refused, and only that |
| `Partition.PartitionHoldsWholeBlocks` | gpu/scripts/benchmark_paged_attention.py:110-116 | every partition size is a multiple of both supported block sizes, 16 and 32 |
| `Partition.PartitionsCoverBlockTable` | gpu/scripts/benchmark_paged_attention.py:117 | when the block size divides the partition size, num_partitions is ceil(max_num_blocks_per_seq / (partition size / block size)): each partition spans whole block-table columns |
| `Partition.DefaultPartitions` | gpu/scripts/benchmark_paged_attention.py:117-128 | a 4096-token workload of 8 sequences and 64 heads gets 4096 / partition size partitions (8, 4 or 16), and tmp_output has 8 * 64 * 128 elements per partition |
| `Dispatch.SelectKernel` | gpu/scripts/benchmark_paged_attention.py:139-199 | "v1" selects paged_attention_v1, "v2" without the custom flag paged_attention_v2, "v2" with it paged_attention_rocm, and any other version nothing (each an if-and-only-if) |
| `Dispatch.Iteration` | gpu/scripts/benchmark_paged_attention.py:139-199 | one loop iteration appends exactly one launch of the selected kernel, or raises `ValueError` for an unknown version and appends nothing |
| `Dispatch.BenchmarkTrace` | gpu/scripts/benchmark_paged_attention.py:130-203 | the events of one `run_cuda_benchmark` call in order: profiler start if profiling, clock, one launch per iteration, clock, profiler stop if profiling; only the opening events for an unknown version, which raises in the first iteration |
| `Dispatch.RunCudaBenchmark` | gpu/scripts/benchmark_paged_attention.py:130-203 | the device trace grows by exactly BenchmarkTrace: profiler start if profiling, clock, the launches, clock, profiler stop; success exactly when the version is known |
| `Dispatch.DriverTrace` | gpu/scripts/benchmark_paged_attention.py:212-220 | the driver's events: an unprofiled 3-iteration run, then a profiled 1-iteration or a plain 10-iteration run, the second omitted when the first raises |
| `Dispatch.RunDriver` | gpu/scripts/benchmark_paged_attention.py:212-220 | the device trace grows by the warmup run's events and then, unless warmup raised, the measured run's events |
| `Dispatch.RunLaunches` | gpu/scripts/benchmark_paged_attention.py:138-199 | a run launches exactly num_iters kernels, all of the selected kind, or none for an unknown version |
| `Dispatch.RunProfilerBracket` | gpu/scripts/benchmark_paged_attention.py:131-132 | profiler start appears exactly when profiling and comes first. Profiler stop appears exactly when profiling and the run completes, and comes last |
| `Dispatch.DriverLaunchTotal` | gpu/scripts/benchmark_paged_attention.py:212-220 | 3 warmup launches plus 1 or 10 measured: 4 launches when profiling and 13 otherwise. An unknown version stops after the first clock reading |
| `Dispatch.DriverTimedBrackets` | gpu/scripts/benchmark_paged_attention.py:133-205 | the launches issued between the clock readings form two brackets: the warmup's 3 launches, then exactly the measured launches, whose count divides the reported time. A raising run completes no bracket |
| `Dispatch.DriverProfiledSegment` | gpu/scripts/benchmark_paged_attention.py:217-218 | the profiler runs only in a profiled run that does not raise. It starts after exactly 3 warmup launches and encloses exactly 1 launch |
| `Benchmark.CheckHeads` | gpu/scripts/benchmark_paged_attention.py:55 | a pass means num_query_heads is an exact multiple of num_kv_heads. A zero divisor raises `ZeroDivisionError`; any other failure is the given error |
| `Benchmark.GroupedHeadsPass` | gpu/scripts/benchmark_paged_attention.py:264 | query heads that are g times a nonzero num_kv_heads pass the test, for every g and either sign of num_kv_heads |
| `Benchmark.Prepare` | gpu/scripts/benchmark_paged_attention.py:49-128 | a head size of 0 fails with `ZeroDivisionError` first; then a zero num_kv_heads with `ZeroDivisionError` and a head mismatch with the assertion. Past those, the workload's error passes through, and a v2 partition count below zero fails with `NegativeDimension`; set-up succeeds exactly when the workload does and, for "v2", seq_len + partition size > 0. A successful set-up has a well-formed workload, and has scratch exactly for "v2", sized from the run's partition size |
| `Benchmark.RunMain` | gpu/scripts/benchmark_paged_attention.py:47-221 | a failing set-up (a head size of 0 included) issues no device call. Otherwise the driver's calls are issued, and the run succeeds exactly when the version is known, returning a block table of the workload's shape |
| `Benchmark.CliMain` | gpu/scripts/benchmark_paged_attention.py:264-290 | a head mismatch raises `ValueError` (a zero num_kv_heads `ZeroDivisionError`) before `main`, with no device call; otherwise the outcome is that of `main` |
| `Benchmark.DefaultRunPlan` | gpu/scripts/benchmark_paged_attention.py:231-242 | the default command line gives a 256-column table and exp_sums of shape (8, 64, 8); `main` with 63 query heads fails the head-count assertion, and with a head size of 0 as well `ZeroDivisionError` |
| `Benchmark.UnknownVersionRaisesAfterSetup` | gpu/scripts/benchmark_paged_attention.py:110-199 | for a version other than "v1" and "v2" the set-up succeeds without scratch, and the trace is the warmup's single clock reading |

## Findings

| source | as written | input that shows it | evidently intended | confidence | as-written member | corrected member |
|---|---|---|---|---|---|---|
| gpu/scripts/benchmark_paged_attention.py:62-67 | `seq_lens` is an int32 tensor, so `seq_lens + block_size - 1` wraps before `// block_size`, and `total_num_blocks` sums the wrapped counts | num_seqs = 1, seq_len = 2147483647, block_size = 16 gives total_num_blocks = -134217728, while the block table has 134217728 columns | total_num_blocks = num_seqs * ceil(seq_len / block_size), matching `max_num_blocks_per_seq` at line 72, which is computed on Python integers | medium; not executed; depends on torch's int32 arithmetic wrapping silently | `Workload.OverflowExample` (about `Workload.TotalNumBlocksAsWritten`) | `Workload.MakeWorkload` |

## Left out

- Tensor creation and filling (`query`, `alibi_slopes`, `output`, `block_tables`, the `k_scale`/`v_scale` tensor), `create_kv_caches_with_random` and the key/value cache shapes. These are foreign library calls. The model assumes the cache creation at lines 85-95 succeeds: a negative `block_size` or `num_kv_heads` passes the modelled set-up, although the script hands both to that call as cache dimensions.
- The `k_scale`/`v_scale` tensor is created on the device at line 136, after `start_time` is read, so the script's timed bracket includes that allocation. The model's brackets hold only launches.
- Whether a launch has finished: the kernel calls are asynchronous and neither `perf_counter` reading (lines 133 and 201) waits for the device. The brackets therefore order launch issues, not kernel executions, and warmup kernels may still run when the measured bracket opens.
- The kernel bodies `paged_attention_v1`, `paged_attention_v2` and `paged_attention_rocm`. They are opaque; each launch is one trace event, and kernel failures are not modelled.
- Timing and bandwidth: `kernel_time`, `data_accessed`, `mem_bw`, the cache-size prints and the latency print (lines 68, 98-106, 201-208, 221). This is floating-point arithmetic on wall-clock readings. Only the clock readings themselves are kept, as trace events.
- The CUDA profiler internals and the pluggable allocator, `MemPool` and `use_mem_pool` scope (lines 267-274). These are device plumbing. The profiler calls are kept only as trace events.
- Argument parsing, logging and printing. The inputs `use_alibi`, `dtype`, `seed` and `kv_cache_dtype` only reach the calls left out above, so `Config` does not carry them.
- Seeding (`seed_everything`) and the random generator's algorithm. `RandInt` may return any value of its range.
- `Benchmark.Config`: `numSeqs`, `numQueryHeads` and `headSize` are natural numbers. In `main` a negative `head_size` fails at line 49, where the square root of a negative number is complex and `float` refuses it, and the allocation at line 50 refuses a negative `num_seqs` or `num_query_heads`. On the command-line path the test at line 264 runs first, on the signed values: for example `num_query_heads = -3` with `num_kv_heads = 2` raises `ValueError` there. The model does not cover these negative inputs.
- `Dispatch.RunCudaBenchmark`: requires at least one iteration. It is only called with 3, 1 or 10, and zero iterations would divide by zero at line 205.
- `PyInts.Sum`: the int64 accumulation of `.sum()` is not bounded. Overflowing it would need more than 2^32 sequences.
- `Workload.SeqNumBlocksInt32`: `block_size` is not itself wrapped to int32, and the corner case `INT32_MIN // -1` is not modelled.
- The `args` global: `main` reads `args.custom_paged_attn`, which only exists when the script runs as a program. The model takes the flag as a parameter.
- Whether `assert` statements run: `HeadsAssertionError` is modelled as always raised, although `python -O` would skip the check at line 55.
- `cpu/scripts/batch.py` is not part of this model. It is a thin script over the engine's generation call.
