/** One benchmark run end to end: the head-count test, the workload and its
    block table, the v2 scratch sizing, then the warmup-and-measure driver;
    and the command-line entry, which repeats the head-count test first. */
module Benchmark {
  import opened PyInts
  import opened Outcomes
  import opened Workload
  import opened Partition
  import opened Dispatch

  /** The arguments of `main` that the modelled logic reads. */
  datatype Config = Config(
    version: string,
    numSeqs: nat,
    seqLen: int,
    numQueryHeads: nat,
    numKvHeads: int,
    headSize: nat,
    blockSize: int,
    doProfile: bool)

  /** The test `num_query_heads % num_kv_heads == 0`, failing with `mismatch`.
      Python's `%` takes the divisor's sign and Dafny's is never negative, but
      both are zero exactly when the divisor divides the dividend. */
  function CheckHeads(numQueryHeads: nat, numKvHeads: int, mismatch: Error): (r: Option<Error>)
    ensures r.None? ==> numKvHeads != 0 && numQueryHeads == (numQueryHeads / numKvHeads) * numKvHeads
    ensures numKvHeads == 0 ==> r == Some(ZeroDivision)
    ensures numKvHeads != 0 && r.Some? ==> r == Some(mismatch)
  {
    if numKvHeads == 0 then Some(ZeroDivision)
    else if numQueryHeads % numKvHeads != 0 then Some(mismatch)
    else None
  }

  /** Query heads grouped evenly over the key/value heads pass the test. */
  lemma GroupedHeadsPass(numQueryHeads: nat, numKvHeads: int, groupSize: int, mismatch: Error)
    requires numKvHeads != 0 && numQueryHeads == groupSize * numKvHeads
    ensures CheckHeads(numQueryHeads, numKvHeads, mismatch) == None
  {
    var q, r := numQueryHeads / numKvHeads, numQueryHeads % numKvHeads;
    assert numQueryHeads == q * numKvHeads + r;
    assert (groupSize - q) * numKvHeads == r;
    var d := groupSize - q;
    if d > 0 {
      MulMonotone(1, d, if numKvHeads > 0 then numKvHeads else -numKvHeads);
    } else if d < 0 {
      MulMonotone(1, -d, if numKvHeads > 0 then numKvHeads else -numKvHeads);
    }
  }

  /** What the run sets up before the first kernel call. */
  datatype Plan = Plan(workload: Workload, scratch: Option<Scratch>)

  /** The set-up of `main` up to the driver, with its errors in source order:
      the attention scale `1.0 / head_size ** 0.5`, the head-count assertion,
      then the workload, then (for v2 only) the scratch buffers sized with the
      run's partition size. */
  function Prepare(cfg: Config, platform: Platform, customPagedAttn: bool): (r: Result<Plan>)
    ensures cfg.headSize == 0 ==> r == Failure(ZeroDivision)
    ensures cfg.headSize > 0 && cfg.numKvHeads == 0 ==> r == Failure(ZeroDivision)
    ensures cfg.headSize > 0 && cfg.numKvHeads != 0 && cfg.numQueryHeads % cfg.numKvHeads != 0 ==>
      r == Failure(HeadsAssertionError)
    ensures cfg.headSize > 0 && CheckHeads(cfg.numQueryHeads, cfg.numKvHeads, HeadsAssertionError).None? ==>
      var w := MakeWorkload(cfg.numSeqs, cfg.seqLen, cfg.blockSize);
      && (w.Failure? ==> r == Failure(w.error))
      && (w.Success? && cfg.version == "v2" && cfg.seqLen + PartitionSize(platform, customPagedAttn) <= 0 ==>
            r == Failure(NegativeDimension))
      && (r.Success? <==>
            w.Success? && (cfg.version == "v2" ==> cfg.seqLen + PartitionSize(platform, customPagedAttn) > 0))
    ensures r.Success? ==>
      && cfg.headSize > 0
      && CheckHeads(cfg.numQueryHeads, cfg.numKvHeads, HeadsAssertionError).None?
      && WellFormed(r.value.workload, cfg.numSeqs, cfg.seqLen, cfg.blockSize)
      && (r.value.scratch.Some? <==> cfg.version == "v2")
      && (r.value.scratch.Some? ==>
            var s := r.value.scratch.value;
            && IsCeil(s.numPartitions, cfg.seqLen, PartitionSize(platform, customPagedAttn))
            && s.expSums == [cfg.numSeqs, cfg.numQueryHeads, s.numPartitions]
            && s.maxLogits == s.expSums
            && s.tmpOutput == s.expSums + [cfg.headSize])
  {
    if cfg.headSize == 0 then Failure(ZeroDivision)
    else
      match CheckHeads(cfg.numQueryHeads, cfg.numKvHeads, HeadsAssertionError)
      case Some(e) => Failure(e)
      case None =>
        match MakeWorkload(cfg.numSeqs, cfg.seqLen, cfg.blockSize)
        case Failure(e) => Failure(e)
        case Success(w) =>
          if cfg.version != "v2" then Success(Plan(w, None))
          else
            match MakeScratch(cfg.numSeqs, cfg.numQueryHeads, cfg.headSize, w.maxSeqLen,
                              PartitionSize(platform, customPagedAttn))
            case Failure(e) => Failure(e)
            case Success(s) => Success(Plan(w, Some(s)))
  }

  /** What a finished run returns: the set-up and the generated block table. */
  datatype Report = Report(plan: Plan, blockTables: seq<seq<int>>)

  /** The outcome of `main`: a failing set-up issues no device call; otherwise
      the driver's calls are issued, and the run succeeds exactly when the
      version selects a kernel, with a block table of the workload's shape. */
  ghost predicate MainOutcome(cfg: Config, platform: Platform, customPagedAttn: bool,
                              r: Result<Report>, before: seq<Event>, after: seq<Event>)
  {
    var plan := Prepare(cfg, platform, customPagedAttn);
    if plan.Failure? then
      r == Failure(plan.error) && after == before
    else
      && after == before + DriverTrace(cfg.version, customPagedAttn, cfg.doProfile)
      && (r.Success? <==> SelectKernel(cfg.version, customPagedAttn).Some?)
      && (r.Failure? ==> r.error == InvalidVersion(cfg.version))
      && (r.Success? ==>
            && r.value.plan == plan.value
            && IsBlockTable(r.value.blockTables, cfg.numSeqs,
                            RangeLen(plan.value.workload.maxNumBlocksPerSeq)))
  }

  /** `main`: the model of lines 47-221 without the tensors, timing and
      printing. */
  method RunMain(dev: Device, cfg: Config, platform: Platform, customPagedAttn: bool)
    returns (r: Result<Report>)
    modifies dev
    ensures MainOutcome(cfg, platform, customPagedAttn, r, old(dev.trace), dev.trace)
  {
    if cfg.headSize == 0 {
      return Failure(ZeroDivision);
    }
    var headsError := CheckHeads(cfg.numQueryHeads, cfg.numKvHeads, HeadsAssertionError);
    if headsError.Some? {
      return Failure(headsError.value);
    }
    var made := MakeWorkload(cfg.numSeqs, cfg.seqLen, cfg.blockSize);
    if made.Failure? {
      return Failure(made.error);
    }
    var w := made.value;
    var tables := BuildBlockTables(cfg.numSeqs, w.maxNumBlocksPerSeq);
    var scratch := None;
    if cfg.version == "v2" {
      var partitionSize := PartitionSize(platform, customPagedAttn);
      var sized := MakeScratch(cfg.numSeqs, cfg.numQueryHeads, cfg.headSize, w.maxSeqLen, partitionSize);
      if sized.Failure? {
        return Failure(sized.error);
      }
      scratch := Some(sized.value);
    }
    assert Prepare(cfg, platform, customPagedAttn) == Success(Plan(w, scratch));
    var outcome := RunDriver(dev, cfg.version, customPagedAttn, cfg.doProfile);
    if outcome.Failure? {
      return Failure(outcome.error);
    }
    return Success(Report(Plan(w, scratch), tables));
  }

  /** The command-line entry: the head-count test raises `ValueError` before
      `main` is called, so a mismatch issues no device call at all. */
  method CliMain(dev: Device, cfg: Config, platform: Platform, customPagedAttn: bool)
    returns (r: Result<Report>)
    modifies dev
    ensures cfg.numKvHeads == 0 ==> r == Failure(ZeroDivision) && dev.trace == old(dev.trace)
    ensures cfg.numKvHeads != 0 && cfg.numQueryHeads % cfg.numKvHeads != 0 ==>
      r == Failure(HeadsValueError) && dev.trace == old(dev.trace)
    ensures CheckHeads(cfg.numQueryHeads, cfg.numKvHeads, HeadsValueError).None? ==>
      MainOutcome(cfg, platform, customPagedAttn, r, old(dev.trace), dev.trace)
  {
    var headsError := CheckHeads(cfg.numQueryHeads, cfg.numKvHeads, HeadsValueError);
    if headsError.Some? {
      return Failure(headsError.value);
    }
    r := RunMain(dev, cfg, platform, customPagedAttn);
  }

  /** The default command line: 8 sequences of 4096 tokens, 64 query heads
      over 8 key/value heads, head size 128, blocks of 16, kernel v2 on general
      hardware. */
  function DefaultConfig(): Config {
    Config("v2", 8, 4096, 64, 8, 128, 16, false)
  }

  /** The default run sets up a 256-column table and 8 partitions; `main`
      with 63 query heads stops at the head-count assertion, and with a head
      size of 0 at the attention scale. */
  lemma DefaultRunPlan()
    ensures var r := Prepare(DefaultConfig(), Platform(false, false), false);
      && r.Success?
      && r.value.workload.maxNumBlocksPerSeq == 256
      && r.value.scratch.Some?
      && r.value.scratch.value.expSums == [8, 64, 8]
    ensures Prepare(DefaultConfig().(numQueryHeads := 63), Platform(false, false), false)
         == Failure(HeadsAssertionError)
    ensures Prepare(DefaultConfig().(numQueryHeads := 63, headSize := 0), Platform(false, false), false)
         == Failure(ZeroDivision)
  {
    var r := Prepare(DefaultConfig(), Platform(false, false), false);
    GroupedHeadsPass(64, 8, 8, HeadsAssertionError);
    CeilUnique(r.value.workload.maxNumBlocksPerSeq, 256, 4096, 16);
    CeilUnique(r.value.scratch.value.numPartitions, 8, 4096, 512);
  }

  /** An unknown version is not refused during set-up: the workload is built
      and only the first warmup iteration raises. */
  lemma UnknownVersionRaisesAfterSetup(cfg: Config, platform: Platform, customPagedAttn: bool)
    requires cfg.version != "v1" && cfg.version != "v2"
    requires cfg.headSize > 0
    requires CheckHeads(cfg.numQueryHeads, cfg.numKvHeads, HeadsAssertionError).None?
    requires MakeWorkload(cfg.numSeqs, cfg.seqLen, cfg.blockSize).Success?
    ensures Prepare(cfg, platform, customPagedAttn).Success?
    ensures Prepare(cfg, platform, customPagedAttn).value.scratch.None?
    ensures DriverTrace(cfg.version, customPagedAttn, cfg.doProfile) == [ClockRead]
  {
    DriverLaunchTotal(cfg.version, customPagedAttn, cfg.doProfile);
  }
}
