/** Kernel dispatch and the iteration protocol of the benchmark. The kernels
    themselves are opaque: each launch, each profiler start or stop and each
    read of the wall clock is an event appended to the device's trace, so the
    number, kind and order of calls can be stated. */
module Dispatch {
  import opened Outcomes

  datatype Kernel = PagedAttentionV1 | PagedAttentionV2 | PagedAttentionRocm

  datatype Event =
    | ProfilerStart
    | ProfilerStop
    /** A `time.perf_counter()` reading. */
    | ClockRead
    | Launch(kernel: Kernel)

  /** The kernel an iteration launches for a version string and the
      `--custom-paged-attn` flag; None when the version is unknown. */
  function SelectKernel(version: string, customPagedAttn: bool): (k: Option<Kernel>)
    ensures k == Some(PagedAttentionV1) <==> version == "v1"
    ensures k == Some(PagedAttentionV2) <==> version == "v2" && !customPagedAttn
    ensures k == Some(PagedAttentionRocm) <==> version == "v2" && customPagedAttn
    ensures k == None <==> version != "v1" && version != "v2"
  {
    if version == "v1" then Some(PagedAttentionV1)
    else if version == "v2" then
      if !customPagedAttn then Some(PagedAttentionV2) else Some(PagedAttentionRocm)
    else None
  }

  /** `n` launches of kernel `k`, one per loop iteration. */
  function Launches(k: Kernel, n: nat): seq<Event> {
    seq(n, _ => Launch(k))
  }

  /** Number of kernel launches in a trace. */
  function LaunchCount(t: seq<Event>): nat {
    if t == [] then 0 else (if t[0].Launch? then 1 else 0) + LaunchCount(t[1..])
  }

  lemma {:induction false} LaunchCountAppend(a: seq<Event>, b: seq<Event>)
    ensures LaunchCount(a + b) == LaunchCount(a) + LaunchCount(b)
  {
    if a != [] {
      assert (a + b)[1..] == a[1..] + b;
      LaunchCountAppend(a[1..], b);
    } else {
      assert a + b == b;
    }
  }

  lemma {:induction false} LaunchCountLaunches(k: Kernel, n: nat)
    ensures LaunchCount(Launches(k, n)) == n
  {
    if n > 0 {
      assert Launches(k, n)[1..] == Launches(k, n - 1);
      LaunchCountLaunches(k, n - 1);
    }
  }

  lemma {:induction false} LaunchFree(t: seq<Event>)
    requires forall i :: 0 <= i < |t| ==> !t[i].Launch?
    ensures LaunchCount(t) == 0
  {
    if t != [] {
      LaunchFree(t[1..]);
    }
  }

  /** What is emitted before the loop: profiler start when profiling, then the
      start time. */
  function Opening(profile: bool): seq<Event> {
    (if profile then [ProfilerStart] else []) + [ClockRead]
  }

  /** What is emitted after the loop: the end time, then profiler stop when
      profiling. */
  function Closing(profile: bool): seq<Event> {
    [ClockRead] + (if profile then [ProfilerStop] else [])
  }

  /** The events of one `run_cuda_benchmark(num_iters, profile)` call. An
      unknown version raises in the first iteration, after the opening events
      and before any launch or the closing events. */
  function BenchmarkTrace(version: string, customPagedAttn: bool, numIters: nat, profile: bool): seq<Event>
    requires numIters > 0
  {
    match SelectKernel(version, customPagedAttn)
    case None => Opening(profile)
    case Some(k) => Opening(profile) + Launches(k, numIters) + Closing(profile)
  }

  /** The device, as far as the harness can observe it: the ordered stream of
      calls it has been issued. */
  class Device {
    var trace: seq<Event>

    constructor ()
      ensures trace == []
    {
      trace := [];
    }

    method Record(e: Event)
      modifies this
      ensures trace == old(trace) + [e]
    {
      trace := trace + [e];
    }
  }

  /** One iteration of the loop body: exactly one kernel call, chosen from
      the version and the custom flag, or `ValueError` for another version. */
  method Iteration(dev: Device, version: string, customPagedAttn: bool) returns (r: Result<()>)
    modifies dev
    ensures SelectKernel(version, customPagedAttn).Some? ==>
      r.Success? && dev.trace == old(dev.trace) + [Launch(SelectKernel(version, customPagedAttn).value)]
    ensures SelectKernel(version, customPagedAttn).None? ==>
      r == Failure(InvalidVersion(version)) && dev.trace == old(dev.trace)
  {
    if version == "v1" {
      dev.Record(Launch(PagedAttentionV1));
    } else if version == "v2" {
      if !customPagedAttn {
        dev.Record(Launch(PagedAttentionV2));
      } else {
        dev.Record(Launch(PagedAttentionRocm));
      }
    } else {
      return Failure(InvalidVersion(version));
    }
    return Success(());
  }

  /** `run_cuda_benchmark`: the profiler start when profiling, the start time,
      `numIters` iterations, the end time, the profiler stop. */
  method RunCudaBenchmark(dev: Device, version: string, customPagedAttn: bool, numIters: nat, profile: bool)
    returns (r: Result<()>)
    requires numIters > 0
    modifies dev
    ensures dev.trace == old(dev.trace) + BenchmarkTrace(version, customPagedAttn, numIters, profile)
    ensures r.Success? <==> SelectKernel(version, customPagedAttn).Some?
    ensures r.Failure? ==> r.error == InvalidVersion(version)
  {
    var kernel := SelectKernel(version, customPagedAttn);
    if profile {
      dev.Record(ProfilerStart);
    }
    dev.Record(ClockRead);
    ghost var atStart := dev.trace;
    assert atStart == old(dev.trace) + Opening(profile);
    var i := 0;
    while i < numIters
      invariant 0 <= i <= numIters
      invariant kernel.Some? ==> dev.trace == atStart + Launches(kernel.value, i)
      invariant kernel.None? ==> i == 0 && dev.trace == atStart
    {
      r := Iteration(dev, version, customPagedAttn);
      if r.Failure? {
        return;
      }
      LaunchesSnoc(kernel.value, i);
      i := i + 1;
    }
    dev.Record(ClockRead);
    if profile {
      dev.Record(ProfilerStop);
    }
    return Success(());
  }

  lemma LaunchesSnoc(k: Kernel, n: nat)
    ensures Launches(k, n + 1) == Launches(k, n) + [Launch(k)]
  {
  }

  /** Iterations of the warmup run. */
  const WARMUP_ITERS: nat := 3

  /** Iterations of the measured run: one under the profiler, ten without. */
  function MeasuredIters(doProfile: bool): nat {
    if doProfile then 1 else 10
  }

  /** The events of the whole driver: an unprofiled warmup run, then the
      measured run; the driver stops at the warmup run when it raises. */
  function DriverTrace(version: string, customPagedAttn: bool, doProfile: bool): seq<Event> {
    var warmup := BenchmarkTrace(version, customPagedAttn, WARMUP_ITERS, false);
    if SelectKernel(version, customPagedAttn).None? then warmup
    else warmup + BenchmarkTrace(version, customPagedAttn, MeasuredIters(doProfile), doProfile)
  }

  /** The warmup-then-measure driver. */
  method RunDriver(dev: Device, version: string, customPagedAttn: bool, doProfile: bool)
    returns (r: Result<()>)
    modifies dev
    ensures dev.trace == old(dev.trace) + DriverTrace(version, customPagedAttn, doProfile)
    ensures r.Success? <==> SelectKernel(version, customPagedAttn).Some?
    ensures r.Failure? ==> r.error == InvalidVersion(version)
  {
    r := RunCudaBenchmark(dev, version, customPagedAttn, WARMUP_ITERS, false);
    if r.Failure? {
      return;
    }
    // one profiled iteration, or ten plain ones
    r := RunCudaBenchmark(dev, version, customPagedAttn, MeasuredIters(doProfile), doProfile);
  }

  // ---------------------------------------------------------------------
  // Reading a trace: the part before and after the first occurrence of a
  // marker event, and the timed brackets between pairs of clock readings.

  /** The events before the first `e` (all of `t` when there is none). */
  function Preceding(t: seq<Event>, e: Event): (p: seq<Event>)
    ensures e !in p
    ensures e !in t ==> p == t
  {
    if t == [] then [] else if t[0] == e then [] else [t[0]] + Preceding(t[1..], e)
  }

  /** The events after the first `e` (none when there is no `e`). */
  function Following(t: seq<Event>, e: Event): (s: seq<Event>)
    ensures |s| <= |t|
    ensures e in t ==> |s| < |t|
  {
    if t == [] then [] else if t[0] == e then t[1..] else Following(t[1..], e)
  }

  /** A marker-free prefix is passed over when looking for the marker. */
  lemma {:induction false} SkipPrefix(p: seq<Event>, s: seq<Event>, e: Event)
    requires e !in p
    ensures Following(p + s, e) == Following(s, e)
    ensures Preceding(p + s, e) == p + Preceding(s, e)
  {
    if p != [] {
      assert (p + s)[0] == p[0];
      assert (p + s)[1..] == p[1..] + s;
      SkipPrefix(p[1..], s, e);
      assert p == [p[0]] + p[1..];
    } else {
      assert p + s == s;
    }
  }

  /** Splitting a trace at the first occurrence of a marker. */
  lemma SplitAt(p: seq<Event>, e: Event, s: seq<Event>)
    requires e !in p
    ensures Preceding(p + [e] + s, e) == p
    ensures Following(p + [e] + s, e) == s
  {
    assert p + [e] + s == p + ([e] + s);
    SkipPrefix(p, [e] + s, e);
    assert ([e] + s)[1..] == s;
  }

  /** The segments of a trace timed by pairs of clock readings: between the
      first and second reading, the third and fourth, and so on. A trailing
      unmatched reading (a run that raised) times nothing. */
  function Brackets(t: seq<Event>): seq<seq<Event>>
    decreases |t|
  {
    if ClockRead !in t then []
    else
      var rest := Following(t, ClockRead);
      if ClockRead !in rest then []
      else [Preceding(rest, ClockRead)] + Brackets(Following(rest, ClockRead))
  }

  lemma BracketsSkip(p: seq<Event>, s: seq<Event>)
    requires ClockRead !in p
    ensures Brackets(p + s) == Brackets(s)
  {
    SkipPrefix(p, s, ClockRead);
    assert ClockRead in p + s <==> ClockRead in s;
  }

  /** One successful run is one bracket, holding exactly its launches. */
  lemma BracketsOfRun(k: Kernel, n: nat, profile: bool, rest: seq<Event>)
    ensures Brackets(Opening(profile) + Launches(k, n) + Closing(profile) + rest)
         == [Launches(k, n)] + Brackets(rest)
  {
    var p := if profile then [ProfilerStart] else [];
    var c := if profile then [ProfilerStop] else [];
    var l := Launches(k, n);
    assert ClockRead !in l;
    var t := Opening(profile) + l + Closing(profile) + rest;
    assert t == p + [ClockRead] + (l + [ClockRead] + (c + rest));
    SplitAt(p, ClockRead, l + [ClockRead] + (c + rest));
    SplitAt(l, ClockRead, c + rest);
    BracketsSkip(c, rest);
  }

  // ---------------------------------------------------------------------
  // Properties of the protocol.

  /** One run launches its selected kernel exactly `numIters` times and
      nothing else; an unknown version launches nothing. */
  lemma {:induction false} RunLaunches(version: string, customPagedAttn: bool, numIters: nat, profile: bool)
    requires numIters > 0
    ensures var t := BenchmarkTrace(version, customPagedAttn, numIters, profile);
      && LaunchCount(t) == (if SelectKernel(version, customPagedAttn).Some? then numIters else 0)
      && forall i :: 0 <= i < |t| && t[i].Launch? ==> SelectKernel(version, customPagedAttn) == Some(t[i].kernel)
  {
    var o, c := Opening(profile), Closing(profile);
    LaunchFree(o);
    LaunchFree(c);
    match SelectKernel(version, customPagedAttn)
    case None =>
    case Some(k) =>
      LaunchCountAppend(o + Launches(k, numIters), c);
      LaunchCountAppend(o, Launches(k, numIters));
      LaunchCountLaunches(k, numIters);
  }

  /** The profiler bracket: present exactly when profiling, first and last
      when the run completes; a raising run never stops the profiler. */
  lemma RunProfilerBracket(version: string, customPagedAttn: bool, numIters: nat, profile: bool)
    requires numIters > 0
    ensures var t := BenchmarkTrace(version, customPagedAttn, numIters, profile);
      && (ProfilerStart in t <==> profile)
      && (ProfilerStop in t <==> profile && SelectKernel(version, customPagedAttn).Some?)
      && (profile ==> t[0] == ProfilerStart)
      && (profile && SelectKernel(version, customPagedAttn).Some? ==> t[|t| - 1] == ProfilerStop)
  {
    match SelectKernel(version, customPagedAttn)
    case None =>
    case Some(k) =>
      assert ProfilerStart !in Launches(k, numIters) && ProfilerStop !in Launches(k, numIters);
  }

  /** The driver launches three warmup kernels and then one (profiling) or ten,
      4 or 13 in all; an unknown version raises on the first warmup iteration
      after only the warmup's start-time reading. */
  lemma DriverLaunchTotal(version: string, customPagedAttn: bool, doProfile: bool)
    ensures var t := DriverTrace(version, customPagedAttn, doProfile);
      && (SelectKernel(version, customPagedAttn).Some? ==>
            LaunchCount(t) == (if doProfile then 4 else 13))
      && (SelectKernel(version, customPagedAttn).None? ==> t == [ClockRead])
  {
    if SelectKernel(version, customPagedAttn).Some? {
      var m := if doProfile then 1 else 10;
      RunLaunches(version, customPagedAttn, WARMUP_ITERS, false);
      RunLaunches(version, customPagedAttn, m, doProfile);
      LaunchCountAppend(BenchmarkTrace(version, customPagedAttn, WARMUP_ITERS, false),
                        BenchmarkTrace(version, customPagedAttn, m, doProfile));
    }
  }

  /** The launches issued between the clock readings: the driver's trace
      holds two timed brackets, the warmup's three launches and then the
      measured run's launches, and the reported latency divides the last
      bracket's time by its own launch count. The clock is read without
      waiting for the device, so a bracket orders launch issues, not kernel
      executions. A run that raises completes no bracket. */
  lemma DriverTimedBrackets(version: string, customPagedAttn: bool, doProfile: bool)
    ensures var b := Brackets(DriverTrace(version, customPagedAttn, doProfile));
      && (SelectKernel(version, customPagedAttn).Some? ==>
            && |b| == 2
            && LaunchCount(b[0]) == WARMUP_ITERS
            && LaunchCount(b[1]) == MeasuredIters(doProfile))
      && (SelectKernel(version, customPagedAttn).None? ==> b == [])
  {
    match SelectKernel(version, customPagedAttn)
    case None =>
      assert DriverTrace(version, customPagedAttn, doProfile) == [ClockRead];
      assert Following([ClockRead], ClockRead) == [];
    case Some(k) =>
      var m := MeasuredIters(doProfile);
      var measured := Opening(doProfile) + Launches(k, m) + Closing(doProfile);
      BracketsOfRun(k, m, doProfile, []);
      assert measured + [] == measured;
      BracketsOfRun(k, WARMUP_ITERS, false, measured);
      LaunchCountLaunches(k, WARMUP_ITERS);
      LaunchCountLaunches(k, m);
  }

  /** Under profiling, the profiler starts after all three warmup launches and
      stops after exactly the one measured launch. */
  lemma DriverProfiledSegment(version: string, customPagedAttn: bool, doProfile: bool)
    ensures var t := DriverTrace(version, customPagedAttn, doProfile);
      && (ProfilerStart in t <==> doProfile && SelectKernel(version, customPagedAttn).Some?)
      && (doProfile && SelectKernel(version, customPagedAttn).Some? ==>
            && LaunchCount(Preceding(t, ProfilerStart)) == WARMUP_ITERS
            && LaunchCount(Preceding(Following(t, ProfilerStart), ProfilerStop)) == 1)
  {
    match SelectKernel(version, customPagedAttn)
    case None =>
      assert DriverTrace(version, customPagedAttn, doProfile) == [ClockRead];
    case Some(k) =>
      var warmup := BenchmarkTrace(version, customPagedAttn, WARMUP_ITERS, false);
      RunProfilerBracket(version, customPagedAttn, WARMUP_ITERS, false);
      RunProfilerBracket(version, customPagedAttn, MeasuredIters(doProfile), doProfile);
      if doProfile {
        var l := Launches(k, 1);
        assert ProfilerStart !in l && ProfilerStop !in l;
        var after := [ClockRead] + l + [ClockRead];
        var t := DriverTrace(version, customPagedAttn, doProfile);
        assert t == warmup + [ProfilerStart] + (after + [ProfilerStop] + []);
        SplitAt(warmup, ProfilerStart, after + [ProfilerStop] + []);
        SplitAt(after, ProfilerStop, []);
        RunLaunches(version, customPagedAttn, WARMUP_ITERS, false);
        LaunchCountAppend([ClockRead] + l, [ClockRead]);
        LaunchCountAppend([ClockRead], l);
        LaunchCountLaunches(k, 1);
      }
  }
}
