/** The Run function of cmd/k8s-netperf/k8s-netperf.go from the first workload to the exit code. */
module Verdict {
  import opened Config
  import opened Results
  import opened Sut
  import opened Zones
  import opened Sampling
  import opened Runner
  import opened Endpoints

  /** A call whose record gets a Diff. */
  predicate Decides(r: Run) {
    r.hostNet && r.nc.parallelism == 1 && r.nc.profile == "TCP_STREAM" && Supported(r.driver, r.nc.profile)
  }

  /** In the records of a finished run, exactly those of the deciding calls get a Diff, and each of them also takes
      part in the comparison as a host result. */
  lemma DecidingRecords(c: Settings, t: State, az: bool, script: seq<Attempt>)
    requires RunAll(CallsOf(c, t, az), Planned(c), script).fault.None?
    ensures var ds, done := RunAll(CallsOf(c, t, az), Planned(c), script).results, Runnable(Planned(c));
            && |ds| == |done|
            && forall i :: 0 <= i < |ds| ==>
                && (Judged(ds[i]) <==> Decides(done[i]))
                && (Judged(ds[i]) ==> Compared(ds[i], true, ds[i].config.messageSize, 1))
                && ds[i].config.messageSize == done[i].nc.messageSize
                && done[i] in Planned(c)
  {
    RecordsMatchPlan(c, t, az, script);
    PlanExact(c);
    var ds, done := RunAll(CallsOf(c, t, az), Planned(c), script).results, Runnable(Planned(c));
    forall i | 0 <= i < |ds|
      ensures (Judged(ds[i]) <==> Decides(done[i])) && ds[i].config.messageSize == done[i].nc.messageSize
      ensures Judged(ds[i]) ==> Compared(ds[i], true, ds[i].config.messageSize, 1)
    {
      RunnableSupported(Planned(c), i);
      RecordDecides(c, t, az, done[i], ds[i]);
    }
  }

  lemma RecordDecides(c: Settings, t: State, az: bool, r: Run, d: Data)
    requires Permitted(c, r) && Describes(c, t, az, r, d) && Supported(r.driver, r.nc.profile)
    ensures (Judged(d) <==> Decides(r)) && d.config.messageSize == r.nc.messageSize
    ensures Judged(d) ==> Compared(d, true, d.config.messageSize, 1)
  {
    assert Measured(d, []).config == d.config && Measured(d, []).hostNetwork == d.hostNetwork;
    assert Measured(d, []).service == d.service && Measured(d, []).virt == d.virt;
  }

  // ---- The verdict from the plan and the answers ----

  /** The samples of the supported calls of a finished run, and the answers left. */
  datatype Gathered = Gathered(samples: seq<seq<Sample>>, rest: seq<Attempt>)

  function Gather(runs: seq<Run>, script: seq<Attempt>): (g: Gathered)
    ensures |g.samples| == |Runnable(runs)|
  {
    if runs == [] then Gathered([], script)
    else
      var before, r := Gather(runs[..|runs| - 1], script), runs[|runs| - 1];
      if !Supported(r.driver, r.nc.profile) then before
      else match Collect(before.rest, Positive(r.nc.samples))
        case Collected(samples, rest) => Gathered(before.samples + [samples], rest)
        case _ => Gathered(before.samples + [[]], before.rest)
  }

  function Throughputs(samples: seq<Sample>): seq<Float> {
    seq(|samples|, i requires 0 <= i < |samples| => samples[i].throughput)
  }

  /** A call the comparison averages over. */
  predicate Counts(r: Run, host: bool, size: int) {
    && r.nc.profile == "TCP_STREAM" && !r.nc.service && !r.virt
    && r.hostNet == host && r.nc.messageSize == size && r.nc.parallelism == 1
  }

  /** The mean throughput of the last counting call whose mean is positive; zero when there is none. */
  function MeanOfCalls(runs: seq<Run>, samples: seq<seq<Sample>>, host: bool, size: int): Float
    requires |runs| == |samples|
  {
    if runs == [] then ZERO
    else
      var n := |runs| - 1;
      var mean := Average(Throughputs(samples[n]));
      if Counts(runs[n], host, size) && Less(ZERO, mean) then mean
      else MeanOfCalls(runs[..n], samples[..n], host, size)
  }

  /** The host mean h and the pod mean p of a message size: p is too far below h. */
  predicate TooFar(runs: seq<Run>, samples: seq<seq<Sample>>, size: int, tcpt: real)
    requires |runs| == |samples|
  {
    var h, p := MeanOfCalls(runs, samples, true, size), MeanOfCalls(runs, samples, false, size);
    h.Num? && p.Num? && p.r * (200.0 + tcpt) < h.r * (200.0 - tcpt)
  }

  /** Some deciding call of the plan decides against the run, judged by the samples of the planned calls alone. */
  predicate Convicted(c: Settings, script: seq<Attempt>, tcpt: real) {
    exists r :: r in Planned(c) && Decides(r)
                && TooFar(Runnable(Planned(c)), Gather(Planned(c), script).samples, r.nc.messageSize, tcpt)
  }

  /** A record holds the samples of its call. */
  predicate Holds(r: Run, samples: seq<Sample>, d: Data) {
    && Carries(d, samples)
    && d.service == r.nc.service && d.virt == r.virt && d.hostNetwork == r.hostNet
    && d.config.profile == r.nc.profile && d.config.messageSize == r.nc.messageSize
    && d.config.parallelism == r.nc.parallelism
  }

  /** A record for collected samples, log.Fatal for an aborted collection, waiting for a pending one. */
  predicate EndsLike(e: Exec, n: Collected) {
    && (e.Recorded? <==> n.Collected?)
    && (e == Stopped(LogFatal) <==> n == Aborted) && (e == Stopped(Waits) <==> n == Pending)
  }

  lemma SamplesGathered(nc: Config, client: PodList, blank: Data, script: seq<Attempt>)
    ensures var e, n := Samples(nc, client, blank, script), Collect(script, Positive(nc.samples));
            && !e.Skipped?
            && (e.Recorded? ==> n.Collected? && e.rest == n.rest && Carries(e.data, n.samples)
                                && e.data == Measured(blank, n.samples))
            && (client.items != [] || nc.samples <= 0 ==> EndsLike(e, n))
  {
    if Collect(script, Positive(nc.samples)).Collected? {
      MeasuredCarries(blank, Collect(script, Positive(nc.samples)).samples);
    }
  }

  lemma CallGathered(c: Settings, t: State, az: bool, r: Run, script: seq<Attempt>)
    ensures var e := ExecuteRun(c, t, az, r, script);
            && (e.Skipped? ==> !Supported(r.driver, r.nc.profile))
            && (e.Recorded? ==>
                  && Supported(r.driver, r.nc.profile)
                  && Collect(script, Positive(r.nc.samples)).Collected?
                  && e.rest == Collect(script, Positive(r.nc.samples)).rest
                  && Holds(r, Collect(script, Positive(r.nc.samples)).samples, e.data))
  {
    var nc := Stamp(r.nc, az);
    SamplesGathered(nc, ClientList(c, t, r.hostNet, r.virt), Label(c, t, nc, r.driver, r.hostNet, r.virt), script);
  }

  /** A call with both ends is skipped for an unsupported test and else ends as its samples do. */
  lemma CallEnds(c: Settings, t: State, az: bool, r: Run, script: seq<Attempt>)
    requires Available(c, t, r)
    ensures var e := ExecuteRun(c, t, az, r, script);
            && (!Supported(r.driver, r.nc.profile) ==> e.Skipped?)
            && (Supported(r.driver, r.nc.profile) ==> EndsLike(e, Collect(script, Positive(r.nc.samples))))
  {
    var nc := Stamp(r.nc, az);
    StampKeepsAddress(c, t, az, r);
    SamplesGathered(nc, ClientList(c, t, r.hostNet, r.virt), Label(c, t, nc, r.driver, r.hostNet, r.virt), script);
  }

  lemma {:induction false} RunsGathered(c: Settings, t: State, az: bool, runs: seq<Run>, script: seq<Attempt>)
    requires RunAll(CallsOf(c, t, az), runs, script).fault.None?
    ensures var o, g, done := RunAll(CallsOf(c, t, az), runs, script), Gather(runs, script), Runnable(runs);
            && o.rest == g.rest && |o.results| == |done|
            && forall i :: 0 <= i < |done| ==> Holds(done[i], g.samples[i], o.results[i])
  {
    if runs != [] {
      var before := runs[..|runs| - 1];
      RunsGathered(c, t, az, before, script);
      CallGathered(c, t, az, runs[|runs| - 1], RunAll(CallsOf(c, t, az), before, script).rest);
    }
  }

  // ---- Which answers make a finished run ----

  function Concat(parts: seq<seq<Attempt>>): seq<Attempt> {
    if parts == [] then [] else Concat(parts[..|parts| - 1]) + parts[|parts| - 1]
  }

  /** The answers of one call: for each of its samples, tolerated failures and the parse the sample comes from. */
  ghost predicate Yields(part: seq<Attempt>, r: Run, samples: seq<Sample>) {
    && |samples| == Positive(r.nc.samples)
    && exists blocks :: Explains(blocks, samples) && part == Consumed(blocks, samples)
  }

  /** One part of the answers for each call, in order. */
  ghost predicate Divides(parts: seq<seq<Attempt>>, done: seq<Run>, samples: seq<seq<Sample>>) {
    |parts| == |done| == |samples| && forall i :: 0 <= i < |done| ==> Yields(parts[i], done[i], samples[i])
  }

  lemma PartCollected(part: seq<Attempt>, r: Run, samples: seq<Sample>, rest: seq<Attempt>)
    requires Yields(part, r, samples)
    ensures Collect(part + rest, Positive(r.nc.samples)) == Collected(samples, rest)
  {
    var blocks :| Explains(blocks, samples) && part == Consumed(blocks, samples);
    CollectedBack(part + rest, |samples|, samples, rest, blocks);
  }

  lemma CollectedPart(r: Run, script: seq<Attempt>, samples: seq<Sample>, rest: seq<Attempt>)
    returns (part: seq<Attempt>)
    requires Collect(script, Positive(r.nc.samples)) == Collected(samples, rest)
    ensures Yields(part, r, samples) && script == part + rest
  {
    var blocks := CollectedForth(script, Positive(r.nc.samples), samples, rest);
    part := Consumed(blocks, samples);
  }

  lemma OneMorePart(parts: seq<seq<Attempt>>, part: seq<Attempt>, done: seq<Run>, r: Run, samples: seq<seq<Sample>>,
                    s: seq<Sample>, rest: seq<Attempt>)
    requires Divides(parts, done, samples) && Yields(part, r, s)
    ensures Divides(parts + [part], done + [r], samples + [s])
    ensures Concat(parts + [part]) + rest == Concat(parts) + (part + rest)
  {
    assert (parts + [part])[..|parts|] == parts;
  }

  /** A finished run divides the answers among its supported calls. */
  lemma {:induction false} FinishedDivides(c: Settings, t: State, az: bool, runs: seq<Run>, script: seq<Attempt>)
    returns (parts: seq<seq<Attempt>>)
    requires RunAll(CallsOf(c, t, az), runs, script).fault.None?
    ensures Divides(parts, Runnable(runs), Gather(runs, script).samples)
    ensures script == Concat(parts) + Gather(runs, script).rest
  {
    if runs == [] {
      parts := [];
    } else {
      var before, r := runs[..|runs| - 1], runs[|runs| - 1];
      parts := FinishedDivides(c, t, az, before, script);
      RunsGathered(c, t, az, before, script);
      CallGathered(c, t, az, r, RunAll(CallsOf(c, t, az), before, script).rest);
      if Supported(r.driver, r.nc.profile) {
        var g := Gather(before, script);
        var n := Collect(g.rest, Positive(r.nc.samples));
        var part := CollectedPart(r, g.rest, n.samples, n.rest);
        OneMorePart(parts, part, Runnable(before), r, g.samples, n.samples, n.rest);
        parts := parts + [part];
      }
    }
  }

  lemma LastPart(parts: seq<seq<Attempt>>, done: seq<Run>, r: Run, samples: seq<seq<Sample>>, rest: seq<Attempt>)
    requires Divides(parts, done + [r], samples)
    ensures var n := |done|;
            && Divides(parts[..n], done, samples[..n]) && Yields(parts[n], r, samples[n])
            && Concat(parts) + rest == Concat(parts[..n]) + (parts[n] + rest)
  {
    var n := |done|;
    assert (done + [r])[n] == r;
    forall i | 0 <= i < n ensures Yields(parts[..n][i], done[i], samples[..n][i]) {
      assert (done + [r])[i] == done[i];
    }
  }

  lemma LastCallFinishes(exec: Calls, runs: seq<Run>, script: seq<Attempt>)
    requires runs != []
    requires var before := RunAll(exec, runs[..|runs| - 1], script);
             before.fault.None? && !exec(runs[|runs| - 1], before.rest).Stopped?
    ensures RunAll(exec, runs, script).fault.None?
  {
  }

  /** The last call takes its samples from what the calls before it left. */
  lemma LastGathered(runs: seq<Run>, script: seq<Attempt>, before: Gathered, parts: seq<seq<Attempt>>,
                     samples: seq<seq<Sample>>, rest: seq<Attempt>)
    requires runs != [] && Supported(runs[|runs| - 1].driver, runs[|runs| - 1].nc.profile)
    requires |parts| == |samples| > 0 && Yields(parts[|parts| - 1], runs[|runs| - 1], samples[|samples| - 1])
    requires Gather(runs[..|runs| - 1], script) == before
    requires before == Gathered(samples[..|samples| - 1], parts[|parts| - 1] + rest)
    ensures Gather(runs, script) == Gathered(samples, rest)
    ensures Collect(before.rest, Positive(runs[|runs| - 1].nc.samples)).Collected?
  {
    var n := |samples| - 1;
    PartCollected(parts[n], runs[|runs| - 1], samples[n], rest);
    assert samples == samples[..n] + [samples[n]];
  }

  lemma {:induction false} DividedFinishes(c: Settings, t: State, az: bool, runs: seq<Run>, script: seq<Attempt>,
                                           parts: seq<seq<Attempt>>, samples: seq<seq<Sample>>, rest: seq<Attempt>)
    requires forall r :: r in runs ==> Available(c, t, r)
    requires Divides(parts, Runnable(runs), samples) && script == Concat(parts) + rest
    ensures RunAll(CallsOf(c, t, az), runs, script).fault.None?
    ensures Gather(runs, script) == Gathered(samples, rest)
  {
    if runs != [] {
      var before, r := runs[..|runs| - 1], runs[|runs| - 1];
      if Supported(r.driver, r.nc.profile) {
        var n := |Runnable(before)|;
        LastPart(parts, Runnable(before), r, samples, rest);
        DividedFinishes(c, t, az, before, script, parts[..n], samples[..n], parts[n] + rest);
        LastGathered(runs, script, Gather(before, script), parts, samples, rest);
      } else {
        DividedFinishes(c, t, az, before, script, parts, samples, rest);
      }
      RunsGathered(c, t, az, before, script);
      CallEnds(c, t, az, r, RunAll(CallsOf(c, t, az), before, script).rest);
      LastCallFinishes(CallsOf(c, t, az), runs, script);
    }
  }

  /** Calls with both endpoints finish exactly when the answers divide into one part per supported call, and then the
      records hold, in order, the samples of the parts. */
  lemma FinishesExactly(c: Settings, t: State, az: bool, runs: seq<Run>, script: seq<Attempt>,
                        samples: seq<seq<Sample>>, rest: seq<Attempt>)
    requires forall r :: r in runs ==> Available(c, t, r)
    ensures RunAll(CallsOf(c, t, az), runs, script).fault.None? && Gather(runs, script) == Gathered(samples, rest)
       <==> exists parts :: Divides(parts, Runnable(runs), samples) && script == Concat(parts) + rest
  {
    if RunAll(CallsOf(c, t, az), runs, script).fault.None? && Gather(runs, script) == Gathered(samples, rest) {
      var parts := FinishedDivides(c, t, az, runs, script);
    }
    forall parts | Divides(parts, Runnable(runs), samples) && script == Concat(parts) + rest
      ensures RunAll(CallsOf(c, t, az), runs, script).fault.None? && Gather(runs, script) == Gathered(samples, rest)
    {
      DividedFinishes(c, t, az, runs, script, parts, samples, rest);
    }
  }

  lemma ThroughputsHeld(samples: seq<Sample>, d: Data)
    requires Carries(d, samples)
    ensures d.throughput == Throughputs(samples)
  {
  }

  lemma {:induction false} MeansFromCalls(runs: seq<Run>, samples: seq<seq<Sample>>, ds: seq<Data>, host: bool,
                                          size: int)
    requires |runs| == |samples| == |ds| && forall i :: 0 <= i < |runs| ==> Holds(runs[i], samples[i], ds[i])
    ensures LastPositive(ds, host, size, 1) == MeanOfCalls(runs, samples, host, size)
  {
    if runs != [] {
      var n := |runs| - 1;
      MeansFromCalls(runs[..n], samples[..n], ds[..n], host, size);
      assert Holds(runs[n], samples[n], ds[n]);
      ThroughputsHeld(samples[n], ds[n]);
    }
  }

  /** Records that hold the samples of the calls done, and the verdict on them. */
  lemma VerdictOfCalls(done: seq<Run>, samples: seq<seq<Sample>>, ds: seq<Data>, hostNetOnly: bool, tcpt: real)
    requires |done| == |samples| == |ds| && forall i :: 0 <= i < |done| ==> Holds(done[i], samples[i], ds[i])
    requires forall i :: 0 <= i < |done| ==> (Judged(ds[i]) <==> Decides(done[i]))
    ensures Fails(ds, hostNetOnly, tcpt)
       <==> !hostNetOnly && exists r :: r in done && Decides(r) && TooFar(done, samples, r.nc.messageSize, tcpt)
  {
    forall size ensures Exceeds(ds, size, tcpt) <==> TooFar(done, samples, size, tcpt) {
      MeansFromCalls(done, samples, ds, true, size);
      MeansFromCalls(done, samples, ds, false, size);
    }
    if r :| r in done && Decides(r) && TooFar(done, samples, r.nc.messageSize, tcpt) {
      var i :| 0 <= i < |done| && done[i] == r;
      assert Judged(ds[i]) && Exceeds(ds, ds[i].config.messageSize, tcpt);
    }
    if i :| 0 <= i < |ds| && Judged(ds[i]) && Exceeds(ds, ds[i].config.messageSize, tcpt) {
      assert done[i] in done && Decides(done[i]) && TooFar(done, samples, done[i].nc.messageSize, tcpt);
    }
  }

  lemma ConvictedByDone(c: Settings, script: seq<Attempt>, tcpt: real)
    ensures Convicted(c, script, tcpt)
       <==> exists r :: r in Runnable(Planned(c)) && Decides(r)
              && TooFar(Runnable(Planned(c)), Gather(Planned(c), script).samples, r.nc.messageSize, tcpt)
  {
    forall r | Decides(r) ensures r in Planned(c) <==> r in Runnable(Planned(c)) {
      RunnableExactly(Planned(c), r);
    }
  }

  /** The verdict of a finished run depends on the plan and the answers of the drivers only, not on the cluster. */
  lemma VerdictOfRun(c: Settings, t: State, az: bool, script: seq<Attempt>, tcpt: real)
    requires RunAll(CallsOf(c, t, az), Planned(c), script).fault.None?
    ensures var ds := RunAll(CallsOf(c, t, az), Planned(c), script).results;
            Fails(ds, c.hostNetworkOnly, tcpt) <==> !c.hostNetworkOnly && Convicted(c, script, tcpt)
  {
    DecidingRecords(c, t, az, script);
    RunsGathered(c, t, az, Planned(c), script);
    ConvictedByDone(c, script, tcpt);
    VerdictOfCalls(Runnable(Planned(c)), Gather(Planned(c), script).samples,
                   RunAll(CallsOf(c, t, az), Planned(c), script).results, c.hostNetworkOnly, tcpt);
  }

  /** A positive host mean is found: no Diff of a run compares against a missing host result. */
  lemma {:induction false} HostResultFound(rs: seq<Data>, i: nat, size: int)
    requires i < |rs| && Compared(rs[i], true, size, 1) && Less(ZERO, Average(rs[i].throughput))
    ensures Less(ZERO, LastPositive(rs, true, size, 1))
  {
    if i < |rs| - 1 {
      HostResultFound(rs[..|rs| - 1], i, size);
    }
  }

  /** The Diffs of one message size all show the same result. */
  lemma {:induction false} DiffsBySize(all: seq<Data>, rs: seq<Data>)
    ensures forall d :: d in Diffs(all, rs) ==> d == DiffOf(all, d.messageSize)
  {
    if rs != [] {
      DiffsBySize(all, rs[..|rs| - 1]);
    }
  }

  /** How the process ends: with an exit code, or not at all while an answer is missing. A Go panic exits with 2 and
      log.Fatal with 1. */
  function ExitOf(fault: Option<Fault>, retCode: int): Option<int> {
    match fault
    case None => Some(retCode)
    case Some(Panic) => Some(2)
    case Some(LogFatal) => Some(1)
    case Some(Waits) => None
  }

  /** Outside the hostNet only mode, the pod mean of some planned single stream host call is too far below the host mean
      of its message size. */
  predicate Guilty(c: Settings, script: seq<Attempt>, tcpt: real) {
    !c.hostNetworkOnly && Convicted(c, script, tcpt)
  }

  /** The exit code is 1 exactly after a log.Fatal or for a guilty finished run, and 2 exactly after a panic. */
  predicate EndsAs(exit: Option<int>, fault: Option<Fault>, guilty: bool) {
    && (exit == Some(1) <==> fault == Some(LogFatal) || (fault == None && guilty))
    && (exit == Some(2) <==> fault == Some(Panic))
    && (exit == None <==> fault == Some(Waits))
    && (exit.Some? ==> exit.value in {0, 1, 2})
  }

  lemma EndsRight(fault: Option<Fault>, retCode: int, guilty: bool)
    requires fault.None? ==> retCode == if guilty then 1 else 0
    ensures EndsAs(ExitOf(fault, retCode), fault, guilty)
  {
  }

  /** From the first workload to the end of the process. */
  method RunToExit(s: Session, nodes: seq<Node>, tcpt: real) returns (exit: Option<int>)
    requires s.next == 0 && s.results == []
    modifies s`next, s`results
    ensures var o := RunAll(CallsOf(s.conf, s.state, RunAcross(s.conf, nodes)), Planned(s.conf), s.script);
            s.results == o.results && EndsAs(exit, o.fault, Guilty(s.conf, s.script, tcpt))
  {
    var fault := s.RunTests(nodes);
    var retCode := 0;
    if fault.None? {
      retCode := ExitCode(s.results, s.conf.hostNetworkOnly, tcpt);
      VerdictOfRun(s.conf, s.state, RunAcross(s.conf, nodes), s.script, tcpt);
    }
    EndsRight(fault, retCode, Guilty(s.conf, s.script, tcpt));
    exit := ExitOf(fault, retCode);
  }
}
