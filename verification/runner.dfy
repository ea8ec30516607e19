/** cmd/k8s-netperf/k8s-netperf.go: executeWorkload and the pod and VM run loops. */
module Runner {
  import opened Config
  import opened Text
  import opened Results
  import opened Servers
  import opened Sut
  import opened Zones
  import opened Sampling

  /** One call of executeWorkload: configuration and driver with their positions, and the mode. */
  datatype Run = Run(cfg: nat, nc: Config, drv: nat, driver: Driver, hostNet: bool, virt: bool)

  /** The metric and zone label Run stores into the configuration. */
  function Stamp(nc: Config, acrossAZ: bool): Config {
    nc.(metric := if Contains(nc.profile, "STREAM") then "Mb/s" else "OP/s", acrossAZ := acrossAZ)
  }

  /** The zone label of a whole run, from the second call of GetZone. */
  function RunAcross(c: Settings, nodes: seq<Node>): bool {
    var g := ZoneOf(nodes);
    if c.nodeLocal || !g.labelled || g.zones == map[] then false
    else (if g.zone in g.zones then g.zones[g.zone] else 0) <= 1
  }

  function Supported(driver: Driver, profile: string): bool {
    match driver
    case Netperf => profile != "TCP_STREAM_LAT"
    case Uperf => !Contains(profile, "TCP_CRR")
    case Iperf3 => profile != "TCP_STREAM_LAT" && Contains(profile, "STREAM")
    case IbWriteBw => ToUpper(profile) == "UDP_STREAM"
  }

  // ---- Endpoints ----

  /** Where serverIP comes from. */
  datatype Address =
    | ExternalIP
    | ClusterIP(service: ServiceName)
    | PodIP(pod: Pod)
    | SecondaryIP(pod: Pod)
    | BridgeFileIP

  function ServiceFor(driver: Driver, virt: bool): ServiceName {
    match driver
    case Iperf3 => if virt then IperfVmService else IperfService
    case Uperf => if virt then UperfVmService else UperfService
    case _ => if virt then NetperfVmService else NetperfService
  }

  function First(pods: PodList): Option<Pod> {
    if pods.items == [] then None else Some(pods.items[0])
  }

  function Secondary(pods: PodList): Option<Address> {
    match First(pods) case Some(p) => Some(SecondaryIP(p)) case None => None
  }

  function Primary(pods: PodList): Option<Address> {
    match First(pods) case Some(p) => Some(PodIP(p)) case None => None
  }

  /** The choice of serverIP; None is an index into an empty pod list or a nil service. */
  function ServerAddress(c: Settings, t: State, nc: Config, driver: Driver, hostNet: bool, virt: bool): Option<Address>
  {
    if c.externalServer then Some(ExternalIP)
    else if nc.service then
      var s := ServiceFor(driver, virt);
      if s in t.services then Some(ClusterIP(s)) else None
    else if c.udn || c.cudn then Secondary(t.server)
    else if c.sriov then Secondary(if virt then t.vmServer else t.server)
    else if c.bridge then if virt then Some(BridgeFileIP) else Secondary(t.server)
    else if c.macvlan then Secondary(t.server)
    else if virt then Primary(t.vmServer)
    else if hostNet && !c.nodeLocal then Primary(t.serverHost)
    else Primary(t.server)
  }

  /** The client pod list handed to the driver. */
  function ClientList(c: Settings, t: State, hostNet: bool, virt: bool): PodList {
    if hostNet && !c.nodeLocal then t.clientHost
    else if !c.nodeLocal && !c.externalServer then (if virt then t.vmClientAcross else t.clientAcross)
    else t.client
  }

  // ---- One workload ----

  /** Why the process stops: an index out of range or nil pointer, log.Fatal, or an answer that never came. */
  datatype Fault = Panic | LogFatal | Waits

  datatype Exec = Recorded(data: Data, rest: seq<Attempt>) | Skipped | Stopped(fault: Fault)

  /** The record without its measurements. */
  function Label(c: Settings, t: State, nc: Config, driver: Driver, hostNet: bool, virt: bool): Data {
    Data(nc, driver, nc.metric, c.nodeLocal, hostNet, nc.service,
         if c.nodeLocal then false else c.acrossAZ || nc.acrossAZ,
         virt, c.externalServer, t.clientInfo, t.serverInfo, [], [], [], [], [], [])
  }

  function Measured(d: Data, samples: seq<Sample>): Data {
    d.(loss := seq(|samples|, i requires 0 <= i < |samples| => samples[i].lossPercent),
       retransmit := seq(|samples|, i requires 0 <= i < |samples| => samples[i].retransmits),
       throughput := seq(|samples|, i requires 0 <= i < |samples| => samples[i].throughput),
       latencyAvg := seq(|samples|, i requires 0 <= i < |samples| => samples[i].latency),
       latency50 := seq(|samples|, i requires 0 <= i < |samples| => samples[i].latency50),
       latency99 := seq(|samples|, i requires 0 <= i < |samples| => samples[i].latency99))
  }

  /** The six appends of the sample loop. */
  function AppendSample(d: Data, s: Sample): Data {
    d.(loss := d.loss + [s.lossPercent], retransmit := d.retransmit + [s.retransmits],
       throughput := d.throughput + [s.throughput], latencyAvg := d.latencyAvg + [s.latency],
       latency50 := d.latency50 + [s.latency50], latency99 := d.latency99 + [s.latency99])
  }

  /** Entry k of every list of the record is a value of sample k, and there are no other entries. */
  predicate Carries(d: Data, samples: seq<Sample>) {
    && |d.loss| == |d.retransmit| == |d.throughput| == |samples|
    && |d.latencyAvg| == |d.latency50| == |d.latency99| == |samples|
    && forall k :: 0 <= k < |samples| ==>
         && d.loss[k] == samples[k].lossPercent && d.retransmit[k] == samples[k].retransmits
         && d.throughput[k] == samples[k].throughput && d.latencyAvg[k] == samples[k].latency
         && d.latency50[k] == samples[k].latency50 && d.latency99[k] == samples[k].latency99
  }

  lemma MeasuredCarries(d: Data, samples: seq<Sample>)
    ensures Carries(Measured(d, samples), samples)
  {
  }

  lemma LabelIsBlank(c: Settings, t: State, nc: Config, driver: Driver, hostNet: bool, virt: bool)
    ensures var d := Label(c, t, nc, driver, hostNet, virt); Measured(d, []) == d
  {
    var d := Label(c, t, nc, driver, hostNet, virt);
    assert Measured(d, []).loss == d.loss && Measured(d, []).retransmit == d.retransmit;
    assert Measured(d, []).throughput == d.throughput && Measured(d, []).latencyAvg == d.latencyAvg;
    assert Measured(d, []).latency50 == d.latency50 && Measured(d, []).latency99 == d.latency99;
  }

  /** Only the measurements of a record depend on the samples, one of each kind per sample. */
  lemma MeasuredKeeps(d: Data, samples: seq<Sample>)
    ensures var m, n := Measured(d, samples), |samples|;
            && Measured(m, []) == Measured(d, []) && |m.throughput| == |m.latencyAvg| == |m.latency50| == n
            && |m.latency99| == |m.loss| == |m.retransmit| == n
  {
  }

  lemma MeasuredStep(d: Data, samples: seq<Sample>, s: Sample)
    ensures Measured(d, samples + [s]) == AppendSample(Measured(d, samples), s)
  {
    var a, b := Measured(d, samples + [s]), AppendSample(Measured(d, samples), s);
    assert a.loss == b.loss && a.retransmit == b.retransmit && a.throughput == b.throughput;
    assert a.latencyAvg == b.latencyAvg && a.latency50 == b.latency50 && a.latency99 == b.latency99;
  }

  function Positive(n: int): nat {
    if n < 0 then 0 else n
  }

  /** The sample loop. */
  function Samples(nc: Config, client: PodList, blank: Data, script: seq<Attempt>): Exec {
    if nc.samples > 0 && client.items == [] then Stopped(Panic)
    else match Collect(script, Positive(nc.samples))
      case Collected(samples, rest) => Recorded(Measured(blank, samples), rest)
      case Aborted => Stopped(LogFatal)
      case Pending => Stopped(Waits)
  }

  function Execute(c: Settings, t: State, nc: Config, driver: Driver, hostNet: bool, virt: bool,
                   script: seq<Attempt>): Exec
  {
    if ServerAddress(c, t, nc, driver, hostNet, virt).None? then Stopped(Panic)
    else if !Supported(driver, nc.profile) then Skipped
    else Samples(nc, ClientList(c, t, hostNet, virt), Label(c, t, nc, driver, hostNet, virt), script)
  }

  // ---- The run loops ----

  /** The calls for one configuration and one driver. */
  function Modes(c: Settings, virt: bool, cfg: nat, drv: nat): seq<Run>
  {
    if cfg >= |c.configs| || drv >= |c.drivers| then []
    else
      var nc, driver := c.configs[cfg], c.drivers[drv];
      (if !virt && c.hostNetwork && !nc.service then [Run(cfg, nc, drv, driver, true, false)] else [])
      + (if !c.hostNetworkOnly then [Run(cfg, nc, drv, driver, false, virt)] else [])
  }

  /** The first n lists, one behind the other. */
  function Flat(f: nat -> seq<Run>, n: nat): seq<Run> {
    if n == 0 then [] else Flat(f, n - 1) + f(n - 1)
  }

  function ModesOf(c: Settings, virt: bool, cfg: nat): nat -> seq<Run> {
    (drv: nat) => Modes(c, virt, cfg, drv)
  }

  /** The calls for one configuration and the first n drivers. */
  function DriverRuns(c: Settings, virt: bool, cfg: nat, n: nat): seq<Run> {
    Flat(ModesOf(c, virt, cfg), n)
  }

  function DriverRunsOf(c: Settings, virt: bool): nat -> seq<Run> {
    (cfg: nat) => DriverRuns(c, virt, cfg, |c.drivers|)
  }

  /** The calls for the first n configurations. */
  function ConfigRuns(c: Settings, virt: bool, n: nat): seq<Run> {
    Flat(DriverRunsOf(c, virt), n)
  }

  /** Every call of executeWorkload, in order. */
  function Planned(c: Settings): seq<Run> {
    (if c.pod then ConfigRuns(c, false, |c.configs|) else [])
    + (if c.vm then ConfigRuns(c, true, |c.configs|) else [])
  }

  datatype Outcome = Outcome(results: seq<Data>, rest: seq<Attempt>, fault: Option<Fault>)

  function ExecuteRun(c: Settings, t: State, az: bool, r: Run, script: seq<Attempt>): Exec {
    Execute(c, t, Stamp(r.nc, az), r.driver, r.hostNet, r.virt, script)
  }

  /** What a call answers, from what is left of the script. */
  type Calls = (Run, seq<Attempt>) -> Exec

  function CallsOf(c: Settings, t: State, az: bool): Calls {
    (r, script) => ExecuteRun(c, t, az, r, script)
  }

  /** The calls one after the other, up to the first that stops the process. */
  function RunAll(exec: Calls, runs: seq<Run>, script: seq<Attempt>): Outcome {
    if runs == [] then Outcome([], script, None)
    else
      var before := RunAll(exec, runs[..|runs| - 1], script);
      if before.fault.Some? then before
      else match exec(runs[|runs| - 1], before.rest)
        case Recorded(data, rest) => Outcome(before.results + [data], rest, None)
        case Skipped => before
        case Stopped(fault) => before.(fault := Some(fault))
  }

  class Session {
    const conf: Settings
    const state: State
    const script: seq<Attempt>
    var next: nat
    var results: seq<Data>

    constructor (conf: Settings, state: State, script: seq<Attempt>)
      ensures this.conf == conf && this.state == state && this.script == script
      ensures next == 0 && results == []
    {
      this.conf, this.state, this.script := conf, state, script;
      next, results := 0, [];
    }

    /** The sample loop: one entry per sample in every list of the record. */
    method SampleLoop(nc: Config, client: PodList, blank: Data) returns (e: Exec)
      requires next <= |script| && blank == Measured(blank, [])
      modifies this`next
      ensures next <= |script|
      ensures e == Samples(nc, client, blank, script[old(next)..])
      ensures e.Recorded? ==> e.rest == script[next..]
      ensures e.Recorded? ==>
                var n := Collect(script[old(next)..], Positive(nc.samples));
                n.Collected? && Carries(e.data, n.samples)
    {
      var npr := blank;
      ghost var start := next;
      ghost var samples: seq<Sample> := [];
      var i := 0;
      while i < nc.samples
        invariant 0 <= i <= Positive(nc.samples) && start <= next <= |script|
        invariant i > 0 ==> client.items != []
        invariant Collect(script[start..], i) == Collected(samples, script[next..])
        invariant npr == Measured(blank, samples)
        decreases nc.samples - i
      {
        if client.items == [] {
          return Stopped(Panic);
        }
        CollectStops(script[start..], i + 1, nc.samples);
        var fetched;
        fetched, next := OneSample(script, next);
        if fetched.Fatal? {
          return Stopped(LogFatal);
        }
        if fetched.Waiting? {
          return Stopped(Waits);
        }
        npr := AppendSample(npr, fetched.sample);
        MeasuredStep(blank, samples, fetched.sample);
        samples := samples + [fetched.sample];
        i := i + 1;
      }
      MeasuredCarries(blank, samples);
      e := Recorded(npr, script[next..]);
    }

    /** The choice of serverIP. */
    method ChooseServer(nc: Config, hostNet: bool, driver: Driver, virt: bool) returns (serverIP: Option<Address>)
      ensures serverIP == ServerAddress(conf, state, nc, driver, hostNet, virt)
    {
      if conf.externalServer {
        serverIP := Some(ExternalIP);
      } else if nc.service {
        var s := ServiceFor(driver, virt);
        serverIP := if s in state.services then Some(ClusterIP(s)) else None;
      } else if conf.udn {
        serverIP := Secondary(state.server);
      } else if conf.cudn {
        serverIP := Secondary(state.server);
      } else if conf.sriov {
        serverIP := Secondary(if virt then state.vmServer else state.server);
      } else if conf.bridge {
        serverIP := if virt then Some(BridgeFileIP) else Secondary(state.server);
      } else if conf.macvlan {
        serverIP := Secondary(state.server);
      } else if virt {
        serverIP := Primary(state.vmServer);
      } else if hostNet && !conf.nodeLocal {
        serverIP := Primary(state.serverHost);
      } else {
        serverIP := Primary(state.server);
      }
    }

    /** The choice of the client pod list. */
    method ChooseClient(hostNet: bool, virt: bool) returns (client: PodList)
      ensures client == ClientList(conf, state, hostNet, virt)
    {
      client := state.client;
      if !conf.nodeLocal && !conf.externalServer {
        client := if virt then state.vmClientAcross else state.clientAcross;
      }
      if hostNet && !conf.nodeLocal {
        client := state.clientHost;
      }
    }

    /** executeWorkload; the answers of the driver are read from the script. */
    method ExecuteWorkload(nc: Config, hostNet: bool, driver: Driver, virt: bool) returns (e: Exec)
      requires next <= |script|
      modifies this`next
      ensures e == Execute(conf, state, nc, driver, hostNet, virt, script[old(next)..])
      ensures next <= |script| && (e.Recorded? ==> e.rest == script[next..]) && (e.Skipped? ==> next == old(next))
    {
      var serverIP := ChooseServer(nc, hostNet, driver, virt);
      if serverIP.None? {
        return Stopped(Panic);
      }
      var client := ChooseClient(hostNet, virt);
      LabelIsBlank(conf, state, nc, driver, hostNet, virt);
      if !Supported(driver, nc.profile) {
        return Skipped;
      }
      e := SampleLoop(nc, client, Label(conf, state, nc, driver, hostNet, virt));
    }

    /** run(runs) is what the given calls leave. */
    ghost predicate Answers(az: bool, run: Trace) {
      Faithful(CallsOf(conf, state, az), script, run)
    }

    /** The results are those of the outcome, which stopped with the given fault or did not stop. */
    ghost predicate Ran(o: Outcome, fault: Option<Fault>)
      reads this
    {
      && next <= |script|
      && o.results == results && o.fault == fault && (fault.None? ==> o.rest == script[next..])
    }

    /** `pr, ok := executeWorkload(...)`, and the append when ok. */
    method Record(az: bool, r: Run, ghost run: Trace, ghost done: seq<Run>) returns (fault: Option<Fault>)
      requires Answers(az, run) && Ran(run(done), None)
      modifies this`next, this`results
      ensures Ran(run(done + [r]), fault)
    {
      OneMore(conf, state, az, run, done, r, script);
      var e := ExecuteWorkload(Stamp(r.nc, az), r.hostNet, r.driver, r.virt);
      match e {
        case Recorded(pr, _) => results := results + [pr];
        case Skipped =>
        case Stopped(f) => return Some(f);
      }
      fault := None;
    }

    /** The calls for one configuration and driver. */
    method RunModes(az: bool, virt: bool, cfg: nat, drv: nat, ghost run: Trace, ghost done: seq<Run>)
      returns (fault: Option<Fault>)
      requires Answers(az, run) && Ran(run(done), None) && cfg < |conf.configs| && drv < |conf.drivers|
      modifies this`next, this`results
      ensures Ran(run(done + Modes(conf, virt, cfg, drv)), fault)
    {
      ghost var all := done + Modes(conf, virt, cfg, drv);
      ghost var ran := done;
      fault := None;
      var nc, driver := conf.configs[cfg], conf.drivers[drv];
      if !virt && conf.hostNetwork && !nc.service {
        fault := Record(az, Run(cfg, nc, drv, driver, true, false), run, ran);
        ran := ran + [Run(cfg, nc, drv, driver, true, false)];
      }
      if fault.Some? {
        NothingMore(CallsOf(conf, state, az), run, ran, all, script);
        return;
      }
      if !conf.hostNetworkOnly {
        fault := Record(az, Run(cfg, nc, drv, driver, false, virt), run, ran);
        ran := ran + [Run(cfg, nc, drv, driver, false, virt)];
      }
      assert ran == all;
    }

    /** The inner loop: the drivers of one configuration. */
    method RunDrivers(az: bool, virt: bool, cfg: nat, ghost run: Trace, ghost done: seq<Run>)
      returns (fault: Option<Fault>)
      requires Answers(az, run) && Ran(run(done), None) && cfg < |conf.configs|
      modifies this`next, this`results
      ensures Ran(run(done + DriverRuns(conf, virt, cfg, |conf.drivers|)), fault)
    {
      NoneYet(ModesOf(conf, virt, cfg), done);
      for drv := 0 to |conf.drivers|
        invariant Ran(run(done + DriverRuns(conf, virt, cfg, drv)), None)
      {
        fault := RunModes(az, virt, cfg, drv, run, done + DriverRuns(conf, virt, cfg, drv));
        DriverStep(conf, virt, cfg, drv, done);
        if fault.Some? {
          FlatGrows(ModesOf(conf, virt, cfg), drv + 1, |conf.drivers|);
          NothingBehind(CallsOf(conf, state, az), run, done, DriverRuns(conf, virt, cfg, drv + 1),
                        DriverRuns(conf, virt, cfg, |conf.drivers|), script);
          return;
        }
      }
      fault := None;
    }

    /** The outer loop: the configurations, for pods or for virtual machines. */
    method RunLoop(az: bool, virt: bool, ghost run: Trace, ghost done: seq<Run>) returns (fault: Option<Fault>)
      requires Answers(az, run) && Ran(run(done), None)
      modifies this`next, this`results
      ensures Ran(run(done + ConfigRuns(conf, virt, |conf.configs|)), fault)
    {
      NoneYet(DriverRunsOf(conf, virt), done);
      for cfg := 0 to |conf.configs|
        invariant Ran(run(done + ConfigRuns(conf, virt, cfg)), None)
      {
        fault := RunDrivers(az, virt, cfg, run, done + ConfigRuns(conf, virt, cfg));
        ConfigStep(conf, virt, cfg, done);
        if fault.Some? {
          FlatGrows(DriverRunsOf(conf, virt), cfg + 1, |conf.configs|);
          NothingBehind(CallsOf(conf, state, az), run, done, ConfigRuns(conf, virt, cfg + 1),
                        ConfigRuns(conf, virt, |conf.configs|), script);
          return;
        }
      }
      fault := None;
    }

    /** The zone label of the run. */
    method AcrossZones(nodes: seq<Node>) returns (acrossAZ: bool)
      ensures acrossAZ == RunAcross(conf, nodes)
    {
      var z := GetZone(nodes);
      if conf.nodeLocal || !z.labelled || |z.zones| == 0 {
        acrossAZ := false;
      } else {
        var nodesInZone := if z.zone in z.zones then z.zones[z.zone] else 0;
        acrossAZ := nodesInZone <= 1;
      }
    }

    /** Pod tests, then VM tests. */
    method RunBoth(az: bool, ghost run: Trace) returns (fault: Option<Fault>)
      requires Answers(az, run) && Ran(run([]), None)
      modifies this`next, this`results
      ensures Ran(run(Planned(conf)), fault)
    {
      ghost var done: seq<Run> := [];
      fault := None;
      if conf.pod {
        fault := RunLoop(az, false, run, done);
        done := done + ConfigRuns(conf, false, |conf.configs|);
      }
      if fault.Some? {
        NothingMore(CallsOf(conf, state, az), run, done, Planned(conf), script);
        return;
      }
      if conf.vm {
        fault := RunLoop(az, true, run, done);
        done := done + ConfigRuns(conf, true, |conf.configs|);
      }
      assert done == Planned(conf);
    }

    /** The measured part of Run. */
    method RunTests(nodes: seq<Node>) returns (fault: Option<Fault>)
      requires next == 0 && results == []
      modifies this`next, this`results
      ensures Ran(RunAll(CallsOf(conf, state, RunAcross(conf, nodes)), Planned(conf), script), fault)
    {
      var acrossAZ := AcrossZones(nodes);
      ghost var exec := CallsOf(conf, state, acrossAZ);
      fault := RunBoth(acrossAZ, runs => RunAll(exec, runs, script));
    }
  }

  /** What a list of calls leaves. */
  type Trace = seq<Run> -> Outcome

  ghost predicate Faithful(exec: Calls, script: seq<Attempt>, run: Trace) {
    forall runs {:trigger RunAll(exec, runs, script)} :: run(runs) == RunAll(exec, runs, script)
  }

  lemma OneMore(c: Settings, t: State, az: bool, run: Trace, done: seq<Run>, r: Run, script: seq<Attempt>)
    requires Faithful(CallsOf(c, t, az), script, run) && run(done).fault.None?
    ensures run(done + [r]) == match ExecuteRun(c, t, az, r, run(done).rest)
                               case Recorded(data, rest) => Outcome(run(done).results + [data], rest, None)
                               case Skipped => run(done)
                               case Stopped(fault) => run(done).(fault := Some(fault))
  {
    var exec := CallsOf(c, t, az);
    assert (done + [r])[..|done|] == done;
    assert RunAll(exec, done, script) == run(done) && RunAll(exec, done + [r], script) == run(done + [r]);
  }

  lemma NothingMore(exec: Calls, run: Trace, a: seq<Run>, b: seq<Run>, script: seq<Attempt>)
    requires Faithful(exec, script, run) && a <= b && run(a).fault.Some?
    ensures run(b) == run(a)
  {
    assert RunAll(exec, a, script) == run(a) && RunAll(exec, b, script) == run(b);
    FaultSticks(exec, a, b, script);
  }

  lemma NothingBehind(exec: Calls, run: Trace, done: seq<Run>, a: seq<Run>, b: seq<Run>, script: seq<Attempt>)
    requires Faithful(exec, script, run) && a <= b && run(done + a).fault.Some?
    ensures run(done + b) == run(done + a)
  {
    NothingMore(exec, run, done + a, done + b, script);
  }

  lemma NoneYet(f: nat -> seq<Run>, done: seq<Run>)
    ensures done + Flat(f, 0) == done
  {
  }

  lemma DriverStep(c: Settings, virt: bool, cfg: nat, drv: nat, done: seq<Run>)
    ensures done + DriverRuns(c, virt, cfg, drv + 1) == done + DriverRuns(c, virt, cfg, drv) + Modes(c, virt, cfg, drv)
  {
    FlatStep(ModesOf(c, virt, cfg), drv, done);
  }

  lemma ConfigStep(c: Settings, virt: bool, cfg: nat, done: seq<Run>)
    ensures done + ConfigRuns(c, virt, cfg + 1)
         == done + ConfigRuns(c, virt, cfg) + DriverRuns(c, virt, cfg, |c.drivers|)
  {
    FlatStep(DriverRunsOf(c, virt), cfg, done);
  }

  lemma FlatStep(f: nat -> seq<Run>, n: nat, done: seq<Run>)
    ensures done + Flat(f, n + 1) == done + Flat(f, n) + f(n)
  {
  }

  lemma {:induction false} FaultSticks(exec: Calls, a: seq<Run>, b: seq<Run>, script: seq<Attempt>)
    requires a <= b && RunAll(exec, a, script).fault.Some?
    ensures RunAll(exec, b, script) == RunAll(exec, a, script)
  {
    if |a| < |b| {
      FaultSticks(exec, a, b[..|b| - 1], script);
    } else {
      assert a == b;
    }
  }

  /** Call i stops the process with this fault, and no call before it does. */
  ghost predicate StopsAt(exec: Calls, runs: seq<Run>, i: nat, script: seq<Attempt>, f: Fault) {
    && i < |runs| && RunAll(exec, runs[..i], script).fault.None?
    && exec(runs[i], RunAll(exec, runs[..i], script).rest) == Stopped(f)
  }

  /** The fault of a run is that of its first call that stops, and the results are those before it. */
  lemma {:induction false} FaultExactly(exec: Calls, runs: seq<Run>, script: seq<Attempt>, f: Fault)
    ensures RunAll(exec, runs, script).fault == Some(f) <==> exists i: nat :: StopsAt(exec, runs, i, script, f)
    ensures forall i: nat :: StopsAt(exec, runs, i, script, f) ==>
              RunAll(exec, runs, script).results == RunAll(exec, runs[..i], script).results
  {
    if runs != [] {
      var n := |runs| - 1;
      FaultExactly(exec, runs[..n], script, f);
      if RunAll(exec, runs, script).fault == Some(f) {
        if RunAll(exec, runs[..n], script).fault.None? {
          assert StopsAt(exec, runs, n, script, f);
        } else {
          var i: nat :| StopsAt(exec, runs[..n], i, script, f);
          assert runs[..n][..i] == runs[..i];
          assert StopsAt(exec, runs, i, script, f);
        }
      }
      forall i: nat | StopsAt(exec, runs, i, script, f)
        ensures RunAll(exec, runs, script).fault == Some(f)
        ensures RunAll(exec, runs, script).results == RunAll(exec, runs[..i], script).results
      {
        if i < n {
          assert runs[..n][..i] == runs[..i];
          assert StopsAt(exec, runs[..n], i, script, f);
        }
      }
    }
  }

  lemma {:induction false} FlatGrows(f: nat -> seq<Run>, m: nat, n: nat)
    requires m <= n
    ensures Flat(f, m) <= Flat(f, n)
  {
    if m < n {
      FlatGrows(f, m, n - 1);
    }
  }

  // ---- What the plan contains ----

  predicate InRange(c: Settings, r: Run) {
    && r.cfg < |c.configs| && r.nc == c.configs[r.cfg]
    && r.drv < |c.drivers| && r.driver == c.drivers[r.drv]
  }

  /** The permitted modes: host network runs only for pods without a service, no pod network run
      with --hostNet, and never a host network run on a virtual machine. */
  predicate Permitted(c: Settings, r: Run) {
    && InRange(c, r)
    && (if r.virt then c.vm else c.pod)
    && (if r.hostNet then !r.virt && c.hostNetwork && !r.nc.service else !c.hostNetworkOnly)
  }

  /** Pods before virtual machines, then by configuration, driver, and host network first. */
  predicate Precedes(a: Run, b: Run) {
    || (!a.virt && b.virt)
    || (a.virt == b.virt && a.cfg < b.cfg)
    || (a.virt == b.virt && a.cfg == b.cfg && a.drv < b.drv)
    || (a.virt == b.virt && a.cfg == b.cfg && a.drv == b.drv && a.hostNet && !b.hostNet)
  }

  predicate Ordered(runs: seq<Run>) {
    forall i, j :: 0 <= i < j < |runs| ==> Precedes(runs[i], runs[j])
  }

  predicate Loops(c: Settings, virt: bool, r: Run) {
    && InRange(c, r) && r.virt == virt
    && (if r.hostNet then !virt && c.hostNetwork && !r.nc.service else !c.hostNetworkOnly)
  }

  lemma ModesExact(c: Settings, virt: bool, cfg: nat, drv: nat, r: Run)
    ensures r in Modes(c, virt, cfg, drv) <==> Loops(c, virt, r) && r.cfg == cfg && r.drv == drv
  {
    assert r == Run(r.cfg, r.nc, r.drv, r.driver, r.hostNet, r.virt);
  }

  lemma ModesOrdered(c: Settings, virt: bool, cfg: nat, drv: nat)
    ensures Ordered(Modes(c, virt, cfg, drv))
  {
  }

  lemma {:induction false} FlatHas(f: nat -> seq<Run>, n: nat, r: Run)
    ensures r in Flat(f, n) <==> exists i :: 0 <= i < n && r in f(i)
  {
    if n > 0 {
      FlatHas(f, n - 1, r);
    }
  }

  /** Every list is ordered, and each comes before the later ones. */
  ghost predicate Staged(f: nat -> seq<Run>, n: nat) {
    && (forall i :: 0 <= i < n ==> Ordered(f(i)))
    && (forall i, j, x, y :: 0 <= i < j < n && x in f(i) && y in f(j) ==> Precedes(x, y))
  }

  /** Concatenating ordered lists that follow each other. */
  lemma OrderedConcat(a: seq<Run>, b: seq<Run>)
    requires Ordered(a) && Ordered(b)
    requires forall x, y :: x in a && y in b ==> Precedes(x, y)
    ensures Ordered(a + b)
  {
    forall i, j | 0 <= i < j < |a + b| ensures Precedes((a + b)[i], (a + b)[j]) {
      if i < |a| <= j {
        assert a[i] in a && b[j - |a|] in b;
      }
    }
  }

  lemma {:induction false} FlatOrdered(f: nat -> seq<Run>, n: nat)
    requires Staged(f, n)
    ensures Ordered(Flat(f, n))
  {
    if n > 0 {
      FlatOrdered(f, n - 1);
      forall x, y | x in Flat(f, n - 1) && y in f(n - 1) ensures Precedes(x, y) {
        FlatHas(f, n - 1, x);
      }
      OrderedConcat(Flat(f, n - 1), f(n - 1));
    }
  }

  lemma DriverRunsHave(c: Settings, virt: bool, cfg: nat, r: Run)
    ensures r in DriverRuns(c, virt, cfg, |c.drivers|) <==> Loops(c, virt, r) && r.cfg == cfg
  {
    var f := ModesOf(c, virt, cfg);
    FlatHas(f, |c.drivers|, r);
    forall i: nat ensures r in f(i) <==> Loops(c, virt, r) && r.cfg == cfg && r.drv == i {
      ModesExact(c, virt, cfg, i, r);
    }
    assert r in f(r.drv) <==> Loops(c, virt, r) && r.cfg == cfg;
  }

  lemma DriverRunsOrdered(c: Settings, virt: bool, cfg: nat)
    ensures Ordered(DriverRuns(c, virt, cfg, |c.drivers|))
  {
    var f := ModesOf(c, virt, cfg);
    forall i: nat ensures Ordered(f(i)) {
      ModesOrdered(c, virt, cfg, i);
    }
    forall i: nat, j: nat, x, y | i < j && x in f(i) && y in f(j) ensures Precedes(x, y) {
      ModesExact(c, virt, cfg, i, x);
      ModesExact(c, virt, cfg, j, y);
    }
    FlatOrdered(f, |c.drivers|);
  }

  lemma ConfigRunsHave(c: Settings, virt: bool, r: Run)
    ensures r in ConfigRuns(c, virt, |c.configs|) <==> Loops(c, virt, r)
  {
    var f := DriverRunsOf(c, virt);
    FlatHas(f, |c.configs|, r);
    forall i: nat ensures r in f(i) <==> Loops(c, virt, r) && r.cfg == i {
      DriverRunsHave(c, virt, i, r);
    }
    assert r in f(r.cfg) <==> Loops(c, virt, r);
  }

  lemma ConfigRunsOrdered(c: Settings, virt: bool)
    ensures Ordered(ConfigRuns(c, virt, |c.configs|))
  {
    var f := DriverRunsOf(c, virt);
    forall i: nat ensures Ordered(f(i)) {
      DriverRunsOrdered(c, virt, i);
    }
    forall i: nat, j: nat, x, y | i < j && x in f(i) && y in f(j) ensures Precedes(x, y) {
      DriverRunsHave(c, virt, i, x);
      DriverRunsHave(c, virt, j, y);
    }
    FlatOrdered(f, |c.configs|);
  }

  lemma PlannedHas(c: Settings, r: Run)
    ensures r in Planned(c) <==> Permitted(c, r)
  {
    ConfigRunsHave(c, false, r);
    ConfigRunsHave(c, true, r);
  }

  /** The calls are exactly the permitted combinations, each once, in lexicographic order. */
  lemma PlanExact(c: Settings)
    ensures forall r :: r in Planned(c) <==> Permitted(c, r)
    ensures Ordered(Planned(c))
  {
    forall r ensures r in Planned(c) <==> Permitted(c, r) {
      PlannedHas(c, r);
    }
    ConfigRunsOrdered(c, false);
    ConfigRunsOrdered(c, true);
    var pods := if c.pod then ConfigRuns(c, false, |c.configs|) else [];
    var vms := if c.vm then ConfigRuns(c, true, |c.configs|) else [];
    forall x, y | x in pods && y in vms ensures Precedes(x, y) {
      ConfigRunsHave(c, false, x);
      ConfigRunsHave(c, true, y);
    }
    OrderedConcat(pods, vms);
  }

  // ---- What is recorded ----

  /** The calls the driver supports. */
  function Runnable(runs: seq<Run>): seq<Run> {
    if runs == [] then []
    else
      var r := runs[|runs| - 1];
      Runnable(runs[..|runs| - 1]) + if Supported(r.driver, r.nc.profile) then [r] else []
  }

  lemma {:induction false} RunnableSupported(runs: seq<Run>, i: nat)
    requires i < |Runnable(runs)|
    ensures Supported(Runnable(runs)[i].driver, Runnable(runs)[i].nc.profile) && Runnable(runs)[i] in runs
  {
    var before := runs[..|runs| - 1];
    if i < |Runnable(before)| {
      RunnableSupported(before, i);
    }
  }

  lemma {:induction false} RunnableHas(runs: seq<Run>, r: Run)
    requires r in runs && Supported(r.driver, r.nc.profile)
    ensures r in Runnable(runs)
  {
    if r != runs[|runs| - 1] {
      RunnableHas(runs[..|runs| - 1], r);
    }
  }

  lemma RunnableExactly(runs: seq<Run>, r: Run)
    ensures r in Runnable(runs) <==> r in runs && Supported(r.driver, r.nc.profile)
  {
    if r in runs && Supported(r.driver, r.nc.profile) {
      RunnableHas(runs, r);
    }
    if r in Runnable(runs) {
      var i :| 0 <= i < |Runnable(runs)| && Runnable(runs)[i] == r;
      RunnableSupported(runs, i);
    }
  }

  lemma {:induction false} RunnableOrdered(runs: seq<Run>)
    requires Ordered(runs)
    ensures Ordered(Runnable(runs))
  {
    if runs != [] {
      var init, r := runs[..|runs| - 1], runs[|runs| - 1];
      RunnableOrdered(init);
      forall x | x in Runnable(init) ensures Precedes(x, r) {
        RunnableExactly(init, x);
        var i :| 0 <= i < |init| && init[i] == x;
        assert Precedes(runs[i], runs[|init|]);
      }
      OrderedConcat(Runnable(init), if Supported(r.driver, r.nc.profile) then [r] else []);
    }
  }

  /** What each driver can measure: latency histograms are for uperf, which lacks TCP_CRR; iperf3 only streams, and
      ib_write_bw only sends UDP streams. */
  predicate Able(driver: Driver, profile: string) {
    && (driver != Uperf ==> profile != "TCP_STREAM_LAT")
    && (driver == Uperf ==> !Contains(profile, "TCP_CRR"))
    && (driver == Iperf3 ==> Contains(profile, "STREAM"))
    && (driver == IbWriteBw ==> ToUpper(profile) == "UDP_STREAM")
  }

  lemma SupportedExactly(driver: Driver, profile: string)
    ensures Supported(driver, profile) <==> Able(driver, profile)
  {
    if ToUpper(profile) == "UDP_STREAM" {
      assert |profile| == |ToUpper(profile)| == 10;
      assert |"TCP_STREAM_LAT"| == 14;
    }
  }

  /** The calls that are measured: the permitted ones the driver can do, each once and in order. */
  lemma MeasuredExactly(c: Settings)
    ensures Ordered(Runnable(Planned(c)))
    ensures forall r :: r in Runnable(Planned(c)) <==> Permitted(c, r) && Able(r.driver, r.nc.profile)
  {
    PlanExact(c);
    RunnableOrdered(Planned(c));
    forall r ensures r in Runnable(Planned(c)) <==> Permitted(c, r) && Able(r.driver, r.nc.profile) {
      RunnableExactly(Planned(c), r);
      SupportedExactly(r.driver, r.nc.profile);
    }
  }

  /** Every label of the record, by the call, the settings and the state BuildSUT left. */
  predicate Tagged(c: Settings, t: State, az: bool, r: Run, d: Data) {
    && d.driver == r.driver && d.hostNetwork == r.hostNet && d.virt == r.virt && d.service == r.nc.service
    && d.config == r.nc.(metric := d.metric, acrossAZ := az)
    && d.metric == (if Contains(r.nc.profile, "STREAM") then "Mb/s" else "OP/s")
    && d.sameNode == c.nodeLocal && d.externalServer == c.externalServer
    && (d.acrossAZ <==> !c.nodeLocal && (c.acrossAZ || az))
    && d.clientNode == t.clientInfo && d.serverNode == t.serverInfo
  }

  lemma LabelTags(c: Settings, t: State, az: bool, r: Run, d: Data)
    requires Measured(d, []) == Label(c, t, Stamp(r.nc, az), r.driver, r.hostNet, r.virt)
    ensures Tagged(c, t, az, r, d)
  {
    var b := Measured(d, []);
    assert b.driver == d.driver && b.hostNetwork == d.hostNetwork && b.virt == d.virt && b.service == d.service;
    assert b.config == d.config && b.metric == d.metric && b.sameNode == d.sameNode;
    assert b.externalServer == d.externalServer && b.acrossAZ == d.acrossAZ;
    assert b.clientNode == d.clientNode && b.serverNode == d.serverNode;
  }

  /** The record belongs to the call, which had a server address, and carries one measurement per sample in every
      list. */
  predicate Describes(c: Settings, t: State, az: bool, r: Run, d: Data) {
    && Measured(d, []) == Label(c, t, Stamp(r.nc, az), r.driver, r.hostNet, r.virt)
    && ServerAddress(c, t, r.nc, r.driver, r.hostNet, r.virt).Some?
    && Tagged(c, t, az, r, d)
    && |d.throughput| == |d.latencyAvg| == |d.latency50| == Positive(r.nc.samples)
    && |d.latency99| == |d.loss| == |d.retransmit| == Positive(r.nc.samples)
  }

  /** The measurements leave the labels alone and have one entry per sample. */
  lemma SamplesKeepLabels(nc: Config, client: PodList, blank: Data, script: seq<Attempt>)
    requires blank == Measured(blank, [])
    ensures var e := Samples(nc, client, blank, script);
            && !e.Skipped?
            && (e.Recorded? ==>
                  && Measured(e.data, []) == blank
                  && |e.data.throughput| == |e.data.latencyAvg| == |e.data.latency50| == Positive(nc.samples)
                  && |e.data.latency99| == |e.data.loss| == |e.data.retransmit| == Positive(nc.samples))
  {
    var n := Collect(script, Positive(nc.samples));
    if n.Collected? {
      MeasuredKeeps(blank, n.samples);
    }
  }

  lemma StampKeepsAddress(c: Settings, t: State, az: bool, r: Run)
    ensures ServerAddress(c, t, Stamp(r.nc, az), r.driver, r.hostNet, r.virt)
         == ServerAddress(c, t, r.nc, r.driver, r.hostNet, r.virt)
  {
  }

  lemma RecordDescribes(c: Settings, t: State, az: bool, r: Run, script: seq<Attempt>)
    ensures var e := ExecuteRun(c, t, az, r, script);
            && (e.Recorded? ==> Supported(r.driver, r.nc.profile) && Describes(c, t, az, r, e.data))
            && (e.Skipped? ==> !Supported(r.driver, r.nc.profile))
  {
    var nc := Stamp(r.nc, az);
    StampKeepsAddress(c, t, az, r);
    SamplesKeepLabels(nc, ClientList(c, t, r.hostNet, r.virt), Label(c, t, nc, r.driver, r.hostNet, r.virt), script);
    var e := ExecuteRun(c, t, az, r, script);
    if e.Recorded? {
      LabelTags(c, t, az, r, e.data);
    }
  }

  /** A finished run has one record for each supported call, in order. */
  lemma {:induction false} RecordsMatchRuns(c: Settings, t: State, az: bool, runs: seq<Run>, script: seq<Attempt>)
    requires RunAll(CallsOf(c, t, az), runs, script).fault.None?
    ensures var ds, done := RunAll(CallsOf(c, t, az), runs, script).results, Runnable(runs);
            |ds| == |done| && forall i :: 0 <= i < |ds| ==> done[i] in runs && Describes(c, t, az, done[i], ds[i])
  {
    if runs != [] {
      var before := runs[..|runs| - 1];
      RecordsMatchRuns(c, t, az, before, script);
      RecordDescribes(c, t, az, runs[|runs| - 1], RunAll(CallsOf(c, t, az), before, script).rest);
      assert forall r :: r in before ==> r in runs;
    }
  }

  /** The records of a finished run: one for each permitted call the driver can do, each once and in plan order, none of
      them both host network and service or both host network and virtual machine. */
  lemma RecordsMatchPlan(c: Settings, t: State, az: bool, script: seq<Attempt>)
    requires RunAll(CallsOf(c, t, az), Planned(c), script).fault.None?
    ensures var ds, done := RunAll(CallsOf(c, t, az), Planned(c), script).results, Runnable(Planned(c));
            && |ds| == |done| && Ordered(done)
            && (forall r :: r in done <==> Permitted(c, r) && Able(r.driver, r.nc.profile))
            && forall i :: 0 <= i < |ds| ==>
                && Permitted(c, done[i]) && Describes(c, t, az, done[i], ds[i])
                && !(ds[i].hostNetwork && (ds[i].service || ds[i].virt))
  {
    RecordsMatchRuns(c, t, az, Planned(c), script);
    PlanExact(c);
    MeasuredExactly(c);
  }

  /** A sample loop that stops at some sample stops for every larger count. */
  lemma {:induction false} CollectStops(script: seq<Attempt>, i: nat, n: nat)
    requires i <= n
    ensures !Collect(script, i).Collected? ==> Collect(script, n) == Collect(script, i)
  {
    if i < n {
      CollectStops(script, i, n - 1);
    }
  }
}
