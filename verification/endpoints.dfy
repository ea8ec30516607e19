/** Which runs find a server address and a client pod. */
module Endpoints {
  import opened Config
  import opened Zones
  import opened Sut
  import opened Flags
  import opened Sampling
  import opened Runner

  // ---- From the flags to the calls ----

  /** The call the flags ask for: one of the configurations, a requested driver in its place, and for pods or virtual
      machines. Host network calls, for --all and --hostNet, are for pods and configurations without a service;
      --hostNet has no others. */
  predicate AskedFor(f: Flags, configs: seq<Config>, r: Run) {
    && r.cfg < |configs| && r.nc == configs[r.cfg] && Requested(f, r.driver) && r.drv == Position(f, r.driver)
    && (if r.virt then f.vm else f.pod)
    && (if r.hostNet then !r.virt && (f.full || f.hostNetOnly) && !r.nc.service else !f.hostNetOnly)
  }

  /** The planned calls are those the flags ask for. */
  lemma PlanOfFlags(f: Flags, configs: seq<Config>, r: Run)
    ensures r in Planned(SettingsOf(f, configs)) <==> AskedFor(f, configs, r)
  {
    PlannedHas(SettingsOf(f, configs), r);
    DriversExactly(f, r.drv, r.driver);
  }

  predicate SecondaryNet(c: Settings) {
    c.udn || c.cudn || c.sriov || c.bridge || c.macvlan
  }

  /** executeWorkload indexes no empty pod list and follows no nil service in this run. */
  predicate Available(c: Settings, t: State, r: Run) {
    && ServerAddress(c, t, r.nc, r.driver, r.hostNet, r.virt).Some?
    && (Supported(r.driver, r.nc.profile) ==> ClientList(c, t, r.hostNet, r.virt).items != [])
  }

  /** What the options must avoid: host network runs against an external server without --local;
      --hostNet with a secondary network, which never deploys the server pod that owns the address;
      virtual machines on a UDN or CUDN without pods, for the same reason. */
  predicate RunSafe(c: Settings, r: Run) {
    if c.externalServer then !(r.hostNet && !c.nodeLocal && Supported(r.driver, r.nc.profile))
    else
      || r.nc.service
      || (if r.virt then c.pod || !(c.udn || c.cudn)
          else c.nodeLocal || !c.hostNetworkOnly || !SecondaryNet(c))
  }

  lemma Deploys(c: Settings, nodes: seq<Node>, t: State, a: App)
    requires Built(c, nodes, t)
    ensures Of(t.running, a).items != [] <==> Wanted(c, ViewOf(nodes), a)
  {
    assert a in t.running <==> Wanted(c, ViewOf(nodes), a) && Stage(a) < 7;
  }

  lemma ServiceExists(c: Settings, t: State, r: Run)
    requires ServicesOf(c, {Iperf3, Uperf, Netperf}, t.services) && Admitted(c) && !c.externalServer
    requires Permitted(c, r) && r.nc.service
    ensures ServiceFor(r.driver, r.virt) in t.services
  {
    assert r.driver in c.drivers;
  }

  lemma ClientExists(c: Settings, nodes: seq<Node>, t: State, r: Run)
    requires Built(c, nodes, t) && Permitted(c, r) && Admitted(c)
    ensures ClientList(c, t, r.hostNet, r.virt).items != [] <==> !(c.externalServer && r.hostNet && !c.nodeLocal)
  {
    Deploys(c, nodes, t, DpClient);
    Deploys(c, nodes, t, DpClientHost);
    Deploys(c, nodes, t, DpClientAcross);
    Deploys(c, nodes, t, VmClient);
  }

  lemma ServerExists(c: Settings, nodes: seq<Node>, t: State, r: Run)
    requires Built(c, nodes, t) && Permitted(c, r) && Admitted(c) && !c.externalServer && !r.nc.service
    ensures ServerAddress(c, t, r.nc, r.driver, r.hostNet, r.virt).Some? <==> RunSafe(c, r)
  {
    Deploys(c, nodes, t, DpServer);
    Deploys(c, nodes, t, DpServerHost);
    Deploys(c, nodes, t, VmServer);
  }

  /** A permitted run finds its endpoints in what BuildSUT left, in every cluster and under every
      placement, exactly when its options are safe. */
  lemma AvailableExactly(c: Settings, nodes: seq<Node>, t: State, r: Run)
    requires Admitted(c) && Built(c, nodes, t) && Permitted(c, r)
    ensures Available(c, t, r) <==> RunSafe(c, r)
  {
    ClientExists(c, nodes, t, r);
    if !c.externalServer {
      if r.nc.service {
        ServiceExists(c, t, r);
      } else {
        ServerExists(c, nodes, t, r);
      }
    }
  }

  /** With safe options no call of a whole run stops on a missing endpoint. */
  lemma {:induction false} NoPanic(c: Settings, nodes: seq<Node>, t: State, az: bool, runs: seq<Run>,
                                   script: seq<Attempt>)
    requires Admitted(c) && Built(c, nodes, t)
    requires forall r :: r in runs ==> Permitted(c, r) && RunSafe(c, r)
    ensures RunAll(CallsOf(c, t, az), runs, script).fault != Some(Panic)
  {
    if runs != [] {
      var r := runs[|runs| - 1];
      NoPanic(c, nodes, t, az, runs[..|runs| - 1], script);
      AvailableExactly(c, nodes, t, r);
      CallNeverPanics(c, t, az, r, RunAll(CallsOf(c, t, az), runs[..|runs| - 1], script).rest);
    }
  }

  lemma CallNeverPanics(c: Settings, t: State, az: bool, r: Run, script: seq<Attempt>)
    requires Available(c, t, r)
    ensures ExecuteRun(c, t, az, r, script) != Stopped(Panic)
  {
    StampKeepsAddress(c, t, az, r);
  }

  /** The first unsafe supported call ends the process. */
  lemma UnsafePanics(c: Settings, nodes: seq<Node>, t: State, az: bool, r: Run, script: seq<Attempt>)
    requires Admitted(c) && Built(c, nodes, t) && Permitted(c, r) && !RunSafe(c, r)
    requires Supported(r.driver, r.nc.profile) && r.nc.samples > 0
    ensures ExecuteRun(c, t, az, r, script) == Stopped(Panic)
  {
    AvailableExactly(c, nodes, t, r);
    StampKeepsAddress(c, t, az, r);
  }
}
