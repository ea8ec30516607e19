/** cmd/k8s-netperf/k8s-netperf.go: the flag gate in front of a run. */
module Flags {
  import opened Config
  import opened Text
  import opened Sut

  /** The flags the run depends on; a name flag such as --bridge is kept as "is not empty". */
  datatype Flags = Flags(
    netperf: bool,
    netperfChanged: bool,
    uperf: bool,
    iperf3: bool,
    ibChanged: bool,
    ibWriteBw: string,
    privileged: bool,
    udnl2: bool,
    udnl3: bool,
    cudn: bool,
    across: bool,
    full: bool,
    hostNetOnly: bool,
    local: bool,
    pod: bool,
    vm: bool,
    bridge: bool,
    sriov: bool,
    macvlan: bool,
    serverIP: bool)

  /** netperf between pods, with --across. */
  const ACROSS_ZONES := Flags(true, false, false, false, false, "", false, false, false, false,
                              true, false, false, false, true, false, false, false, false, false)

  predicate Udn(f: Flags) {
    f.udnl2 || f.udnl3
  }

  /** The combinations that pass every check before the configuration is read. */
  predicate Accepted(f: Flags) {
    && !(f.full && f.hostNetOnly)
    && (f.uperf || f.netperf || f.iperf3 || f.ibChanged)
    && !(f.udnl2 && f.udnl3) && !(f.cudn && Udn(f))
    && (f.ibChanged ==>
          && TrimSpace(f.ibWriteBw) != "" && f.privileged && f.hostNetOnly
          && !Udn(f) && !f.cudn && !f.vm && !f.bridge && !f.sriov && !f.macvlan)
    && (f.sriov ==> !f.bridge && !Udn(f) && !f.cudn && !f.hostNetOnly && !(f.vm && f.pod) && !f.macvlan)
    && (f.macvlan ==> !f.bridge && !Udn(f) && !f.cudn && !f.hostNetOnly && !f.vm)
  }

  /** netperf is the default driver and is dropped when another driver is asked for. */
  predicate UsesNetperf(f: Flags) {
    f.netperf && (f.netperfChanged || !(f.iperf3 || f.uperf || f.ibChanged))
  }

  function DriversOf(f: Flags): seq<Driver> {
    (if UsesNetperf(f) then [Netperf] else []) + (if f.uperf then [Uperf] else [])
    + (if f.iperf3 then [Iperf3] else []) + (if f.ibChanged then [IbWriteBw] else [])
  }

  /** PerfScenarios as Run fills it. The local variable acrossAZ of Run hides the --across flag, so
      the field is always false. */
  function SettingsOf(f: Flags, configs: seq<Config>): Settings {
    Settings(f.full || f.hostNetOnly, f.hostNetOnly, f.local, false, f.serverIP, f.pod, f.vm,
             Udn(f), f.cudn, f.sriov, f.bridge, f.macvlan, f.ibWriteBw, DriversOf(f), configs)
  }

  /** The checks, in order; a failed one ends the process. */
  method Check(f: Flags) returns (ok: bool)
    ensures ok == Accepted(f)
  {
    if f.full && f.hostNetOnly { return false; }
    if f.ibChanged && TrimSpace(f.ibWriteBw) == "" { return false; }
    if !f.uperf && !f.netperf && !f.iperf3 && !f.ibChanged { return false; }
    if f.udnl2 && f.udnl3 { return false; }
    if f.cudn && (f.udnl2 || f.udnl3) { return false; }
    if f.ibChanged && (!f.privileged || !f.hostNetOnly) { return false; }
    if f.ibChanged && (f.udnl2 || f.udnl3 || f.cudn) { return false; }
    if f.ibChanged && f.vm { return false; }
    if f.ibChanged && f.bridge { return false; }
    if f.sriov && f.bridge { return false; }
    if f.sriov && f.ibChanged { return false; }
    if f.sriov && (f.udnl2 || f.udnl3 || f.cudn) { return false; }
    if f.sriov && f.hostNetOnly { return false; }
    if f.sriov && f.vm && f.pod { return false; }
    if f.macvlan && f.bridge { return false; }
    if f.macvlan && f.sriov { return false; }
    if f.macvlan && f.ibChanged { return false; }
    if f.macvlan && (f.udnl2 || f.udnl3 || f.cudn) { return false; }
    if f.macvlan && f.hostNetOnly { return false; }
    if f.macvlan && f.vm { return false; }
    ok := true;
  }

  method RequestedDrivers(f: Flags) returns (requestedDrivers: seq<Driver>)
    ensures requestedDrivers == DriversOf(f)
  {
    var netperf := f.netperf;
    if (f.iperf3 || f.uperf || f.ibChanged) && !f.netperfChanged {
      netperf := false;
    }
    requestedDrivers := [];
    if netperf {
      requestedDrivers := requestedDrivers + [Netperf];
    }
    if f.uperf {
      requestedDrivers := requestedDrivers + [Uperf];
    }
    if f.iperf3 {
      requestedDrivers := requestedDrivers + [Iperf3];
    }
    if f.ibChanged {
      requestedDrivers := requestedDrivers + [IbWriteBw];
    }
  }

  /** One setting for every flag of the network and the placement; --all and --hostNet both ask for host network pods,
      and no flag sets the zone field. */
  predicate FromFlags(f: Flags, c: Settings) {
    && c.hostNetwork == (f.full || f.hostNetOnly) && c.hostNetworkOnly == f.hostNetOnly
    && c.nodeLocal == f.local && c.externalServer == f.serverIP && c.pod == f.pod && c.vm == f.vm
    && c.udn == (f.udnl2 || f.udnl3) && c.cudn == f.cudn && c.sriov == f.sriov && c.bridge == f.bridge
    && c.macvlan == f.macvlan && c.ibParams == f.ibWriteBw && !c.acrossAZ
  }

  method Gate(f: Flags, configs: seq<Config>) returns (r: Result<Settings, ()>)
    ensures r == if Accepted(f) then Ok(SettingsOf(f, configs)) else Err(())
    ensures r.Ok? ==> FromFlags(f, r.value) && r.value.configs == configs
  {
    var acrossAZ := false;
    var ok := Check(f);
    if !ok {
      return Err(());
    }
    var requestedDrivers := RequestedDrivers(f);
    r := Ok(Settings(f.full || f.hostNetOnly, f.hostNetOnly, f.local, acrossAZ, f.serverIP, f.pod, f.vm,
                     f.udnl2 || f.udnl3, f.cudn, f.sriov, f.bridge, f.macvlan, f.ibWriteBw,
                     requestedDrivers, configs));
  }

  function Bit(b: bool): nat {
    if b then 1 else 0
  }

  /** The accepted combinations, network by network: at most one user defined network, at most one of user defined
      network, SR-IOV, macvlan and RDMA, a bridge with none of the last three. */
  lemma AcceptedExactly(f: Flags)
    ensures Accepted(f) <==>
            && !(f.full && f.hostNetOnly) && (f.netperf || f.uperf || f.iperf3 || f.ibChanged)
            && Bit(f.udnl2) + Bit(f.udnl3) + Bit(f.cudn) <= 1
            && Bit(f.udnl2 || f.udnl3 || f.cudn) + Bit(f.sriov) + Bit(f.macvlan) + Bit(f.ibChanged) <= 1
            && (f.bridge ==> Bit(f.sriov) + Bit(f.macvlan) + Bit(f.ibChanged) == 0)
            && (f.hostNetOnly ==> Bit(f.sriov) + Bit(f.macvlan) == 0)
            && (f.vm ==> Bit(f.macvlan) + Bit(f.ibChanged) + Bit(f.sriov && f.pod) == 0)
            && (f.ibChanged ==> f.hostNetOnly && f.privileged && TrimSpace(f.ibWriteBw) != "")
  {
  }

  /** What the gate promises to the rest of the run. */
  predicate Admitted(c: Settings) {
    && !c.acrossAZ && c.drivers != [] && (c.hostNetworkOnly ==> c.hostNetwork)
    && (IbWriteBw in c.drivers ==>
          c.hostNetworkOnly && !c.vm && !c.udn && !c.cudn && !c.bridge && !c.sriov && !c.macvlan)
    && (c.udn || c.cudn || c.bridge ==> !c.sriov && !c.macvlan)
    && (c.sriov ==> !c.hostNetworkOnly && !(c.vm && c.pod) && !c.macvlan)
    && (c.macvlan ==> !c.hostNetworkOnly && !c.vm)
  }

  lemma DriverRequested(f: Flags, d: Driver)
    ensures d in DriversOf(f) <==> match d
            case Netperf => UsesNetperf(f) case Uperf => f.uperf case Iperf3 => f.iperf3 case IbWriteBw => f.ibChanged
  {
  }

  /** The position of a requested driver: the requested ones before it. */
  function Position(f: Flags, d: Driver): nat {
    match d
    case Netperf => 0
    case Uperf => Bit(UsesNetperf(f))
    case Iperf3 => Bit(UsesNetperf(f)) + Bit(f.uperf)
    case IbWriteBw => Bit(UsesNetperf(f)) + Bit(f.uperf) + Bit(f.iperf3)
  }

  predicate Requested(f: Flags, d: Driver) {
    match d
    case Netperf => f.netperf && (f.netperfChanged || (!f.uperf && !f.iperf3 && !f.ibChanged))
    case Uperf => f.uperf
    case Iperf3 => f.iperf3
    case IbWriteBw => f.ibChanged
  }

  /** Every requested driver once, in its place. */
  lemma DriversExactly(f: Flags, i: nat, d: Driver)
    ensures i < |DriversOf(f)| && DriversOf(f)[i] == d <==> Requested(f, d) && i == Position(f, d)
  {
  }

  lemma AcceptedIsAdmitted(f: Flags, configs: seq<Config>)
    requires Accepted(f)
    ensures Admitted(SettingsOf(f, configs))
  {
    DriverRequested(f, IbWriteBw);
    DriverRequested(f, if UsesNetperf(f) then Netperf else if f.uperf then Uperf
                       else if f.iperf3 then Iperf3 else IbWriteBw);
  }
}
