/** pkg/k8s/kubernetes.go: services, their ports, and the server commands. */
module Servers {
  import opened Config
  import opened Text

  const NETPERF_CTL := 12865
  const IPERF_CTL := 22865
  const UPERF_CTL := 30000
  const UPERF_LAT_CTL := 31000
  const NETPERF_DATA := 42424
  const IPERF_DATA := 43433
  const IPERF_VM_DATA := 43533
  const UPERF_DATA := 30001
  const UPERF_LAT_DATA := 31001
  const UPERF_VM_DATA := 30101
  const UPERF_LAT_VM_DATA := 31101

  /** The role label of a pod, which service selectors and (anti-)affinities name. */
  datatype Role = RoleClientLocal | RoleClientAcross | RoleHostClient | RoleHostServer | RoleServer | RoleVmServer

  datatype Protocol = Tcp | Udp

  datatype ServicePort = ServicePort(protocol: Protocol, port: int)

  datatype Service = Service(selector: Role, ports: seq<ServicePort>)

  /** The service pointers of PerfScenarios. */
  datatype ServiceName =
    | NetperfService | IperfService | UperfService | UperfLatService
    | NetperfVmService | IperfVmService | UperfVmService | UperfLatVmService

  datatype ServiceParams = ServiceParams(selector: Role, ctlPort: int, dataPorts: seq<int>)

  function PortsOf(ctl: int, data: seq<int>): seq<ServicePort>
  {
    if data == [] then [ServicePort(Tcp, ctl), ServicePort(Udp, ctl)]
    else
      var port := data[|data| - 1];
      PortsOf(ctl, data[..|data| - 1]) + [ServicePort(Tcp, port), ServicePort(Udp, port)]
  }

  lemma InTwoMore(ports: seq<ServicePort>, x: ServicePort, y: ServicePort, sp: ServicePort)
    ensures sp in ports + [x, y] <==> sp in ports || sp == x || sp == y
  {
  }

  lemma InOneMore(data: seq<int>, port: int, p: int)
    ensures p in data + [port] <==> p in data || p == port
  {
  }

  lemma {:induction false} PortsOfMembers(ctl: int, data: seq<int>, sp: ServicePort)
    ensures sp in PortsOf(ctl, data) <==> sp.port == ctl || sp.port in data
  {
    assert sp == ServicePort(if sp.protocol.Tcp? then Tcp else Udp, sp.port);
    if data != [] {
      var init, port := data[..|data| - 1], data[|data| - 1];
      PortsOfMembers(ctl, init, sp);
      InTwoMore(PortsOf(ctl, init), ServicePort(Tcp, port), ServicePort(Udp, port), sp);
      InOneMore(init, port, sp.port);
      assert data == init + [port];
    }
  }

  /** The service leads to the role and lists TCP and UDP of every port, in order and nothing else. */
  predicate Opens(s: Service, role: Role, ports: seq<int>) {
    && s.selector == role && |s.ports| == 2 * |ports|
    && forall i :: 0 <= i < |ports| ==>
         s.ports[2 * i] == ServicePort(Tcp, ports[i]) && s.ports[2 * i + 1] == ServicePort(Udp, ports[i])
  }

  lemma {:induction false} OpensInOrder(role: Role, ctl: int, data: seq<int>)
    ensures Opens(Service(role, PortsOf(ctl, data)), role, [ctl] + data)
  {
    if data != [] {
      OpensInOrder(role, ctl, data[..|data| - 1]);
    }
  }

  method CreateService(sp: ServiceParams) returns (s: Service)
    ensures s == Service(sp.selector, PortsOf(sp.ctlPort, sp.dataPorts))
    ensures Opens(s, sp.selector, [sp.ctlPort] + sp.dataPorts)
  {
    var ports := [ServicePort(Tcp, sp.ctlPort), ServicePort(Udp, sp.ctlPort)];
    for i := 0 to |sp.dataPorts|
      invariant ports == PortsOf(sp.ctlPort, sp.dataPorts[..i])
    {
      assert sp.dataPorts[..i + 1][..i] == sp.dataPorts[..i];
      var port := sp.dataPorts[i];
      ports := ports + [ServicePort(Tcp, port), ServicePort(Udp, port)];
    }
    assert sp.dataPorts[..|sp.dataPorts|] == sp.dataPorts;
    OpensInOrder(sp.selector, sp.ctlPort, sp.dataPorts);
    s := Service(sp.selector, ports);
  }

  method NetperfDataPorts() returns (ports: seq<int>)
    ensures ports == seq(16, i => NETPERF_DATA + i)
  {
    ports := [];
    for i := 0 to 16
      invariant ports == seq(i, k => NETPERF_DATA + k)
    {
      ports := ports + [NETPERF_DATA + i];
    }
  }

  /** What BuildSUT passes to CreateService for each service. */
  function ParamsOf(name: ServiceName): ServiceParams {
    match name
    case NetperfService => ServiceParams(RoleServer, NETPERF_CTL, seq(16, i => NETPERF_DATA + i))
    case IperfService => ServiceParams(RoleServer, IPERF_CTL, [IPERF_DATA])
    case UperfService => ServiceParams(RoleServer, UPERF_CTL, [UPERF_DATA])
    case UperfLatService => ServiceParams(RoleServer, UPERF_LAT_CTL, [UPERF_LAT_DATA])
    case NetperfVmService => ServiceParams(RoleVmServer, NETPERF_CTL, seq(16, i => NETPERF_DATA + i))
    case IperfVmService => ServiceParams(RoleVmServer, IPERF_CTL, [IPERF_VM_DATA])
    case UperfVmService => ServiceParams(RoleVmServer, UPERF_CTL, [UPERF_VM_DATA])
    case UperfLatVmService => ServiceParams(RoleVmServer, UPERF_LAT_CTL, [UPERF_LAT_VM_DATA])
  }

  function ServiceOf(name: ServiceName): Service {
    Service(ParamsOf(name).selector, PortsOf(ParamsOf(name).ctlPort, ParamsOf(name).dataPorts))
  }

  /** The services by port number. */
  predicate RightService(name: ServiceName, s: Service) {
    match name
    case NetperfService => Opens(s, RoleServer, [12865] + seq(16, i => 42424 + i))
    case IperfService => Opens(s, RoleServer, [22865, 43433])
    case UperfService => Opens(s, RoleServer, [30000, 30001])
    case UperfLatService => Opens(s, RoleServer, [31000, 31001])
    case NetperfVmService => Opens(s, RoleVmServer, [12865] + seq(16, i => 42424 + i))
    case IperfVmService => Opens(s, RoleVmServer, [22865, 43533])
    case UperfVmService => Opens(s, RoleVmServer, [30000, 30101])
    case UperfLatVmService => Opens(s, RoleVmServer, [31000, 31101])
  }

  lemma ServicesAreRight(name: ServiceName)
    ensures RightService(name, ServiceOf(name))
  {
    var sp := ParamsOf(name);
    OpensInOrder(sp.selector, sp.ctlPort, sp.dataPorts);
    if name.NetperfService? || name.NetperfVmService? {
      assert sp.dataPorts == seq(16, i => 42424 + i);
    }
  }

  function DriverOf(name: ServiceName): Driver {
    match name
    case NetperfService => Netperf
    case NetperfVmService => Netperf
    case IperfService => Iperf3
    case IperfVmService => Iperf3
    case _ => Uperf
  }

  predicate ForVm(name: ServiceName) {
    name.NetperfVmService? || name.IperfVmService? || name.UperfVmService? || name.UperfLatVmService?
  }

  // ---- Server commands ----

  /** One server process per container. */
  datatype Command =
    | NetServer
    | IperfServer(port: int)
    | UperfHistogramServer(port: int)
    | UperfServer(port: int)
    | IbServer(device: string, gid: string, duration: int)

  predicate IsUdpStream(profile: string) {
    ToUpper(profile) == "UDP_STREAM"
  }

  function IbDuration(configs: seq<Config>): int {
    if configs == [] then 10
    else if IsUdpStream(configs[0].profile) then configs[0].duration
    else IbDuration(configs[1..])
  }

  predicate UsesHistogram(configs: seq<Config>) {
    exists i :: 0 <= i < |configs| && configs[i].profile == "TCP_STREAM_LAT"
  }

  function LoadCommands(drivers: seq<Driver>, configs: seq<Config>): seq<Command> {
    (if Netperf in drivers then [NetServer] else [])
    + (if Iperf3 in drivers then [IperfServer(IPERF_CTL)] else [])
    + (if Uperf in drivers && UsesHistogram(configs) then [UperfHistogramServer(UPERF_LAT_CTL)] else [])
    + (if Uperf in drivers then [UperfServer(UPERF_CTL)] else [])
  }

  function CommandsOf(drivers: seq<Driver>, configs: seq<Config>, ibParams: string): Option<seq<Command>> {
    if IbWriteBw !in drivers then Some(LoadCommands(drivers, configs))
    else
      var parts := Split(ibParams, ':');
      if |parts| != 2 then None
      else
        var ib := IbServer(TrimSpace(parts[0]), TrimSpace(parts[1]), IbDuration(configs));
        Some(LoadCommands(drivers, configs) + [ib])
  }

  /** The parameters are two trimmed parts around one colon. */
  ghost predicate NicGid(ibParams: string, device: string, gid: string) {
    exists a, b :: InTwo(ibParams, ':', a, b) && device == TrimSpace(a) && gid == TrimSpace(b)
  }

  predicate FirstUdp(configs: seq<Config>, j: nat) {
    j < |configs| && IsUdpStream(configs[j].profile) && forall k :: 0 <= k < j ==> !IsUdpStream(configs[k].profile)
  }

  /** The server runs as long as the first UDP_STREAM configuration, without one for ten seconds. */
  ghost predicate FirstUdpLasts(configs: seq<Config>, duration: int) {
    if exists j: nat :: FirstUdp(configs, j) then
      exists j: nat :: FirstUdp(configs, j) && duration == configs[j].duration
    else duration == 10
  }

  /** The server processes: one of a kind, each exactly when it is asked for, on its port. */
  ghost predicate RightCommands(drivers: seq<Driver>, configs: seq<Config>, ibParams: string, cmds: seq<Command>) {
    && (NetServer in cmds <==> Netperf in drivers)
    && (forall p :: IperfServer(p) in cmds <==> Iperf3 in drivers && p == 22865)
    && (forall p :: UperfHistogramServer(p) in cmds <==>
          Uperf in drivers && p == 31000 && exists i :: 0 <= i < |configs| && configs[i].profile == "TCP_STREAM_LAT")
    && (forall p :: UperfServer(p) in cmds <==> Uperf in drivers && p == 30000)
    && (forall device, gid, d :: IbServer(device, gid, d) in cmds <==>
          IbWriteBw in drivers && NicGid(ibParams, device, gid) && FirstUdpLasts(configs, d))
    && (forall i, j :: 0 <= i < j < |cmds| ==> cmds[i] != cmds[j])
  }

  lemma {:induction false} FirstUdpDecides(configs: seq<Config>) returns (j: nat)
    ensures FirstUdp(configs, j) ==> IbDuration(configs) == configs[j].duration
    ensures !FirstUdp(configs, j) ==> IbDuration(configs) == 10
    ensures !FirstUdp(configs, j) ==> forall i :: 0 <= i < |configs| ==> !IsUdpStream(configs[i].profile)
  {
    if configs == [] || IsUdpStream(configs[0].profile) {
      j := 0;
    } else {
      var rest := configs[1..];
      var k := FirstUdpDecides(rest);
      j := k + 1;
      assert forall m :: 0 < m < |configs| ==> configs[m] == rest[m - 1];
    }
  }

  lemma DurationExactly(configs: seq<Config>, d: int)
    ensures FirstUdpLasts(configs, d) <==> d == IbDuration(configs)
  {
    var j := FirstUdpDecides(configs);
    if FirstUdp(configs, j) {
      forall k: nat | FirstUdp(configs, k) ensures k == j {
        assert !(k < j) && !(j < k);
      }
      if FirstUdpLasts(configs, d) {
        var k: nat :| FirstUdp(configs, k) && d == configs[k].duration;
      }
    } else {
      assert forall k: nat :: !FirstUdp(configs, k);
    }
  }

  lemma NicGidExactly(ibParams: string, device: string, gid: string)
    ensures var parts := Split(ibParams, ':');
            NicGid(ibParams, device, gid) <==>
            |parts| == 2 && device == TrimSpace(parts[0]) && gid == TrimSpace(parts[1])
  {
    var parts := Split(ibParams, ':');
    if |parts| == 2 {
      assert parts == [parts[0], parts[1]];
      SplitInTwo(ibParams, ':', parts[0], parts[1]);
    }
    forall a, b | InTwo(ibParams, ':', a, b) ensures parts == [a, b] {
      SplitInTwo(ibParams, ':', a, b);
    }
  }

  lemma InConcat<T>(a: seq<T>, b: seq<T>, x: T)
    ensures x in a + b <==> x in a || x in b
  {
  }

  /** Different commands one behind the other. */
  lemma DifferentConcat(a: seq<Command>, b: seq<Command>)
    requires (forall i, j :: 0 <= i < j < |a| ==> a[i] != a[j]) && |b| <= 1 && forall x :: x in b ==> x !in a
    ensures forall i, j :: 0 <= i < j < |a + b| ==> (a + b)[i] != (a + b)[j]
  {
    forall i, j | 0 <= i < j < |a + b| ensures (a + b)[i] != (a + b)[j] {
      if j == |a| {
        assert b[0] in b && a[i] in a;
      }
    }
  }

  /** At most one netserver, one iperf server, one histogram server and one uperf server. */
  lemma LoadMember(n: seq<Command>, i: seq<Command>, h: seq<Command>, u: seq<Command>, cmd: Command)
    ensures cmd in n + i + h + u <==> cmd in n || cmd in i || cmd in h || cmd in u
  {
    InConcat(n, i, cmd);
    InConcat(n + i, h, cmd);
    InConcat(n + i + h, u, cmd);
  }

  lemma LoadDifferent(n: seq<Command>, i: seq<Command>, h: seq<Command>, u: seq<Command>)
    requires |n| <= 1 && |i| <= 1 && |h| <= 1 && |u| <= 1
    requires (forall x :: x in n ==> x.NetServer?) && (forall x :: x in i ==> x.IperfServer?)
    requires (forall x :: x in h ==> x.UperfHistogramServer?) && (forall x :: x in u ==> x.UperfServer?)
    ensures var all := n + i + h + u; forall i, j :: 0 <= i < j < |all| ==> all[i] != all[j]
  {
    DifferentConcat(n, i);
    DifferentConcat(n + i, h);
    DifferentConcat(n + i + h, u);
  }

  lemma LoadIsRight(drivers: seq<Driver>, configs: seq<Config>, cmds: seq<Command>)
    requires cmds == LoadCommands(drivers, configs)
    ensures NetServer in cmds <==> Netperf in drivers
    ensures forall p :: IperfServer(p) in cmds <==> Iperf3 in drivers && p == 22865
    ensures forall p :: UperfHistogramServer(p) in cmds <==> Uperf in drivers && p == 31000 && UsesHistogram(configs)
    ensures forall p :: UperfServer(p) in cmds <==> Uperf in drivers && p == 30000
    ensures forall device, gid, d :: IbServer(device, gid, d) !in cmds
    ensures forall i, j :: 0 <= i < j < |cmds| ==> cmds[i] != cmds[j]
  {
    var n := if Netperf in drivers then [NetServer] else [];
    var i := if Iperf3 in drivers then [IperfServer(IPERF_CTL)] else [];
    var h := if Uperf in drivers && UsesHistogram(configs) then [UperfHistogramServer(UPERF_LAT_CTL)] else [];
    var u := if Uperf in drivers then [UperfServer(UPERF_CTL)] else [];
    LoadDifferent(n, i, h, u);
    forall cmd ensures cmd in cmds <==> cmd in n || cmd in i || cmd in h || cmd in u {
      LoadMember(n, i, h, u, cmd);
    }
  }

  /** The commands, and their failure. */
  lemma CommandsAreRight(drivers: seq<Driver>, configs: seq<Config>, ibParams: string)
    ensures var cmds := CommandsOf(drivers, configs, ibParams);
            && (cmds == None <==> IbWriteBw in drivers && !exists device, gid :: NicGid(ibParams, device, gid))
            && (cmds.Some? ==> RightCommands(drivers, configs, ibParams, cmds.value))
  {
    LoadIsRight(drivers, configs, LoadCommands(drivers, configs));
    forall device, gid
      ensures NicGid(ibParams, device, gid) <==>
              |Split(ibParams, ':')| == 2 && device == TrimSpace(Split(ibParams, ':')[0])
              && gid == TrimSpace(Split(ibParams, ':')[1])
    {
      NicGidExactly(ibParams, device, gid);
    }
    var parts := Split(ibParams, ':');
    if |parts| == 2 {
      assert NicGid(ibParams, TrimSpace(parts[0]), TrimSpace(parts[1]));
    }
    forall d ensures FirstUdpLasts(configs, d) <==> d == IbDuration(configs) {
      DurationExactly(configs, d);
    }
  }

  /** The command block of BuildSUT; None is the log.Fatalf on malformed nic:gid parameters. */
  method ServerCommands(drivers: seq<Driver>, configs: seq<Config>, ibParams: string)
    returns (cmds: Option<seq<Command>>)
    ensures cmds == CommandsOf(drivers, configs, ibParams)
    ensures cmds == None <==> IbWriteBw in drivers && !exists device, gid :: NicGid(ibParams, device, gid)
    ensures cmds.Some? ==> RightCommands(drivers, configs, ibParams, cmds.value)
  {
    CommandsAreRight(drivers, configs, ibParams);
    var dpCommands := [];
    if Netperf in drivers {
      dpCommands := dpCommands + [NetServer];
    }
    if Iperf3 in drivers {
      dpCommands := dpCommands + [IperfServer(IPERF_CTL)];
    }
    if Uperf in drivers {
      var needsHistogram := NeedsHistogram(configs);
      if needsHistogram {
        dpCommands := dpCommands + [UperfHistogramServer(UPERF_LAT_CTL)];
      }
      dpCommands := dpCommands + [UperfServer(UPERF_CTL)];
    }
    assert dpCommands == LoadCommands(drivers, configs);
    if IbWriteBw in drivers {
      var parts := Split(ibParams, ':');
      if |parts| != 2 {
        return None;
      }
      var ibDuration := FirstUdpDuration(configs);
      dpCommands := dpCommands + [IbServer(TrimSpace(parts[0]), TrimSpace(parts[1]), ibDuration)];
    }
    cmds := Some(dpCommands);
  }

  method NeedsHistogram(configs: seq<Config>) returns (needed: bool)
    ensures needed == UsesHistogram(configs)
  {
    for i := 0 to |configs|
      invariant forall k :: 0 <= k < i ==> configs[k].profile != "TCP_STREAM_LAT"
    {
      if configs[i].profile == "TCP_STREAM_LAT" {
        return true;
      }
    }
    needed := false;
  }

  method FirstUdpDuration(configs: seq<Config>) returns (ibDuration: int)
    ensures ibDuration == IbDuration(configs)
  {
    ibDuration := 10;
    for i := 0 to |configs|
      invariant ibDuration == 10 && IbDuration(configs) == IbDuration(configs[i..])
    {
      if IsUdpStream(configs[i].profile) {
        return configs[i].duration;
      }
      assert configs[i..][1..] == configs[i + 1..];
    }
  }
}
