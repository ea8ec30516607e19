/** Ports and parameters on which a client and its server must agree: the control ports of the drivers, the
    data ports behind a service, and the ib_write_bw arguments (pkg/drivers, containers/super-netperf). */
module Reach {
  import opened Config
  import opened Text
  import opened Zones
  import opened Servers
  import opened Sut
  import opened Flags
  import opened Runner

  // ---- Control ports ----

  /** The control port the client of a driver connects to. */
  function ControlPort(driver: Driver, profile: string): int
    requires driver != IbWriteBw
  {
    match driver
    case Netperf => 12865
    case Iperf3 => 22865
    case Uperf => if profile == "TCP_STREAM_LAT" then 31000 else 30000
  }

  /** The port a server process listens on; netserver uses its default. */
  function Listens(cmd: Command): Option<int> {
    match cmd
    case NetServer => Some(12865)
    case IperfServer(p) => Some(p)
    case UperfHistogramServer(p) => Some(p)
    case UperfServer(p) => Some(p)
    case IbServer(_, _, _) => None
  }

  predicate Listening(cmds: seq<Command>, port: int) {
    exists i :: 0 <= i < |cmds| && Listens(cmds[i]) == Some(port)
  }

  lemma CommandMember(drivers: seq<Driver>, configs: seq<Config>, ib: string, cmd: Command)
    requires CommandsOf(drivers, configs, ib).Some? && !cmd.IbServer?
    ensures cmd in CommandsOf(drivers, configs, ib).value <==>
            match cmd
            case NetServer => Netperf in drivers
            case IperfServer(p) => Iperf3 in drivers && p == IPERF_CTL
            case UperfHistogramServer(p) => Uperf in drivers && UsesHistogram(configs) && p == UPERF_LAT_CTL
            case UperfServer(p) => Uperf in drivers && p == UPERF_CTL
  {
    assert cmd in LoadCommands(drivers, configs) <==> cmd in CommandsOf(drivers, configs, ib).value;
  }

  /** Every supported pod run finds a server process on its control port. */
  lemma ServerListens(c: Settings, nodes: seq<Node>, t: State, r: Run)
    requires Built(c, nodes, t) && !c.externalServer && Permitted(c, r)
    requires r.driver != IbWriteBw && Supported(r.driver, r.nc.profile)
    ensures Listening(t.commands, ControlPort(r.driver, r.nc.profile))
  {
    var cmd := match r.driver
      case Netperf => NetServer
      case Iperf3 => IperfServer(IPERF_CTL)
      case Uperf =>
        (if r.nc.profile == "TCP_STREAM_LAT" then UperfHistogramServer(UPERF_LAT_CTL) else UperfServer(UPERF_CTL))
      case IbWriteBw => NetServer;
    assert r.driver in c.drivers;
    CommandMember(c.drivers, c.configs, c.ibParams, cmd);
    var i :| 0 <= i < |t.commands| && t.commands[i] == cmd;
    assert Listens(t.commands[i]) == Some(ControlPort(r.driver, r.nc.profile));
  }

  /** The histogram port is served exactly when uperf is asked for and some configuration needs it. */
  lemma HistogramExactly(c: Settings, nodes: seq<Node>, t: State)
    requires Built(c, nodes, t) && !c.externalServer
    ensures Listening(t.commands, 31000) <==>
            Uperf in c.drivers && exists i :: 0 <= i < |c.configs| && c.configs[i].profile == "TCP_STREAM_LAT"
  {
    CommandMember(c.drivers, c.configs, c.ibParams, UperfHistogramServer(UPERF_LAT_CTL));
    if UperfHistogramServer(UPERF_LAT_CTL) in t.commands {
      var i :| 0 <= i < |t.commands| && t.commands[i] == UperfHistogramServer(UPERF_LAT_CTL);
      assert Listens(t.commands[i]) == Some(UPERF_LAT_CTL);
    }
    if Listening(t.commands, UPERF_LAT_CTL) {
      var i :| 0 <= i < |t.commands| && Listens(t.commands[i]) == Some(UPERF_LAT_CTL);
      assert t.commands[i] in t.commands;
      CommandMember(c.drivers, c.configs, c.ibParams, t.commands[i]);
    }
  }

  // ---- Ports behind a service ----

  /** run_netperf: one process per loop, each on the next port. */
  method RunNetperfPorts(loops: nat, start: int) returns (ports: seq<int>)
    ensures ports == seq(loops, i => start + i)
  {
    ports := [];
    var port := start;
    for i := 0 to loops
      invariant port == start + i && ports == seq(i, k => start + k)
    {
      ports := ports + [port];
      port := port + 1;
    }
  }

  /** The data ports the client of a driver connects to. */
  function DataPorts(driver: Driver, profile: string, parallelism: nat): seq<int> {
    match driver
    case Netperf => seq(parallelism, i => 42424 + i)
    case Uperf => if profile == "TCP_STREAM_LAT" then [31001] else [30001]
    case _ => []
  }

  predicate Exposes(s: Service, port: int) {
    ServicePort(Tcp, port) in s.ports && ServicePort(Udp, port) in s.ports
  }

  /** The service of a run exposes everything its client connects to. */
  predicate Reachable(driver: Driver, profile: string, virt: bool, parallelism: nat)
    requires driver != IbWriteBw
  {
    var s, data := ServiceOf(ServiceFor(driver, virt)), DataPorts(driver, profile, parallelism);
    Exposes(s, ControlPort(driver, profile)) && forall i :: 0 <= i < |data| ==> Exposes(s, data[i])
  }

  lemma ExposesExactly(name: ServiceName, port: int)
    ensures Exposes(ServiceOf(name), port) <==> port == ParamsOf(name).ctlPort || port in ParamsOf(name).dataPorts
  {
    PortsOfMembers(ParamsOf(name).ctlPort, ParamsOf(name).dataPorts, ServicePort(Tcp, port));
    PortsOfMembers(ParamsOf(name).ctlPort, ParamsOf(name).dataPorts, ServicePort(Udp, port));
  }

  /** netperf is reachable through its service up to 16 processes; uperf only from pods and without the
      histogram profile; iperf3 always. */
  lemma ReachableExactly(driver: Driver, profile: string, virt: bool, parallelism: nat)
    requires driver != IbWriteBw
    ensures Reachable(driver, profile, virt, parallelism) <==>
            match driver
            case Netperf => parallelism <= 16
            case Uperf => !virt && profile != "TCP_STREAM_LAT"
            case _ => true
  {
    var name := ServiceFor(driver, virt);
    var data := DataPorts(driver, profile, parallelism);
    ExposesExactly(name, ControlPort(driver, profile));
    forall i | 0 <= i < |data|
      ensures Exposes(ServiceOf(name), data[i])
         <==> data[i] == ParamsOf(name).ctlPort || data[i] in ParamsOf(name).dataPorts
    {
      ExposesExactly(name, data[i]);
    }
    if driver == Netperf {
      var open := ParamsOf(name).dataPorts;
      assert open == seq(16, i => NETPERF_DATA + i);
      forall i | 0 <= i < parallelism ensures data[i] in open <==> i < 16 {
        assert data[i] == NETPERF_DATA + i;
        if i < 16 {
          assert open[i] == data[i];
        }
      }
      if parallelism > 16 {
        assert !Exposes(ServiceOf(name), data[16]);
      }
    } else if driver == Uperf {
      assert data[0] == if profile == "TCP_STREAM_LAT" then UPERF_LAT_DATA else UPERF_DATA;
    }
  }

  // ---- ib_write_bw ----

  datatype NicGidError = NicGidMissing | NicGidFormat | NicGidBlank

  function ParseNicGid(param: string): Result<(string, string), NicGidError> {
    if TrimSpace(param) == "" then Err(NicGidMissing)
    else
      var parts := Split(param, ':');
      if |parts| != 2 then Err(NicGidFormat)
      else if TrimSpace(parts[0]) == "" || TrimSpace(parts[1]) == "" then Err(NicGidBlank)
      else Ok((TrimSpace(parts[0]), TrimSpace(parts[1])))
  }

  /** The driver accepts exactly two parts around one colon, neither of them blank. */
  lemma NicGidParsed(param: string, device: string, gid: string)
    ensures ParseNicGid(param) == Ok((device, gid)) <==> NicGid(param, device, gid) && device != "" && gid != ""
  {
    NicGidExactly(param, device, gid);
    if NicGid(param, device, gid) {
      var a, b :| InTwo(param, ':', a, b) && device == TrimSpace(a) && gid == TrimSpace(b);
      assert param[|a|] == ':' && !IsSpace(':');
      TrimCuts(param, IsSpace);
    }
  }

  predicate Direct(nc: Config) {
    IsUdpStream(nc.profile) && !nc.service
  }

  /** Every UDP_STREAM configuration without a service lasts as long as the first UDP_STREAM configuration,
      which may have a service. */
  predicate SharedDuration(configs: seq<Config>) {
    forall i, j :: 0 <= i < |configs| && 0 <= j < |configs| && Direct(configs[i]) && FirstUdp(configs, j)
      ==> configs[i].duration == configs[j].duration
  }

  /** The arguments of the ib_write_bw client that its server must share. */
  predicate IbServerFor(t: State, device: string, gid: string, nc: Config) {
    IbServer(device, gid, nc.duration) in t.commands
  }

  /** Client and server of every ib_write_bw run have the same device, gid and duration exactly when the
      UDP_STREAM configurations share their duration. */
  lemma IbAgreesExactly(c: Settings, nodes: seq<Node>, t: State, device: string, gid: string)
    requires Built(c, nodes, t) && Admitted(c) && !c.externalServer && c.pod && IbWriteBw in c.drivers
    requires ParseNicGid(c.ibParams) == Ok((device, gid))
    ensures (forall r :: Permitted(c, r) && r.driver == IbWriteBw && Supported(r.driver, r.nc.profile)
                         ==> IbServerFor(t, device, gid, r.nc))
       <==> SharedDuration(c.configs)
  {
    IbMember(c, device, gid);
    if SharedDuration(c.configs) {
      forall r | Permitted(c, r) && r.driver == IbWriteBw && Supported(r.driver, r.nc.profile)
        ensures IbServerFor(t, device, gid, r.nc)
      {
        var j := FirstUdpDecides(c.configs);
      }
    } else {
      var r := IbDisagrees(c);
    }
  }

  /** A run that lasts longer or shorter than its server. */
  lemma IbDisagrees(c: Settings) returns (r: Run)
    requires Admitted(c) && c.pod && IbWriteBw in c.drivers && !SharedDuration(c.configs)
    ensures Permitted(c, r) && r.driver == IbWriteBw && Supported(r.driver, r.nc.profile)
    ensures r.nc.duration != IbDuration(c.configs)
  {
    var i, j :| 0 <= i < |c.configs| && 0 <= j < |c.configs| && Direct(c.configs[i])
      && FirstUdp(c.configs, j) && c.configs[i].duration != c.configs[j].duration;
    var drv :| 0 <= drv < |c.drivers| && c.drivers[drv] == IbWriteBw;
    var k := FirstUdpDecides(c.configs);
    assert k == j by {
      assert !(j < k) && !(k < j);
    }
    r := Run(i, c.configs[i], drv, IbWriteBw, true, false);
  }

  lemma IbMember(c: Settings, device: string, gid: string)
    requires IbWriteBw in c.drivers && ParseNicGid(c.ibParams) == Ok((device, gid))
    ensures CommandsOf(c.drivers, c.configs, c.ibParams).Some?
    ensures forall d :: IbServer(device, gid, d) in CommandsOf(c.drivers, c.configs, c.ibParams).value
                        <==> d == IbDuration(c.configs)
  {
    forall d ensures IbServer(device, gid, d) !in LoadCommands(c.drivers, c.configs) {
    }
  }
}
