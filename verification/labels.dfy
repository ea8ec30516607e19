/** Do the labels of a record tell the truth about where the traffic ran? Each label is decided for every
    cluster and every placement the scheduler may choose. */
module Labels {
  import opened Config
  import opened Results
  import opened Zones
  import opened Servers
  import opened Sut
  import opened Flags
  import opened Runner
  import opened Endpoints
  import opened Placements

  // ---- The two ends of a run ----

  /** The pods the traffic may start from. A VM run is driven from the client VM. */
  function Origin(c: Settings, t: State, r: Run): PodList {
    if r.virt then t.vmClientAcross else ClientList(c, t, r.hostNet, false)
  }

  /** The pods behind the server address. */
  function Backend(t: State, address: Address): PodList {
    match address
    case ExternalIP => NO_PODS
    case ClusterIP(s) => if s in t.services then GetPods(t.running, ByRole(t.services[s].selector)) else NO_PODS
    case PodIP(p) => PodList([p])
    case SecondaryIP(p) => PodList([p])
    case BridgeFileIP => t.vmServer
  }

  function ClientPod(c: Settings, t: State, r: Run): Option<Pod> {
    First(Origin(c, t, r))
  }

  function ServerPod(c: Settings, t: State, r: Run): Option<Pod> {
    match ServerAddress(c, t, r.nc, r.driver, r.hostNet, r.virt)
    case Some(address) => First(Backend(t, address))
    case None => None
  }

  /** The deployments the two pods belong to. */
  function ClientApp(c: Settings, r: Run): App {
    if r.virt then VmClient
    else if r.hostNet && !c.nodeLocal then DpClientHost
    else if c.nodeLocal then DpClient
    else DpClientAcross
  }

  function ServerApp(c: Settings, r: Run): App {
    if !r.nc.service && (c.udn || c.cudn) then DpServer
    else if r.virt then VmServer
    else if r.hostNet && !c.nodeLocal && !SecondaryNet(c) then DpServerHost
    else DpServer
  }

  /** A measured run inside the cluster: both ends exist. */
  ghost predicate Measures(c: Settings, nodes: seq<Node>, t: State, r: Run) {
    && Admitted(c) && !c.externalServer && Permitted(c, r) && Built(c, nodes, t)
    && ClientPod(c, t, r).Some? && ServerPod(c, t, r).Some?
  }

  /** The address the client connects to: without a service one of the server pod, on a secondary network a secondary
      one (that of a virtual machine on a bridge comes from a file), else the primary one. */
  predicate RightAddress(c: Settings, t: State, r: Run, address: Address) {
    if c.externalServer then address == ExternalIP
    else if r.nc.service then
      && address.ClusterIP? && address.service in t.services && (ForVm(address.service) <==> r.virt)
      && (DriverOf(address.service) == r.driver || r.driver == IbWriteBw) && !address.service.UperfLatService?
      && !address.service.UperfLatVmService?
    else
      var server := if c.udn || c.cudn then DpServer
                    else if r.virt then VmServer
                    else if r.hostNet && !c.nodeLocal && !c.sriov && !c.bridge && !c.macvlan then DpServerHost
                    else DpServer;
      if r.virt && c.bridge && !c.udn && !c.cudn && !c.sriov then address == BridgeFileIP
      else
        && server in t.running
        && address == if c.udn || c.cudn || c.sriov || c.bridge || c.macvlan then SecondaryIP(t.running[server])
                      else PodIP(t.running[server])
  }

  /** Every measured call connects to the right address. */
  lemma AddressIsRight(c: Settings, t: State, r: Run, address: Address)
    requires Listed(t) && Admitted(c) && Permitted(c, r)
    requires ServerAddress(c, t, r.nc, r.driver, r.hostNet, r.virt) == Some(address)
    ensures RightAddress(c, t, r, address)
  {
  }

  lemma OnlyWithRole(running: map<App, Pod>, a: App)
    requires a == DpServer || a == VmServer
    ensures GetPods(running, ByRole(RoleOf(a))) == Of(running, a)
  {
    assert One(running, ByRole(RoleOf(a)), a) == Of(running, a).items;
  }

  lemma ClientEnd(c: Settings, t: State, r: Run)
    requires Listed(t) && !c.externalServer && !(r.hostNet && r.virt) && ClientPod(c, t, r).Some?
    ensures ClientApp(c, r) in t.running && ClientPod(c, t, r).value == t.running[ClientApp(c, r)]
  {
    assert Origin(c, t, r) == Of(t.running, ClientApp(c, r));
  }

  lemma DirectEnd(c: Settings, t: State, r: Run)
    requires Listed(t) && !c.externalServer && !(r.hostNet && r.virt) && !(r.virt && c.macvlan) && !r.nc.service
    requires ServerPod(c, t, r).Some?
    ensures ServerApp(c, r) in t.running && ServerPod(c, t, r).value == t.running[ServerApp(c, r)]
  {
    assert Of(t.running, ServerApp(c, r)).items == [ServerPod(c, t, r).value];
  }

  lemma ServiceEnd(c: Settings, t: State, r: Run)
    requires ServicesOf(c, {Iperf3, Uperf, Netperf}, t.services) && !c.externalServer && r.nc.service && !r.hostNet
    requires ServerPod(c, t, r).Some?
    ensures ServerApp(c, r) in t.running && ServerPod(c, t, r).value == t.running[ServerApp(c, r)]
  {
    ServicePod(c, t, r);
  }

  lemma ServiceSelector(driver: Driver, virt: bool)
    ensures ServiceOf(ServiceFor(driver, virt)).selector == if virt then RoleVmServer else RoleServer
  {
  }

  /** The ends of a measured run are the pods of those deployments. */
  lemma Ends(c: Settings, nodes: seq<Node>, t: State, r: Run)
    requires Measures(c, nodes, t, r)
    ensures ClientApp(c, r) in t.running && ClientPod(c, t, r).value == t.running[ClientApp(c, r)]
    ensures ServerApp(c, r) in t.running && ServerPod(c, t, r).value == t.running[ServerApp(c, r)]
  {
    ClientEnd(c, t, r);
    if r.nc.service {
      ServiceEnd(c, t, r);
    } else {
      DirectEnd(c, t, r);
    }
  }

  // ---- SameNode ----

  /** The placement of the client and the server of this run is bound by a required (anti-)affinity. */
  predicate Anchored(c: Settings, r: Run) {
    if c.nodeLocal then !r.virt else !(r.hostNet && SecondaryNet(c))
  }

  /** The labels of every record of the run. */
  function LabelOf(c: Settings, t: State, az: bool, r: Run): Data {
    Label(c, t, Stamp(r.nc, az), r.driver, r.hostNet, r.virt)
  }

  predicate SameNodeTrue(c: Settings, t: State, r: Run)
    requires ClientPod(c, t, r).Some? && ServerPod(c, t, r).Some?
  {
    LabelOf(c, t, false, r).sameNode <==> ClientPod(c, t, r).value.node == ServerPod(c, t, r).value.node
  }

  /** The (anti-)affinities of the source put the two ends on one node, or on two. */
  lemma AnchoredNodes(c: Settings, v: View, nodes: seq<Node>, running: map<App, Pod>, r: Run)
    requires Deployed(c, v, nodes, running, 7) && Anchored(c, r) && !c.externalServer && !(r.hostNet && r.virt)
    requires c.nodeLocal || v.ncount > 1
    requires ClientApp(c, r) in running && ServerApp(c, r) in running
    ensures c.nodeLocal <==> running[ClientApp(c, r)].node == running[ServerApp(c, r)].node
  {
    var client, server := ClientApp(c, r), ServerApp(c, r);
    assert LegalPod(c, v, nodes, running, server);
    var n := running[server].node;
    if c.nodeLocal {
      assert Hosts(running, Stage(server), RoleClientLocal, n);
      var b :| b in running && Stage(b) < Stage(server) && RoleOf(b) == RoleClientLocal && running[b].node == n;
      assert b == client;
    } else {
      assert !Hosts(running, Stage(server), RoleOf(client), n);
    }
  }

  /** An anchored run is labelled SameNode exactly when its two ends share a node. */
  lemma SameNodeIsTrue(c: Settings, nodes: seq<Node>, t: State, r: Run)
    requires Measures(c, nodes, t, r) && Anchored(c, r)
    ensures SameNodeTrue(c, t, r)
  {
    Ends(c, nodes, t, r);
    AnchoredNodes(c, ViewOf(nodes), nodes, t.running, r);
  }

  /** Two nodes are enough for a legal placement of everything. */
  function PickTwo(c: Settings, a: nat, b: nat): App -> nat {
    (x: App) =>
      match x
      case DpClient => a
      case DpClientHost => if c.nodeLocal then b else a
      case DpClientAcross => b
      case VmClient => b
      case DpServerHost => b
      case DpServer => a
      case VmServer => a
  }

  /** Two different workers of a cluster. */
  predicate TwoWorkers(nodes: seq<Node>, a: nat, b: nat) {
    a < |nodes| && b < |nodes| && a != b && Schedulable(nodes[a]) && Schedulable(nodes[b])
  }

  /** What the settings must allow for the run to be measured at all. */
  predicate Feasible(c: Settings, r: Run) {
    Admitted(c) && Buildable(c) && Permitted(c, r) && RunSafe(c, r)
  }

  lemma OriginDeployed(c: Settings, nodes: seq<Node>, t: State, r: Run)
    requires Admitted(c) && !c.externalServer && Permitted(c, r) && Built(c, nodes, t)
    requires c.nodeLocal && r.virt ==> NodeCount(nodes) > 1
    ensures ClientPod(c, t, r).Some?
  {
    Deploys(c, nodes, t, ClientApp(c, r));
    assert Origin(c, t, r) == Of(t.running, ClientApp(c, r));
  }

  lemma ServiceBacked(c: Settings, nodes: seq<Node>, t: State, r: Run)
    requires Admitted(c) && !c.externalServer && Permitted(c, r) && Built(c, nodes, t) && r.nc.service
    requires ServerAddress(c, t, r.nc, r.driver, r.hostNet, r.virt).Some?
    ensures ServerPod(c, t, r).Some?
  {
    ServicePod(c, t, r);
    Deploys(c, nodes, t, if r.virt then VmServer else DpServer);
    ServerWanted(c, ViewOf(nodes), r);
  }

  lemma ServerWanted(c: Settings, v: View, r: Run)
    requires Admitted(c) && !c.externalServer && Permitted(c, r) && r.nc.service
    ensures Wanted(c, v, if r.virt then VmServer else DpServer)
  {
  }

  lemma ServiceAddress(c: Settings, t: State, r: Run)
    requires !c.externalServer && r.nc.service && ServerAddress(c, t, r.nc, r.driver, r.hostNet, r.virt).Some?
    ensures var s := ServiceFor(r.driver, r.virt);
            s in t.services && ServerAddress(c, t, r.nc, r.driver, r.hostNet, r.virt) == Some(ClusterIP(s))
  {
  }

  lemma SelectorOf(c: Settings, t: State, r: Run)
    requires ServicesOf(c, {Iperf3, Uperf, Netperf}, t.services) && ServiceFor(r.driver, r.virt) in t.services
    ensures t.services[ServiceFor(r.driver, r.virt)].selector == if r.virt then RoleVmServer else RoleServer
  {
    ServiceSelector(r.driver, r.virt);
  }

  lemma ServerPodBehind(c: Settings, t: State, r: Run, address: Address)
    requires ServerAddress(c, t, r.nc, r.driver, r.hostNet, r.virt) == Some(address)
    ensures ServerPod(c, t, r) == First(Backend(t, address))
  {
  }

  /** A service leads to the server pod, or to the server VM. */
  lemma ServicePod(c: Settings, t: State, r: Run)
    requires ServicesOf(c, {Iperf3, Uperf, Netperf}, t.services) && !c.externalServer && r.nc.service
    requires ServerAddress(c, t, r.nc, r.driver, r.hostNet, r.virt).Some?
    ensures ServerPod(c, t, r) == First(Of(t.running, if r.virt then VmServer else DpServer))
  {
    var s := ServiceFor(r.driver, r.virt);
    var a := if r.virt then VmServer else DpServer;
    ServiceAddress(c, t, r);
    SelectorOf(c, t, r);
    Behind(t, s, a);
    ServerPodBehind(c, t, r, ClusterIP(s));
  }

  lemma Behind(t: State, s: ServiceName, a: App)
    requires s in t.services && t.services[s].selector == RoleOf(a) && (a == DpServer || a == VmServer)
    ensures Backend(t, ClusterIP(s)) == Of(t.running, a)
  {
    OnlyWithRole(t.running, a);
  }

  lemma BackendDeployed(c: Settings, nodes: seq<Node>, t: State, r: Run)
    requires Admitted(c) && !c.externalServer && Permitted(c, r) && Built(c, nodes, t)
    requires ServerAddress(c, t, r.nc, r.driver, r.hostNet, r.virt).Some?
    ensures ServerPod(c, t, r).Some?
  {
    if r.nc.service {
      ServiceBacked(c, nodes, t, r);
    } else {
      match ServerAddress(c, t, r.nc, r.driver, r.hostNet, r.virt).value {
        case PodIP(p) => assert First(Backend(t, PodIP(p))) == Some(p);
        case SecondaryIP(p) => assert First(Backend(t, SecondaryIP(p))) == Some(p);
        case BridgeFileIP =>
          Deploys(c, nodes, t, VmServer);
          assert Of(t.running, VmServer) == t.vmServer;
        case _ =>
      }
    }
  }

  lemma PlacedRunIsMeasured(c: Settings, nodes: seq<Node>, t: State, r: Run)
    requires Feasible(c, r) && Built(c, nodes, t) && NodeCount(nodes) > 1
    ensures Measures(c, nodes, t, r)
  {
    AvailableExactly(c, nodes, t, r);
    OriginDeployed(c, nodes, t, r);
    BackendDeployed(c, nodes, t, r);
  }

  /** Any legal choice of nodes gives a measured run with its ends on the chosen nodes. */
  lemma PlacedRun(c: Settings, nodes: seq<Node>, r: Run, pick: App -> nat) returns (t: State)
    requires Feasible(c, r) && NodeCount(nodes) > 1 && Fits(c, ViewOf(nodes), nodes, pick) && Apart(c, pick)
    ensures Measures(c, nodes, t, r) && t.running == Placement(c, ViewOf(nodes), pick)
    ensures ClientPod(c, t, r).value.node == pick(ClientApp(c, r))
    ensures ServerPod(c, t, r).value.node == pick(ServerApp(c, r))
    ensures t.clientInfo == InfoOf(t.running, ClientInfoSelector(c, ViewOf(nodes), 7))
    ensures t.serverInfo == InfoOf(t.running, ServerInfoSelector(c, ViewOf(nodes), 7))
  {
    t := PlacementPossible(c, nodes, pick);
    PlacedRunIsMeasured(c, nodes, t, r);
    Ends(c, nodes, t, r);
  }

  lemma TwoFit(c: Settings, nodes: seq<Node>, a: nat, b: nat)
    requires TwoWorkers(nodes, a, b)
    ensures NodeCount(nodes) > 1 && Fits(c, ViewOf(nodes), nodes, PickTwo(c, a, b)) && Apart(c, PickTwo(c, a, b))
  {
    TwoCounted(nodes, if a < b then a else b, if a < b then b else a);
  }

  lemma PlacedOnTwo(c: Settings, nodes: seq<Node>, r: Run, a: nat, b: nat) returns (t: State)
    requires Feasible(c, r) && TwoWorkers(nodes, a, b)
    ensures Measures(c, nodes, t, r)
    ensures ClientPod(c, t, r).value.node == PickTwo(c, a, b)(ClientApp(c, r))
    ensures ServerPod(c, t, r).value.node == PickTwo(c, a, b)(ServerApp(c, r))
  {
    TwoFit(c, nodes, a, b);
    t := PlacedRun(c, nodes, r, PickTwo(c, a, b));
  }

  /** In every cluster with two workers, some legal placement makes the label of any other run false. */
  lemma SameNodeLies(c: Settings, nodes: seq<Node>, r: Run, a: nat, b: nat) returns (t: State)
    requires Feasible(c, r) && !Anchored(c, r) && TwoWorkers(nodes, a, b)
    ensures Measures(c, nodes, t, r) && !SameNodeTrue(c, t, r)
  {
    t := PlacedOnTwo(c, nodes, r, a, b);
  }

  /** The SameNode label of a run tells the truth in every cluster and under every placement exactly when
      the run is anchored. */
  lemma SameNodeExactly(c: Settings, r: Run)
    requires Feasible(c, r)
    ensures (forall nodes, t :: Measures(c, nodes, t, r) ==> SameNodeTrue(c, t, r)) <==> Anchored(c, r)
  {
    if Anchored(c, r) {
      forall nodes, t | Measures(c, nodes, t, r) ensures SameNodeTrue(c, t, r) {
        SameNodeIsTrue(c, nodes, t, r);
      }
    } else {
      var w := Node(true, false, false, "a");
      var t := SameNodeLies(c, [w, w], r, 0, 1);
    }
  }

  // ---- HostNetwork ----

  /** Both ends use the network the label names. */
  predicate HostNetworkTrue(c: Settings, t: State, r: Run)
    requires ClientPod(c, t, r).Some? && ServerPod(c, t, r).Some?
  {
    ClientPod(c, t, r).value.hostNetwork == ServerPod(c, t, r).value.hostNetwork == LabelOf(c, t, false, r).hostNetwork
  }

  /** With --local there is one pair of pods for both kinds of run, on the host network if there is any host
      network run; across nodes the secondary network address is always that of the pod network server. */
  predicate HostNetworkHonest(c: Settings, r: Run) {
    if c.nodeLocal then
      r.hostNet == c.hostNetwork || (r.virt && (r.nc.service || !(c.udn || c.cudn)))
    else
      !(r.hostNet && SecondaryNet(c))
  }

  /** The HostNetwork label of a measured run is true exactly for these settings, whatever the cluster. */
  lemma HostNetworkExactly(c: Settings, nodes: seq<Node>, t: State, r: Run)
    requires Measures(c, nodes, t, r)
    ensures HostNetworkTrue(c, t, r) <==> HostNetworkHonest(c, r)
  {
    Ends(c, nodes, t, r);
    PodNetwork(c, ViewOf(nodes), nodes, t.running, ClientApp(c, r));
    PodNetwork(c, ViewOf(nodes), nodes, t.running, ServerApp(c, r));
    NetworksPlanned(c, ViewOf(nodes), r);
  }

  lemma NetworksPlanned(c: Settings, v: View, r: Run)
    requires Admitted(c) && !c.externalServer && Permitted(c, r)
    requires Wanted(c, v, ClientApp(c, r)) && Wanted(c, v, ServerApp(c, r))
    ensures var client, server := DeploymentOf(c, v, ClientApp(c, r)), DeploymentOf(c, v, ServerApp(c, r));
            client.hostNetwork == server.hostNetwork == r.hostNet <==> HostNetworkHonest(c, r)
  {
  }

  lemma PodNetwork(c: Settings, v: View, nodes: seq<Node>, running: map<App, Pod>, a: App)
    requires Deployed(c, v, nodes, running, 7) && a in running
    ensures Wanted(c, v, a) && running[a].hostNetwork == DeploymentOf(c, v, a).hostNetwork
  {
    assert LegalPod(c, v, nodes, running, a);
  }

  // ---- AcrossAZ ----

  predicate ZonesDiffer(c: Settings, nodes: seq<Node>, t: State, r: Run)
    requires ClientPod(c, t, r).Some? && ServerPod(c, t, r).Some?
  {
    var a, b := ClientPod(c, t, r).value.node, ServerPod(c, t, r).value.node;
    a < |nodes| && b < |nodes| && nodes[a].zone != nodes[b].zone
  }

  predicate AcrossLabel(c: Settings, nodes: seq<Node>, t: State, r: Run) {
    LabelOf(c, t, RunAcross(c, nodes), r).acrossAZ
  }

  lemma Placed(c: Settings, v: View, nodes: seq<Node>, running: map<App, Pod>, a: App)
    requires Deployed(c, v, nodes, running, 7) && a in running
    ensures running[a].node < |nodes|
    ensures v.zoned && !c.externalServer ==> Schedulable(nodes[running[a].node])
  {
    assert LegalPod(c, v, nodes, running, a) && Wanted(c, v, a);
  }

  /** The label of a run across nodes is set exactly when no two workers share a zone. */
  lemma RunAcrossExactly(c: Settings, nodes: seq<Node>)
    ensures RunAcross(c, nodes)
       <==> !c.nodeLocal && Workers(nodes) != [] && Labelled(Workers(nodes)) && NoSharedZone(nodes)
  {
    if Workers(nodes) != [] && Labelled(Workers(nodes)) {
      LonelyExactly(nodes);
    }
  }

  /** An anchored run is labelled AcrossAZ only when its ends lie in different zones. */
  lemma AcrossIsTrue(c: Settings, nodes: seq<Node>, t: State, r: Run)
    requires Measures(c, nodes, t, r) && Anchored(c, r) && AcrossLabel(c, nodes, t, r)
    ensures ZonesDiffer(c, nodes, t, r)
  {
    RunAcrossExactly(c, nodes);
    Ends(c, nodes, t, r);
    var v := ViewOf(nodes);
    ChosenZoneNamed(Workers(nodes));
    AnchoredNodes(c, v, nodes, t.running, r);
    Placed(c, v, nodes, t.running, ClientApp(c, r));
    Placed(c, v, nodes, t.running, ServerApp(c, r));
    var a, b := ClientPod(c, t, r).value.node, ServerPod(c, t, r).value.node;
    assert nodes[a].worker && nodes[b].worker && a != b;
  }

  /** The two ends of an anchored run across nodes can lie on p and q. */
  ghost predicate Separable(c: Settings, nodes: seq<Node>, r: Run, p: nat, q: nat) {
    var v := ViewOf(nodes);
    && p != q && TwoPlain(nodes)
    && CanHost(c, v, nodes, ClientApp(c, r), p) && CanHost(c, v, nodes, ServerApp(c, r), q)
    && (Wanted(c, v, DpClientHost) ==> exists s: nat :: CanHost(c, v, nodes, DpClientHost, s))
  }

  /** In a cluster with zones these are any two of the usable workers. */
  lemma SeparableWorkers(c: Settings, nodes: seq<Node>, r: Run, p: nat, q: nat)
    requires !c.externalServer && !c.nodeLocal && Permitted(c, r) && ViewOf(nodes).zoned
    ensures Separable(c, nodes, r, p, q) <==> TwoWorkers(nodes, p, q)
  {
    OnWorkerWhenZoned(c, ViewOf(nodes), ClientApp(c, r));
    OnWorkerWhenZoned(c, ViewOf(nodes), ServerApp(c, r));
    if TwoWorkers(nodes, p, q) {
      TwoCounted(nodes, if p < q then p else q, if p < q then q else p);
      NodeCountExactly(nodes);
      assert CanHost(c, ViewOf(nodes), nodes, DpClientHost, p);
    }
  }

  lemma OnWorkerWhenZoned(c: Settings, v: View, a: App)
    requires v.zoned
    ensures DeploymentOf(c, v, a).onWorker
  {
  }

  /** A legal placement with the ends of the run on p and q and the host network client on s. */
  function PickEnds(r: Run, p: nat, q: nat, s: nat): App -> nat {
    (x: App) =>
      match x
      case DpClient => p
      case DpClientHost => if r.hostNet then p else s
      case DpClientAcross => if r.hostNet then q else p
      case VmClient => if r.hostNet then q else p
      case DpServerHost => if r.hostNet || s == p then q else p
      case DpServer => if r.hostNet then p else q
      case VmServer => if r.hostNet then p else q
  }

  lemma EndsPlaced(c: Settings, nodes: seq<Node>, r: Run, p: nat, q: nat) returns (t: State)
    requires Feasible(c, r) && Anchored(c, r) && !c.nodeLocal && Separable(c, nodes, r, p, q)
    ensures Measures(c, nodes, t, r)
    ensures ClientPod(c, t, r).value.node == p && ServerPod(c, t, r).value.node == q
  {
    var v := ViewOf(nodes);
    var s: nat := q;
    if Wanted(c, v, DpClientHost) {
      s :| CanHost(c, v, nodes, DpClientHost, s);
    }
    NodeCountExactly(nodes);
    EndsFit(c, nodes, r, p, q, s);
    EndsApart(c, r, p, q, s);
    t := PlacedRun(c, nodes, r, PickEnds(r, p, q, s));
  }

  lemma EndsFit(c: Settings, nodes: seq<Node>, r: Run, p: nat, q: nat, s: nat)
    requires Feasible(c, r) && Anchored(c, r) && !c.nodeLocal && Separable(c, nodes, r, p, q)
    requires Wanted(c, ViewOf(nodes), DpClientHost) ==> CanHost(c, ViewOf(nodes), nodes, DpClientHost, s)
    ensures Fits(c, ViewOf(nodes), nodes, PickEnds(r, p, q, s))
  {
  }

  lemma EndsApart(c: Settings, r: Run, p: nat, q: nat, s: nat)
    requires !c.nodeLocal && p != q
    ensures Apart(c, PickEnds(r, p, q, s))
  {
  }

  /** Exactly the separable pairs of nodes are the ends of the run under some placement. */
  lemma EndsExactly(c: Settings, nodes: seq<Node>, r: Run, p: nat, q: nat)
    requires Feasible(c, r) && Anchored(c, r) && !c.nodeLocal
    ensures (exists t :: Measures(c, nodes, t, r)
                         && ClientPod(c, t, r).value.node == p && ServerPod(c, t, r).value.node == q)
       <==> Separable(c, nodes, r, p, q)
  {
    if Separable(c, nodes, r, p, q) {
      var t := EndsPlaced(c, nodes, r, p, q);
    }
    forall t | Measures(c, nodes, t, r) && ClientPod(c, t, r).value.node == p && ServerPod(c, t, r).value.node == q
      ensures Separable(c, nodes, r, p, q)
    {
      EndsSeparable(c, nodes, t, r);
    }
  }

  lemma EndsSeparable(c: Settings, nodes: seq<Node>, t: State, r: Run)
    requires Measures(c, nodes, t, r) && Anchored(c, r) && !c.nodeLocal
    ensures Separable(c, nodes, r, ClientPod(c, t, r).value.node, ServerPod(c, t, r).value.node)
  {
    Ends(c, nodes, t, r);
    NodeCountExactly(nodes);
    var v := ViewOf(nodes);
    AnchoredNodes(c, v, nodes, t.running, r);
    Hosted(c, v, nodes, t.running, ClientApp(c, r));
    Hosted(c, v, nodes, t.running, ServerApp(c, r));
    if Wanted(c, v, DpClientHost) {
      Hosted(c, v, nodes, t.running, DpClientHost);
    }
  }

  lemma Hosted(c: Settings, v: View, nodes: seq<Node>, running: map<App, Pod>, a: App)
    requires Deployed(c, v, nodes, running, 7) && Wanted(c, v, a)
    ensures a in running && CanHost(c, v, nodes, a, running[a].node)
  {
    assert a in running && LegalPod(c, v, nodes, running, a);
  }

  /** Wherever the ends may lie, the zones are the same. */
  ghost predicate OneZone(c: Settings, nodes: seq<Node>, r: Run) {
    forall p: nat, q: nat :: Separable(c, nodes, r, p, q) ==> nodes[p].zone == nodes[q].zone
  }

  lemma AcrossRight(c: Settings, nodes: seq<Node>, t: State, r: Run)
    requires Measures(c, nodes, t, r) && Anchored(c, r) && !c.nodeLocal
    requires RunAcross(c, nodes) || OneZone(c, nodes, r)
    ensures AcrossLabel(c, nodes, t, r) <==> ZonesDiffer(c, nodes, t, r)
  {
    LabelAcross(c, t, RunAcross(c, nodes), r);
    if RunAcross(c, nodes) {
      AcrossIsTrue(c, nodes, t, r);
    } else {
      EndsSeparable(c, nodes, t, r);
    }
  }

  lemma AcrossMissed(c: Settings, nodes: seq<Node>, r: Run) returns (t: State)
    requires Feasible(c, r) && Anchored(c, r) && !c.nodeLocal && !RunAcross(c, nodes) && !OneZone(c, nodes, r)
    ensures Measures(c, nodes, t, r) && ZonesDiffer(c, nodes, t, r) && !AcrossLabel(c, nodes, t, r)
  {
    var p: nat, q: nat :| Separable(c, nodes, r, p, q) && nodes[p].zone != nodes[q].zone;
    t := EndsPlaced(c, nodes, r, p, q);
    LabelAcross(c, t, RunAcross(c, nodes), r);
  }

  /** In any cluster the AcrossAZ label of an anchored run across nodes is right in both directions, under every
      placement, exactly when no two workers share a zone or the run has only one zone to choose from. */
  lemma AcrossExactly(c: Settings, nodes: seq<Node>, r: Run)
    requires Feasible(c, r) && Anchored(c, r) && !c.nodeLocal
    ensures (forall t :: Measures(c, nodes, t, r) ==> (AcrossLabel(c, nodes, t, r) <==> ZonesDiffer(c, nodes, t, r)))
       <==> (Workers(nodes) != [] && Labelled(Workers(nodes)) && NoSharedZone(nodes)) || OneZone(c, nodes, r)
  {
    RunAcrossExactly(c, nodes);
    if RunAcross(c, nodes) || OneZone(c, nodes, r) {
      forall t | Measures(c, nodes, t, r) ensures AcrossLabel(c, nodes, t, r) <==> ZonesDiffer(c, nodes, t, r) {
        AcrossRight(c, nodes, t, r);
      }
    } else {
      var t := AcrossMissed(c, nodes, r);
    }
  }

  // ---- The --across flag ----

  /** The run measures across zones under every placement exactly when its ends cannot lie in one zone. */
  lemma AcrossZonesExactly(c: Settings, nodes: seq<Node>, r: Run)
    requires Feasible(c, r) && Anchored(c, r) && !c.nodeLocal
    ensures (forall t :: Measures(c, nodes, t, r) ==> ZonesDiffer(c, nodes, t, r))
       <==> (forall p: nat, q: nat :: Separable(c, nodes, r, p, q) ==> nodes[p].zone != nodes[q].zone)
  {
    if forall p: nat, q: nat :: Separable(c, nodes, r, p, q) ==> nodes[p].zone != nodes[q].zone {
      forall t | Measures(c, nodes, t, r) ensures ZonesDiffer(c, nodes, t, r) {
        EndsSeparable(c, nodes, t, r);
      }
    } else {
      var p: nat, q: nat :| Separable(c, nodes, r, p, q) && nodes[p].zone == nodes[q].zone;
      var t := EndsPlaced(c, nodes, r, p, q);
      assert !ZonesDiffer(c, nodes, t, r);
    }
  }

  /** --across changes nothing, and it is kept, in a cluster with zones, exactly when no two usable workers share
      one. */
  lemma AcrossFlagExactly(f: Flags, configs: seq<Config>, nodes: seq<Node>, r: Run)
    requires Accepted(f) && f.across && !f.local && ViewOf(nodes).zoned
    requires Feasible(SettingsOf(f, configs), r) && Anchored(SettingsOf(f, configs), r)
    ensures Accepted(f.(across := false)) && SettingsOf(f, configs) == SettingsOf(f.(across := false), configs)
    ensures var c := SettingsOf(f, configs);
            (forall t :: Measures(c, nodes, t, r) ==> ZonesDiffer(c, nodes, t, r))
            <==> (forall p: nat, q: nat :: TwoWorkers(nodes, p, q) ==> nodes[p].zone != nodes[q].zone)
  {
    var c := SettingsOf(f, configs);
    AcrossZonesExactly(c, nodes, r);
    forall p: nat, q: nat ensures Separable(c, nodes, r, p, q) <==> TwoWorkers(nodes, p, q) {
      SeparableWorkers(c, nodes, r, p, q);
    }
  }

  /** In a cluster of two workers in one zone --across is accepted and the traffic stays in the zone. */
  lemma AcrossFlagFails() returns (t: State)
    ensures var w := Node(true, false, false, "a");
            var c, r := SettingsOf(ACROSS_ZONES, [ONE_STREAM]), Run(0, ONE_STREAM, 0, Netperf, false, false);
            && Accepted(ACROSS_ZONES) && ACROSS_ZONES.across
            && Measures(c, [w, w], t, r) && !ZonesDiffer(c, [w, w], t, r)
  {
    var w := Node(true, false, false, "a");
    var c, r := SettingsOf(ACROSS_ZONES, [ONE_STREAM]), Run(0, ONE_STREAM, 0, Netperf, false, false);
    assert c.drivers == [Netperf];
    t := PlacedOnTwo(c, [w, w], r, 0, 1);
  }

  /** Two workers in two zones. */
  const TWO_ZONES := [Node(true, false, false, "a"), Node(true, false, false, "b")]

  lemma TwoZonesListed()
    ensures Workers(TWO_ZONES) == TWO_ZONES && Labelled(TWO_ZONES)
  {
    assert TWO_ZONES[..1] == [TWO_ZONES[0]] && TWO_ZONES[..1][..0] == [];
    assert Workers(TWO_ZONES[..1]) == [TWO_ZONES[0]];
  }

  lemma TwoZonesApart()
    ensures LastRepeated(TWO_ZONES) == "" && LastNew(TWO_ZONES) == "b"
  {
    var one := TWO_ZONES[..1];
    assert one == [TWO_ZONES[0]] && one[..0] == [];
    ZoneSetStep(one);
    assert ZoneSet(one) == {"a"};
    assert "a"[0] != "b"[0];
  }

  lemma TwoZonesAcross(c: Settings)
    requires !c.nodeLocal
    ensures RunAcross(c, TWO_ZONES)
  {
    TwoZonesListed();
    TwoZonesApart();
    ChosenZoneShared(TWO_ZONES);
    NoRepeatNoCompany(TWO_ZONES, "b");
  }

  lemma AcrossLies(c: Settings, nodes: seq<Node>, r: Run, a: nat, b: nat) returns (t: State)
    requires Feasible(c, r) && !c.nodeLocal && !Anchored(c, r) && RunAcross(c, nodes) && TwoWorkers(nodes, a, b)
    ensures Measures(c, nodes, t, r) && AcrossLabel(c, nodes, t, r) && !ZonesDiffer(c, nodes, t, r)
  {
    t := PlacedOnTwo(c, nodes, r, a, b);
    LabelAcross(c, t, RunAcross(c, nodes), r);
    EndsTogether(c, r, a, b);
  }

  lemma LabelAcross(c: Settings, t: State, az: bool, r: Run)
    ensures LabelOf(c, t, az, r).acrossAZ <==> !c.nodeLocal && (c.acrossAZ || az)
  {
  }

  lemma EndsTogether(c: Settings, r: Run, a: nat, b: nat)
    requires !c.nodeLocal && Permitted(c, r) && !Anchored(c, r)
    ensures PickTwo(c, a, b)(ClientApp(c, r)) == PickTwo(c, a, b)(ServerApp(c, r))
  {
  }

  /** Across nodes the AcrossAZ label is never set falsely, in any cluster and under any placement, exactly
      for the anchored runs. */
  lemma AcrossSoundExactly(c: Settings, r: Run)
    requires Feasible(c, r) && !c.nodeLocal
    ensures (forall nodes, t :: Measures(c, nodes, t, r) && AcrossLabel(c, nodes, t, r) ==> ZonesDiffer(c, nodes, t, r))
       <==> Anchored(c, r)
  {
    if Anchored(c, r) {
      forall nodes, t | Measures(c, nodes, t, r) && AcrossLabel(c, nodes, t, r) ensures ZonesDiffer(c, nodes, t, r) {
        AcrossIsTrue(c, nodes, t, r);
      }
    } else {
      TwoZonesAcross(c);
      var t := AcrossLies(c, TWO_ZONES, r, 0, 1);
    }
  }

  // ---- ClientNodeInfo and ServerNodeInfo ----

  predicate NodeInfoTrue(c: Settings, t: State, r: Run)
    requires ClientPod(c, t, r).Some? && ServerPod(c, t, r).Some?
  {
    var d := LabelOf(c, t, false, r);
    d.clientNode == ClientPod(c, t, r).value.node && d.serverNode == ServerPod(c, t, r).value.node
  }

  /** The infos are taken once for all runs: they fit the pods of the last assignment only. */
  predicate NodeInfoHonest(c: Settings, r: Run) {
    if r.virt then (r.nc.service || !(c.udn || c.cudn)) && (c.nodeLocal || !c.pod)
    else if c.nodeLocal then !c.vm && !c.hostNetworkOnly
    else if r.hostNet then c.hostNetworkOnly
    else !c.vm
  }

  lemma InfoSource(c: Settings, v: View, nodes: seq<Node>, running: map<App, Pod>, sel: Selector, info: int, a: App)
    requires Deployed(c, v, nodes, running, 7) && InfoFrom(running, Some(sel), info)
    requires Finds(c, v, Some(sel), a)
    ensures a in running && info == running[a].node
  {
    var b :| b in running && Selects(sel, b) && running[b].node == info;
    assert Wanted(c, v, b);
  }

  /** The selector finds app a and nothing else. */
  ghost predicate Finds(c: Settings, v: View, sel: Option<Selector>, a: App) {
    sel.Some? && Selects(sel.value, a) && forall b :: Selects(sel.value, b) && Wanted(c, v, b) ==> b == a
  }

  lemma ClientFound(c: Settings, v: View, r: Run)
    requires Admitted(c) && !c.externalServer && Permitted(c, r) && NodeInfoHonest(c, r)
    requires c.nodeLocal || v.ncount > 1
    requires Wanted(c, v, ClientApp(c, r))
    ensures Finds(c, v, ClientInfoSelector(c, v, 7), ClientApp(c, r))
  {
  }

  lemma ServerFound(c: Settings, v: View, r: Run)
    requires Admitted(c) && !c.externalServer && Permitted(c, r) && NodeInfoHonest(c, r)
    requires c.nodeLocal || v.ncount > 1
    requires Wanted(c, v, ServerApp(c, r))
    ensures Finds(c, v, ServerInfoSelector(c, v, 7), ServerApp(c, r))
  {
  }

  lemma NodeInfoIsTrue(c: Settings, nodes: seq<Node>, t: State, r: Run)
    requires Measures(c, nodes, t, r) && NodeInfoHonest(c, r)
    ensures NodeInfoTrue(c, t, r)
  {
    Ends(c, nodes, t, r);
    var v := ViewOf(nodes);
    InfosTrue(c, v, nodes, t, r);
  }

  lemma InfosTrue(c: Settings, v: View, nodes: seq<Node>, t: State, r: Run)
    requires Admitted(c) && !c.externalServer && Permitted(c, r) && NodeInfoHonest(c, r)
    requires c.nodeLocal || v.ncount > 1
    requires Progress(c, v, nodes, t, 7) && ClientApp(c, r) in t.running && ServerApp(c, r) in t.running
    ensures t.clientInfo == t.running[ClientApp(c, r)].node && t.serverInfo == t.running[ServerApp(c, r)].node
  {
    assert Wanted(c, v, ClientApp(c, r)) && Wanted(c, v, ServerApp(c, r));
    ClientFound(c, v, r);
    ServerFound(c, v, r);
    InfoSource(c, v, nodes, t.running, ClientInfoSelector(c, v, 7).value, t.clientInfo, ClientApp(c, r));
    InfoSource(c, v, nodes, t.running, ServerInfoSelector(c, v, 7).value, t.serverInfo, ServerApp(c, r));
  }

  /** A legal placement on four workers that keeps the ends of different runs apart. */
  function PickFour(x: App): nat {
    match x
    case DpClient => 0
    case DpClientHost => 3
    case DpClientAcross => 2
    case VmClient => 1
    case DpServerHost => 0
    case DpServer => 0
    case VmServer => 3
  }

  lemma FourFit(c: Settings, nodes: seq<Node>)
    requires |nodes| >= 4 && forall i :: 0 <= i < 4 ==> Schedulable(nodes[i])
    ensures Fits(c, ViewOf(nodes), nodes, PickFour) && Apart(c, PickFour)
  {
  }

  lemma NodeInfoLies(c: Settings, nodes: seq<Node>, r: Run) returns (t: State)
    requires Feasible(c, r) && !NodeInfoHonest(c, r)
    requires |nodes| >= 4 && forall i :: 0 <= i < 4 ==> Schedulable(nodes[i])
    ensures Measures(c, nodes, t, r) && !NodeInfoTrue(c, t, r)
  {
    TwoCounted(nodes, 0, 1);
    FourFit(c, nodes);
    t := PlacedRun(c, nodes, r, PickFour);
    InfosLie(c, ViewOf(nodes), t, r);
  }

  /** The archived node infos of a run belong to its two ends in every cluster and under every placement
      exactly for these settings. */
  lemma NodeInfoExactly(c: Settings, r: Run)
    requires Feasible(c, r)
    ensures (forall nodes, t :: Measures(c, nodes, t, r) ==> NodeInfoTrue(c, t, r)) <==> NodeInfoHonest(c, r)
  {
    if NodeInfoHonest(c, r) {
      forall nodes, t | Measures(c, nodes, t, r) ensures NodeInfoTrue(c, t, r) {
        NodeInfoIsTrue(c, nodes, t, r);
      }
    } else {
      var w := Node(true, false, false, "a");
      var t := NodeInfoLies(c, [w, w, w, w], r);
    }
  }

  lemma InfosLie(c: Settings, v: View, t: State, r: Run)
    requires Feasible(c, r) && !NodeInfoHonest(c, r) && v.ncount > 1
    requires t.running == Placement(c, v, PickFour)
    requires t.clientInfo == InfoOf(t.running, ClientInfoSelector(c, v, 7))
    requires t.serverInfo == InfoOf(t.running, ServerInfoSelector(c, v, 7))
    ensures t.clientInfo != PickFour(ClientApp(c, r)) || t.serverInfo != PickFour(ServerApp(c, r))
  {
  }
}
