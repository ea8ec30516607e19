/** pkg/k8s/kubernetes.go: BuildSUT deploys the pods and services a run needs. The scheduler is a
    nondeterministic step that honours only the required constraints of a deployment. */
module Sut {
  import opened Config
  import opened Zones
  import opened Servers

  /** The options of PerfScenarios that are fixed before BuildSUT. */
  datatype Settings = Settings(
    hostNetwork: bool,
    hostNetworkOnly: bool,
    nodeLocal: bool,
    acrossAZ: bool,
    externalServer: bool,
    pod: bool,
    vm: bool,
    udn: bool,
    cudn: bool,
    sriov: bool,
    bridge: bool,
    macvlan: bool,
    ibParams: string,
    drivers: seq<Driver>,
    configs: seq<Config>)

  /** Deployments and virtual machines by name; each runs a single pod. */
  datatype App = DpClient | DpClientHost | DpClientAcross | VmClient | DpServerHost | DpServer | VmServer

  function RoleOf(a: App): Role {
    match a
    case DpClient => RoleClientLocal
    case DpClientHost => RoleHostClient
    case DpClientAcross => RoleClientAcross
    case VmClient => RoleClientAcross
    case DpServerHost => RoleHostServer
    case DpServer => RoleServer
    case VmServer => RoleVmServer
  }

  /** The order in which BuildSUT reaches them. */
  function Stage(a: App): nat {
    match a
    case DpClient => 0
    case DpClientHost => 1
    case DpClientAcross => 2
    case VmClient => 3
    case DpServerHost => 4
    case DpServer => 5
    case VmServer => 6
  }

  datatype Pod = Pod(app: App, node: nat, hostNetwork: bool)

  /** The required part of a deployment: worker node affinity, and the role its node must (near) or
      must not (avoid) already host. Preferred terms are not constraints and are not kept. */
  datatype Deployment = Deployment(
    app: App,
    hostNetwork: bool,
    onWorker: bool,
    near: Option<Role>,
    avoid: Option<Role>)

  /** The required node selector of the source. */
  predicate Schedulable(n: Node) {
    n.worker && !n.infra && !n.workload
  }

  /** The size of the node list of `node-role.kubernetes.io/worker=,node-role.kubernetes.io/infra!=`. */
  function NodeCount(nodes: seq<Node>): nat {
    if nodes == [] then 0
    else
      var n := nodes[|nodes| - 1];
      NodeCount(nodes[..|nodes| - 1]) + if n.worker && !n.infra then 1 else 0
  }

  /** Two nodes with the worker label and without the infra label. */
  predicate TwoPlain(nodes: seq<Node>) {
    exists a, b :: 0 <= a < b < |nodes| && nodes[a].worker && !nodes[a].infra && nodes[b].worker && !nodes[b].infra
  }

  /** The node count exceeds one exactly when two such nodes exist. */
  lemma NodeCountExactly(nodes: seq<Node>)
    ensures NodeCount(nodes) > 1 <==> TwoPlain(nodes)
  {
    if NodeCount(nodes) > 1 {
      var a, b := TwoPlainFound(nodes);
    }
    if a, b :| 0 <= a < b < |nodes| && nodes[a].worker && !nodes[a].infra && nodes[b].worker && !nodes[b].infra {
      PlainCounted(nodes, b);
      PlainCounted(nodes[..b], a);
    }
  }

  lemma {:induction false} PlainCounted(nodes: seq<Node>, b: nat)
    requires b < |nodes| && nodes[b].worker && !nodes[b].infra
    ensures NodeCount(nodes) >= NodeCount(nodes[..b]) + 1
  {
    if b < |nodes| - 1 {
      PlainCounted(nodes[..|nodes| - 1], b);
      assert nodes[..|nodes| - 1][..b] == nodes[..b];
    }
  }

  lemma {:induction false} OnePlainFound(nodes: seq<Node>) returns (a: nat)
    requires NodeCount(nodes) >= 1
    ensures a < |nodes| && nodes[a].worker && !nodes[a].infra
  {
    var n := nodes[|nodes| - 1];
    if n.worker && !n.infra {
      a := |nodes| - 1;
    } else {
      a := OnePlainFound(nodes[..|nodes| - 1]);
    }
  }

  lemma {:induction false} TwoPlainFound(nodes: seq<Node>) returns (a: nat, b: nat)
    requires NodeCount(nodes) >= 2
    ensures a < b < |nodes| && nodes[a].worker && !nodes[a].infra && nodes[b].worker && !nodes[b].infra
  {
    var n := nodes[|nodes| - 1];
    if n.worker && !n.infra {
      a := OnePlainFound(nodes[..|nodes| - 1]);
      b := |nodes| - 1;
    } else {
      a, b := TwoPlainFound(nodes[..|nodes| - 1]);
    }
  }

  /** What the deployment plan depends on besides the settings. */
  datatype View = View(zoned: bool, ncount: nat)

  function ViewOf(nodes: seq<Node>): View {
    View(ZoneOf(nodes).zone != "", NodeCount(nodes))
  }

  predicate Wanted(c: Settings, v: View, a: App) {
    if c.externalServer then a == DpClient
    else match a
      case DpClient => c.nodeLocal && c.pod
      case DpClientHost => v.ncount > 1 && c.hostNetwork && c.pod
      case DpClientAcross => v.ncount > 1 && !c.hostNetworkOnly && c.pod
      case VmClient => v.ncount > 1 && !c.hostNetworkOnly && c.vm
      case DpServerHost => v.ncount > 1 && c.pod && c.hostNetwork
      case DpServer => (!c.hostNetworkOnly || c.nodeLocal) && c.pod
      case VmServer => (!c.hostNetworkOnly || c.nodeLocal) && c.vm
  }

  function ServerAvoids(c: Settings, v: View, r: Role): Option<Role> {
    if v.ncount > 1 && !c.nodeLocal then Some(r) else None
  }

  function DeploymentOf(c: Settings, v: View, a: App): Deployment {
    if c.externalServer then Deployment(a, false, true, None, None)
    else match a
      case DpClient => Deployment(a, c.hostNetwork, true, None, None)
      case DpClientHost => Deployment(a, true, true, None, Some(RoleClientLocal))
      case DpClientAcross => Deployment(a, false, v.zoned, None, Some(RoleClientLocal))
      case VmClient => Deployment(a, false, v.zoned, None, Some(RoleClientLocal))
      case DpServerHost => Deployment(a, true, v.zoned, None, ServerAvoids(c, v, RoleHostClient))
      case DpServer => Deployment(a, c.nodeLocal && c.hostNetwork, v.zoned,
                                  if c.nodeLocal then Some(RoleClientLocal) else None,
                                  ServerAvoids(c, v, RoleClientAcross))
      case VmServer => Deployment(a, false, v.zoned, None, ServerAvoids(c, v, RoleClientAcross))
  }

  /** A pod deployed before stage k with role r runs on node n. */
  predicate Hosts(running: map<App, Pod>, k: nat, r: Role, n: nat) {
    exists b :: b in running && Stage(b) < k && RoleOf(b) == r && running[b].node == n
  }

  /** The required constraints of a deployment, checked at node n against the pods deployed before it. */
  predicate Admits(dp: Deployment, nodes: seq<Node>, running: map<App, Pod>, n: nat) {
    && n < |nodes|
    && (dp.onWorker ==> Schedulable(nodes[n]))
    && (dp.near.Some? ==> Hosts(running, Stage(dp.app), dp.near.value, n))
    && (dp.avoid.Some? ==> !Hosts(running, Stage(dp.app), dp.avoid.value, n))
  }

  /** The pod of app a was placed legally. */
  predicate LegalPod(c: Settings, v: View, nodes: seq<Node>, running: map<App, Pod>, a: App)
    requires a in running
  {
    var dp := DeploymentOf(c, v, a);
    running[a] == Pod(a, running[a].node, dp.hostNetwork) && Admits(dp, nodes, running, running[a].node)
  }

  /** The namespace after the deployments of the stages below k. */
  predicate Deployed(c: Settings, v: View, nodes: seq<Node>, running: map<App, Pod>, k: nat) {
    && (forall a {:trigger Wanted(c, v, a)} :: a in running <==> Wanted(c, v, a) && Stage(a) < k)
    && (forall a {:trigger LegalPod(c, v, nodes, running, a)} :: a in running ==> LegalPod(c, v, nodes, running, a))
  }

  /** Where GetPodNodeInfo looks: the pods with a role label, or with an app label. */
  datatype Selector = ByRole(role: Role) | ByApp(app: App)

  predicate Selects(sel: Selector, a: App) {
    match sel
    case ByRole(r) => RoleOf(a) == r
    case ByApp(b) => a == b
  }

  function One(running: map<App, Pod>, sel: Selector, a: App): seq<Pod> {
    if a in running && Selects(sel, a) then [running[a]] else []
  }

  /** GetPods. The API promises no order; only lists with one pod are ever indexed by a run. */
  function GetPods(running: map<App, Pod>, sel: Selector): PodList {
    PodList(One(running, sel, DpClient) + One(running, sel, DpClientHost) + One(running, sel, DpClientAcross)
    + One(running, sel, VmClient) + One(running, sel, DpServerHost) + One(running, sel, DpServer)
    + One(running, sel, VmServer))
  }

  /** Where ClientNodeInfo was last taken from when BuildSUT has passed the stages below k. */
  function ClientInfoSelector(c: Settings, v: View, k: nat): Option<Selector> {
    if c.externalServer then if k > 0 then Some(ByRole(RoleClientLocal)) else None
    else if k > 5 && !c.hostNetworkOnly && c.pod && !c.nodeLocal then Some(ByRole(RoleClientAcross))
    else if k > 3 && v.ncount > 1 && !c.hostNetworkOnly && c.vm then Some(ByApp(VmClient))
    else if k > 1 && v.ncount > 1 && c.hostNetworkOnly && c.hostNetwork then Some(ByRole(RoleHostClient))
    else if k > 0 && c.nodeLocal then Some(ByRole(RoleClientLocal))
    else None
  }

  /** The same for ServerNodeInfo. */
  function ServerInfoSelector(c: Settings, v: View, k: nat): Option<Selector> {
    if c.externalServer then None
    else if k > 6 && (!c.hostNetworkOnly || c.nodeLocal) && c.vm then Some(ByApp(VmServer))
    else if k > 5 && (!c.hostNetworkOnly || c.nodeLocal) && c.pod then Some(ByRole(RoleServer))
    else if k > 4 && v.ncount > 1 && c.hostNetworkOnly && c.hostNetwork then Some(ByRole(RoleHostServer))
    else None
  }

  /** After a node info was taken, or not taken, its selector is the new one, or still the old one. */
  predicate Next(before: Option<Selector>, taken: Option<Selector>, after: Option<Selector>) {
    (after == if taken.Some? then taken else before) && (taken.Some? ==> taken != before)
  }

  predicate InfoFrom(running: map<App, Pod>, sel: Option<Selector>, info: int) {
    if sel.None? then info == -1
    else exists a :: a in running && Selects(sel.value, a) && running[a].node == info
  }

  predicate ServiceWanted(c: Settings, s: ServiceName) {
    !c.externalServer && DriverOf(s) in c.drivers && if ForVm(s) then c.vm else c.pod
  }

  /** The services of the drivers in ds are created as BuildSUT describes them, and no others. */
  predicate ServicesOf(c: Settings, ds: set<Driver>, services: map<ServiceName, Service>) {
    && (forall s :: s in services <==> DriverOf(s) in ds && ServiceWanted(c, s))
    && (forall s :: s in services ==> services[s] == ServiceOf(s))
  }

  /** The fields BuildSUT fills. A node info is a node index, -1 while it is not set. */
  datatype State = State(
    running: map<App, Pod>,
    client: PodList,
    clientHost: PodList,
    clientAcross: PodList,
    vmClientAcross: PodList,
    serverHost: PodList,
    server: PodList,
    vmServer: PodList,
    services: map<ServiceName, Service>,
    commands: seq<Command>,
    clientInfo: int,
    serverInfo: int)

  datatype PodList = PodList(items: seq<Pod>)

  const NO_PODS := PodList([])

  /** The list that names the pod of app a, empty while there is none. */
  function Of(running: map<App, Pod>, a: App): PodList {
    if a in running then PodList([running[a]]) else NO_PODS
  }

  /** Only app a may have been deployed; no other pod came, moved or went. */
  predicate Grown(before: map<App, Pod>, after: map<App, Pod>, a: App) {
    forall b {:trigger Of(after, b)} :: b != a ==> Of(after, b) == Of(before, b)
  }

  /** The pod list field that belongs to app a. */
  function Filed(t: State, a: App, pods: PodList): State {
    match a
    case DpClient => t.(client := pods)
    case DpClientHost => t.(clientHost := pods)
    case DpClientAcross => t.(clientAcross := pods)
    case VmClient => t.(vmClientAcross := pods)
    case DpServerHost => t.(serverHost := pods)
    case DpServer => t.(server := pods)
    case VmServer => t.(vmServer := pods)
  }

  /** The fields that hold pod lists agree with the namespace. */
  predicate Listed(s: State) {
    && s.client == Of(s.running, DpClient) && s.clientHost == Of(s.running, DpClientHost)
    && s.clientAcross == Of(s.running, DpClientAcross) && s.vmClientAcross == Of(s.running, VmClient)
    && s.serverHost == Of(s.running, DpServerHost) && s.server == Of(s.running, DpServer)
    && s.vmServer == Of(s.running, VmServer)
  }

  /** No GetPodNodeInfo of the stages below k has indexed an empty list. */
  predicate SafeUpTo(c: Settings, v: View, k: nat) {
    && (k > 0 && c.nodeLocal && !c.externalServer ==> c.pod)
    && (k > 1 && v.ncount > 1 && c.hostNetworkOnly && c.hostNetwork && !c.externalServer ==> c.pod)
  }

  /** The invariant of BuildSUT between its stages. */
  ghost predicate Progress(c: Settings, v: View, nodes: seq<Node>, s: State, k: nat) {
    && Deployed(c, v, nodes, s.running, k) && Listed(s) && SafeUpTo(c, v, k)
    && InfoFrom(s.running, ClientInfoSelector(c, v, k), s.clientInfo)
    && InfoFrom(s.running, ServerInfoSelector(c, v, k), s.serverInfo)
  }

  /** Everything a completed BuildSUT guarantees about the state it leaves. */
  ghost predicate Built(c: Settings, nodes: seq<Node>, t: State) {
    var v := ViewOf(nodes);
    && (c.externalServer || c.nodeLocal || v.ncount > 1) && BuildSafe(c)
    && Progress(c, v, nodes, t, 7)
    && ServicesOf(c, {Iperf3, Uperf, Netperf}, t.services)
    && (if c.externalServer then t.commands == []
        else CommandsOf(c.drivers, c.configs, c.ibParams) == Some(t.commands))
  }

  // ---- The steps of BuildSUT ----

  /** A wanted deployment puts its pod on some node that admits it; an unwanted one changes nothing. */
  ghost predicate PlacesOne(c: Settings, v: View, nodes: seq<Node>, before: map<App, Pod>, after: map<App, Pod>, a: App)
  {
    if Wanted(c, v, a) then
      exists n: nat :: Admits(DeploymentOf(c, v, a), nodes, before, n)
                       && after == before[a := Pod(a, n, DeploymentOf(c, v, a).hostNetwork)]
    else after == before
  }

  /** A node info is taken anew when its selector changes. */
  predicate InfoStep(before: Option<Selector>, after: Option<Selector>, was: int, now: int, running: map<App, Pod>) {
    if after == before then now == was else InfoFrom(running, after, now)
  }

  /** The pod and its list, and nothing else. */
  ghost predicate DeployedOne(c: Settings, v: View, nodes: seq<Node>, s: State, t: State, a: App) {
    PlacesOne(c, v, nodes, s.running, t.running, a) && t == Filed(s.(running := t.running), a, Of(t.running, a))
  }

  /** The node infos, and nothing else. */
  predicate TookInfos(c: Settings, v: View, s: State, t: State, a: App) {
    && t == s.(clientInfo := t.clientInfo, serverInfo := t.serverInfo)
    && InfoStep(ClientInfoSelector(c, v, Stage(a)), ClientInfoSelector(c, v, Stage(a) + 1), s.clientInfo, t.clientInfo,
                t.running)
    && InfoStep(ServerInfoSelector(c, v, Stage(a)), ServerInfoSelector(c, v, Stage(a) + 1), s.serverInfo, t.serverInfo,
                t.running)
  }

  /** One stage: the pod, its list, then the node infos, and nothing else. */
  ghost predicate StageStep(c: Settings, v: View, nodes: seq<Node>, s: State, t: State, a: App) {
    exists mid :: DeployedOne(c, v, nodes, s, mid, a) && TookInfos(c, v, mid, t, a)
  }

  lemma OnePlaced(c: Settings, v: View, nodes: seq<Node>, before: map<App, Pod>, after: map<App, Pod>, a: App)
    requires Deployed(c, v, nodes, before, Stage(a)) && PlacesOne(c, v, nodes, before, after, a)
    ensures Deployed(c, v, nodes, after, Stage(a) + 1) && Grown(before, after, a) && a !in before
  {
    assert a in before ==> Wanted(c, v, a) && Stage(a) < Stage(a);
    if Wanted(c, v, a) {
      var n: nat :| Admits(DeploymentOf(c, v, a), nodes, before, n)
                    && after == before[a := Pod(a, n, DeploymentOf(c, v, a).hostNetwork)];
      DeployStep(c, v, nodes, before, a, Pod(a, n, DeploymentOf(c, v, a).hostNetwork));
    } else {
      SkipStep(c, v, nodes, before, a);
    }
  }

  /** A stage keeps the invariant, its info about safety aside. */
  lemma AfterDeploy(c: Settings, v: View, nodes: seq<Node>, s: State, t: State, a: App)
    requires Progress(c, v, nodes, s, Stage(a)) && DeployedOne(c, v, nodes, s, t, a)
    ensures Deployed(c, v, nodes, t.running, Stage(a) + 1) && Listed(t)
    ensures t.clientInfo == s.clientInfo && t.serverInfo == s.serverInfo
    ensures InfoFrom(t.running, ClientInfoSelector(c, v, Stage(a)), t.clientInfo)
    ensures InfoFrom(t.running, ServerInfoSelector(c, v, Stage(a)), t.serverInfo)
  {
    OnePlaced(c, v, nodes, s.running, t.running, a);
    ListedStep(s, t.running, a);
    FiledInfos(s.(running := t.running), a, Of(t.running, a));
    InfoStays(s.running, t.running, a, ClientInfoSelector(c, v, Stage(a)), s.clientInfo);
    InfoStays(s.running, t.running, a, ServerInfoSelector(c, v, Stage(a)), s.serverInfo);
  }

  lemma FiledInfos(s: State, a: App, pods: PodList)
    ensures Filed(s, a, pods).clientInfo == s.clientInfo && Filed(s, a, pods).serverInfo == s.serverInfo
    ensures Filed(s, a, pods).running == s.running
  {
  }

  /** A stage keeps the invariant. */
  lemma ProgressStep(c: Settings, v: View, nodes: seq<Node>, s: State, mid: State, t: State, a: App)
    requires Progress(c, v, nodes, s, Stage(a)) && DeployedOne(c, v, nodes, s, mid, a) && TookInfos(c, v, mid, t, a)
    ensures Progress(c, v, nodes, t, Stage(a) + 1)
  {
    AfterDeploy(c, v, nodes, s, mid, a);
    SafeStep(c, v, nodes, t, Stage(a));
  }

  lemma FiledSame(s: State, a: App)
    requires Listed(s)
    ensures Filed(s, a, Of(s.running, a)) == s
  {
  }

  lemma LaterPodsDoNotMatter(c: Settings, v: View, nodes: seq<Node>, running: map<App, Pod>, b: App, a: App, p: Pod)
    requires b in running && Stage(b) <= Stage(a)
    requires LegalPod(c, v, nodes, running, b) && a != b
    ensures LegalPod(c, v, nodes, running[a := p], b)
  {
    forall r | Hosts(running, Stage(b), r, running[b].node)
      ensures Hosts(running[a := p], Stage(b), r, running[b].node)
    {
      var d :| d in running && Stage(d) < Stage(b) && RoleOf(d) == r && running[d].node == running[b].node;
      assert d in running[a := p] && running[a := p][d] == running[d];
    }
  }

  lemma NewPodIsLegal(c: Settings, v: View, nodes: seq<Node>, running: map<App, Pod>, a: App, p: Pod)
    requires p == Pod(a, p.node, DeploymentOf(c, v, a).hostNetwork)
    requires Admits(DeploymentOf(c, v, a), nodes, running, p.node)
    ensures LegalPod(c, v, nodes, running[a := p], a)
  {
    forall r | Hosts(running, Stage(a), r, p.node)
      ensures Hosts(running[a := p], Stage(a), r, p.node)
    {
      var d :| d in running && Stage(d) < Stage(a) && RoleOf(d) == r && running[d].node == p.node;
      assert d in running[a := p] && running[a := p][d] == running[d];
    }
  }

  lemma DeployStep(c: Settings, v: View, nodes: seq<Node>, running: map<App, Pod>, a: App, p: Pod)
    requires Deployed(c, v, nodes, running, Stage(a)) && Wanted(c, v, a)
    requires p == Pod(a, p.node, DeploymentOf(c, v, a).hostNetwork)
    requires Admits(DeploymentOf(c, v, a), nodes, running, p.node)
    ensures Deployed(c, v, nodes, running[a := p], Stage(a) + 1)
  {
    assert a !in running;
    NewPodIsLegal(c, v, nodes, running, a, p);
    forall b | b in running ensures LegalPod(c, v, nodes, running[a := p], b) {
      assert Wanted(c, v, b) && LegalPod(c, v, nodes, running, b);
      LaterPodsDoNotMatter(c, v, nodes, running, b, a, p);
    }
    forall b ensures b in running[a := p] <==> Wanted(c, v, b) && Stage(b) < Stage(a) + 1 {
      assert b in running <==> Wanted(c, v, b) && Stage(b) < Stage(a);
      assert Stage(b) == Stage(a) ==> b == a;
    }
  }

  lemma SkipStep(c: Settings, v: View, nodes: seq<Node>, running: map<App, Pod>, a: App)
    requires Deployed(c, v, nodes, running, Stage(a)) && !Wanted(c, v, a)
    ensures Deployed(c, v, nodes, running, Stage(a) + 1) && a !in running
  {
    assert forall b :: Stage(b) == Stage(a) ==> b == a;
  }

  lemma InfoStays(before: map<App, Pod>, after: map<App, Pod>, a: App, sel: Option<Selector>, info: int)
    requires Grown(before, after, a) && a !in before && InfoFrom(before, sel, info)
    ensures InfoFrom(after, sel, info)
  {
    if sel.Some? {
      var b :| b in before && Selects(sel.value, b) && before[b].node == info;
      assert Of(after, b) == Of(before, b);
    }
  }

  lemma ListedStep(s: State, after: map<App, Pod>, a: App)
    requires Listed(s) && Grown(s.running, after, a)
    ensures Listed(Filed(s.(running := after), a, Of(after, a)))
  {
  }

  lemma OnlyPod(c: Settings, v: View, nodes: seq<Node>, running: map<App, Pod>, sel: Selector, a: App)
    requires Deployed(c, v, nodes, running, Stage(a) + 1) && a in running && Selects(sel, a)
    requires forall b :: Selects(sel, b) && Stage(b) < Stage(a) ==> !Wanted(c, v, b)
    ensures GetPods(running, sel) == Of(running, a)
  {
    forall b | b != a ensures One(running, sel, b) == [] {
      assert b in running ==> Wanted(c, v, b) && Stage(b) != Stage(a);
    }
    assert One(running, sel, a) == [running[a]];
  }

  /** Where a deployment looks for its pod: by role label, for a virtual machine by name. */
  function PodSelector(a: App): Selector {
    if a.VmClient? || a.VmServer? then ByApp(a) else ByRole(RoleOf(a))
  }

  lemma FirstSelected(c: Settings, v: View, a: App)
    ensures Selects(PodSelector(a), a)
    ensures forall b :: Selects(PodSelector(a), b) && Stage(b) < Stage(a) ==> !Wanted(c, v, b)
  {
  }

  /** What a stage is asked to do is what the plan of its app says. */
  predicate IsStage(c: Settings, v: View, wanted: bool, dp: Deployment, clientFrom: Option<Selector>,
                    serverFrom: Option<Selector>) {
    var k := Stage(dp.app);
    && wanted == Wanted(c, v, dp.app) && (wanted ==> dp == DeploymentOf(c, v, dp.app))
    && Next(ClientInfoSelector(c, v, k), clientFrom, ClientInfoSelector(c, v, k + 1))
    && Next(ServerInfoSelector(c, v, k), serverFrom, ServerInfoSelector(c, v, k + 1))
  }

  /** BuildSUT ends normally, returns an error, or indexes an empty pod list. */
  datatype Status = Done | Failed | Panicked

  /** The settings for which GetPodNodeInfo always finds a pod. */
  predicate BuildSafe(c: Settings) {
    c.externalServer || c.pod || (!c.nodeLocal && !(c.hostNetworkOnly && c.hostNetwork))
  }

  /** The pod a node info is taken from, when a list of more than one cannot occur. */
  function Source(sel: Selector): App {
    match sel
    case ByApp(a) => a
    case ByRole(r) =>
      match r
      case RoleClientLocal => DpClient
      case RoleClientAcross => DpClientAcross
      case RoleHostClient => DpClientHost
      case RoleHostServer => DpServerHost
      case RoleServer => DpServer
      case RoleVmServer => VmServer
  }

  /** With safe settings every node info of the stages below k has a pod to come from. */
  lemma InfoAvailable(c: Settings, v: View, nodes: seq<Node>, running: map<App, Pod>, k: nat, sel: Selector)
    requires Deployed(c, v, nodes, running, k) && k <= 7 && BuildSafe(c)
    requires c.externalServer || c.nodeLocal || v.ncount > 1
    requires ClientInfoSelector(c, v, k) == Some(sel) || ServerInfoSelector(c, v, k) == Some(sel)
    ensures Source(sel) in running && Selects(sel, Source(sel))
  {
    assert Wanted(c, v, Source(sel));
  }

  lemma InfoMissing(c: Settings, v: View, nodes: seq<Node>, running: map<App, Pod>, k: nat, sel: Selector)
    requires Deployed(c, v, nodes, running, k) && k <= 7
    requires c.externalServer || c.nodeLocal || v.ncount > 1
    requires ClientInfoSelector(c, v, k) == Some(sel) || ServerInfoSelector(c, v, k) == Some(sel)
    requires forall a :: a in running ==> !Selects(sel, a)
    ensures !BuildSafe(c)
  {
    if BuildSafe(c) {
      InfoAvailable(c, v, nodes, running, k, sel);
    }
  }

  /** A node info taken from a client that only pods mode deploys. */
  lemma SafeStep(c: Settings, v: View, nodes: seq<Node>, s: State, k: nat)
    requires Deployed(c, v, nodes, s.running, k + 1) && SafeUpTo(c, v, k) && k < 7
    ensures InfoFrom(s.running, ClientInfoSelector(c, v, k + 1), s.clientInfo) ==> SafeUpTo(c, v, k + 1)
  {
    if InfoFrom(s.running, ClientInfoSelector(c, v, k + 1), s.clientInfo) && ClientInfoSelector(c, v, k + 1).Some? {
      var sel := ClientInfoSelector(c, v, k + 1).value;
      var a :| a in s.running && Selects(sel, a) && s.running[a].node == s.clientInfo;
      assert Wanted(c, v, a);
    }
  }

  lemma ExternalDone(c: Settings, v: View, nodes: seq<Node>, s: State)
    requires c.externalServer && Progress(c, v, nodes, s, 1)
    ensures Progress(c, v, nodes, s, 7)
  {
    forall a ensures a in s.running <==> Wanted(c, v, a) && Stage(a) < 7 {
      assert a in s.running <==> Wanted(c, v, a) && Stage(a) < 1;
    }
    assert Deployed(c, v, nodes, s.running, 7);
  }

  // ---- What a finished build looks like ----

  predicate SameNode(running: map<App, Pod>, a: App, b: App) {
    a in running && b in running ==> running[a].node == running[b].node
  }

  predicate OtherNode(running: map<App, Pod>, a: App, b: App) {
    a in running && b in running ==> running[a].node != running[b].node
  }

  /** Which pods run; two says whether there are two plain workers. */
  predicate RightPods(c: Settings, two: bool, running: map<App, Pod>) {
    var inside := !c.externalServer;
    && (DpClient in running <==> c.externalServer || (c.nodeLocal && c.pod))
    && (DpClientHost in running <==> inside && two && c.hostNetwork && c.pod)
    && (DpClientAcross in running <==> inside && two && !c.hostNetworkOnly && c.pod)
    && (VmClient in running <==> inside && two && !c.hostNetworkOnly && c.vm)
    && (DpServerHost in running <==> inside && two && c.hostNetwork && c.pod)
    && (DpServer in running <==> inside && (!c.hostNetworkOnly || c.nodeLocal) && c.pod)
    && (VmServer in running <==> inside && (!c.hostNetworkOnly || c.nodeLocal) && c.vm)
  }

  /** The network of a pod. */
  predicate RightNetwork(c: Settings, p: Pod) {
    p.hostNetwork <==>
      p.app in {DpClientHost, DpServerHost}
      || (p.app in {DpClient, DpServer} && c.nodeLocal && c.hostNetwork && !c.externalServer)
  }

  /** Its node exists, and is a usable worker in a zoned cluster; elsewhere only for two of the clients. */
  predicate RightNode(nodes: seq<Node>, zoned: bool, p: Pod) {
    && p.node < |nodes|
    && (zoned || p.app in {DpClient, DpClientHost} ==>
          nodes[p.node].worker && !nodes[p.node].infra && !nodes[p.node].workload)
  }

  predicate RightPlaces(c: Settings, nodes: seq<Node>, zoned: bool, running: map<App, Pod>) {
    forall a :: a in running ==>
      running[a].app == a && RightNetwork(c, running[a]) && RightNode(nodes, zoned, running[a])
  }

  /** Who shares a node with whom. */
  predicate RightNeighbours(c: Settings, running: map<App, Pod>) {
    if c.nodeLocal then
      && SameNode(running, DpServer, DpClient) && OtherNode(running, DpClientHost, DpClient)
      && OtherNode(running, DpClientAcross, DpClient) && OtherNode(running, VmClient, DpClient)
    else
      && OtherNode(running, DpServerHost, DpClientHost)
      && OtherNode(running, DpServer, DpClientAcross) && OtherNode(running, DpServer, VmClient)
      && OtherNode(running, VmServer, DpClientAcross) && OtherNode(running, VmServer, VmClient)
  }

  predicate Arranged(c: Settings, nodes: seq<Node>, running: map<App, Pod>) {
    && RightPods(c, TwoPlain(nodes), running)
    && RightPlaces(c, nodes, AllZoned(nodes), running) && RightNeighbours(c, running)
  }

  predicate NodeIs(running: map<App, Pod>, a: App, info: int) {
    a in running && running[a].node == info
  }

  /** The nodes the archived node infos come from. */
  predicate RightInfos(c: Settings, t: State) {
    && (if DpClientAcross in t.running && !c.nodeLocal then
          NodeIs(t.running, DpClientAcross, t.clientInfo) || NodeIs(t.running, VmClient, t.clientInfo)
        else if VmClient in t.running then NodeIs(t.running, VmClient, t.clientInfo)
        else if DpClientHost in t.running && c.hostNetworkOnly then NodeIs(t.running, DpClientHost, t.clientInfo)
        else if DpClient in t.running then NodeIs(t.running, DpClient, t.clientInfo)
        else t.clientInfo == -1)
    && (if VmServer in t.running then NodeIs(t.running, VmServer, t.serverInfo)
        else if DpServer in t.running then NodeIs(t.running, DpServer, t.serverInfo)
        else if DpServerHost in t.running && c.hostNetworkOnly then NodeIs(t.running, DpServerHost, t.serverInfo)
        else t.serverInfo == -1)
  }

  lemma PodsAreRight(c: Settings, v: View, running: map<App, Pod>)
    requires forall a {:trigger Wanted(c, v, a)} :: a in running <==> Wanted(c, v, a) && Stage(a) < 7
    ensures RightPods(c, v.ncount > 1, running)
  {
    assert DpClient in running <==> Wanted(c, v, DpClient);
    assert DpClientHost in running <==> Wanted(c, v, DpClientHost);
    assert DpClientAcross in running <==> Wanted(c, v, DpClientAcross);
    assert VmClient in running <==> Wanted(c, v, VmClient);
    assert DpServerHost in running <==> Wanted(c, v, DpServerHost);
    assert DpServer in running <==> Wanted(c, v, DpServer);
    assert VmServer in running <==> Wanted(c, v, VmServer);
  }

  lemma LegalIsRight(c: Settings, v: View, nodes: seq<Node>, running: map<App, Pod>, a: App)
    requires RightPods(c, v.ncount > 1, running) && a in running && LegalPod(c, v, nodes, running, a)
    ensures running[a].app == a && RightNetwork(c, running[a]) && RightNode(nodes, v.zoned, running[a])
    ensures Admits(DeploymentOf(c, v, a), nodes, running, running[a].node)
  {
  }

  lemma NeighboursAreRight(c: Settings, v: View, nodes: seq<Node>, running: map<App, Pod>)
    requires RightPods(c, v.ncount > 1, running)
    requires forall a :: a in running ==> Admits(DeploymentOf(c, v, a), nodes, running, running[a].node)
    ensures RightNeighbours(c, running)
  {
  }

  lemma RightIsLegal(c: Settings, v: View, nodes: seq<Node>, running: map<App, Pod>, a: App)
    requires RightPods(c, v.ncount > 1, running) && a in running
    requires running[a].app == a && RightNetwork(c, running[a]) && RightNode(nodes, v.zoned, running[a])
    requires RightNeighbours(c, running)
    ensures LegalPod(c, v, nodes, running, a)
  {
  }

  /** A finished build in words: the right pods, on the right networks and nodes. */
  lemma DeployedExactly(c: Settings, nodes: seq<Node>, running: map<App, Pod>)
    ensures Deployed(c, ViewOf(nodes), nodes, running, 7) <==> Arranged(c, nodes, running)
  {
    var v := ViewOf(nodes);
    NodeCountExactly(nodes);
    ZonedExactly(nodes);
    if Deployed(c, v, nodes, running, 7) {
      DeployedIsRight(c, v, nodes, running);
    }
    if Arranged(c, nodes, running) {
      RightIsDeployed(c, v, nodes, running);
    }
  }

  lemma DeployedIsRight(c: Settings, v: View, nodes: seq<Node>, running: map<App, Pod>)
    requires Deployed(c, v, nodes, running, 7)
    ensures RightPods(c, v.ncount > 1, running)
    ensures RightPlaces(c, nodes, v.zoned, running) && RightNeighbours(c, running)
  {
    PodsAreRight(c, v, running);
    forall a | a in running
      ensures running[a].app == a && RightNetwork(c, running[a]) && RightNode(nodes, v.zoned, running[a])
      ensures Admits(DeploymentOf(c, v, a), nodes, running, running[a].node)
    {
      LegalIsRight(c, v, nodes, running, a);
    }
    NeighboursAreRight(c, v, nodes, running);
  }

  lemma RightIsDeployed(c: Settings, v: View, nodes: seq<Node>, running: map<App, Pod>)
    requires RightPods(c, v.ncount > 1, running)
    requires RightPlaces(c, nodes, v.zoned, running) && RightNeighbours(c, running)
    ensures Deployed(c, v, nodes, running, 7)
  {
    forall a ensures a in running <==> Wanted(c, v, a) && Stage(a) < 7 {
    }
    forall a | a in running ensures LegalPod(c, v, nodes, running, a) {
      RightIsLegal(c, v, nodes, running, a);
    }
  }

  /** The services that exist. */
  predicate RightServiceSet(c: Settings, services: set<ServiceName>) {
    var inside := !c.externalServer;
    && (NetperfService in services <==> inside && Netperf in c.drivers && c.pod)
    && (NetperfVmService in services <==> inside && Netperf in c.drivers && c.vm)
    && (IperfService in services <==> inside && Iperf3 in c.drivers && c.pod)
    && (IperfVmService in services <==> inside && Iperf3 in c.drivers && c.vm)
    && (UperfService in services <==> inside && Uperf in c.drivers && c.pod)
    && (UperfLatService in services <==> inside && Uperf in c.drivers && c.pod)
    && (UperfVmService in services <==> inside && Uperf in c.drivers && c.vm)
    && (UperfLatVmService in services <==> inside && Uperf in c.drivers && c.vm)
  }

  predicate RightServices(c: Settings, services: map<ServiceName, Service>) {
    RightServiceSet(c, services.Keys) && forall s :: s in services ==> RightService(s, services[s])
  }

  lemma ServiceSetIsRight(c: Settings, services: set<ServiceName>)
    requires forall s :: s in services <==> DriverOf(s) in {Iperf3, Uperf, Netperf} && ServiceWanted(c, s)
    ensures RightServiceSet(c, services)
  {
  }

  lemma AllServicesAreRight(c: Settings, services: map<ServiceName, Service>)
    requires ServicesOf(c, {Iperf3, Uperf, Netperf}, services)
    ensures RightServices(c, services)
  {
    ServiceSetIsRight(c, services.Keys);
    forall s | s in services ensures RightService(s, services[s]) {
      ServicesAreRight(s);
    }
  }

  lemma InfosAreRight(c: Settings, v: View, t: State)
    requires RightPods(c, v.ncount > 1, t.running) && BuildSafe(c) && (c.externalServer || c.nodeLocal || v.ncount > 1)
    ensures InfoFrom(t.running, ClientInfoSelector(c, v, 7), t.clientInfo)
            && InfoFrom(t.running, ServerInfoSelector(c, v, 7), t.serverInfo)
       <==> RightInfos(c, t)
  {
  }

  /** Which pods run where and in which fields, which services and server processes exist, and whose nodes are
      archived. */
  ghost predicate Complete(c: Settings, nodes: seq<Node>, t: State) {
    && Arranged(c, nodes, t.running) && Listed(t) && RightInfos(c, t) && RightServices(c, t.services)
    && (if c.externalServer then t.commands == [] else RightCommands(c.drivers, c.configs, c.ibParams, t.commands))
  }

  lemma BuiltIsComplete(c: Settings, nodes: seq<Node>, t: State)
    requires Built(c, nodes, t)
    ensures Complete(c, nodes, t) && (c.externalServer || c.nodeLocal || TwoPlain(nodes))
  {
    NodeCountExactly(nodes);
    DeployedExactly(c, nodes, t.running);
    InfosAreRight(c, ViewOf(nodes), t);
    AllServicesAreRight(c, t.services);
    CommandsAreRight(c.drivers, c.configs, c.ibParams);
  }

  class PerfScenarios {
    const conf: Settings
    const nodes: seq<Node>
    var running: map<App, Pod>
    var client: PodList
    var clientHost: PodList
    var clientAcross: PodList
    var vmClientAcross: PodList
    var serverHost: PodList
    var server: PodList
    var vmServer: PodList
    var services: map<ServiceName, Service>
    var commands: seq<Command>
    var clientInfo: int
    var serverInfo: int

    /** A fresh namespace. */
    constructor (conf: Settings, nodes: seq<Node>)
      ensures this.conf == conf && this.nodes == nodes && Fresh()
    {
      this.conf, this.nodes := conf, nodes;
      running, services, commands := map[], map[], [];
      client, clientHost, clientAcross, vmClientAcross := NO_PODS, NO_PODS, NO_PODS, NO_PODS;
      serverHost, server, vmServer := NO_PODS, NO_PODS, NO_PODS;
      clientInfo, serverInfo := -1, -1;
    }

    function Snapshot(): State
      reads this
    {
      State(running, client, clientHost, clientAcross, vmClientAcross, serverHost, server, vmServer,
            services, commands, clientInfo, serverInfo)
    }

    predicate Fresh()
      reads this
    {
      Snapshot() == State(map[], NO_PODS, NO_PODS, NO_PODS, NO_PODS, NO_PODS, NO_PODS, NO_PODS, map[], [], -1, -1)
    }

    /** deployDeployment: an API error, no node that fits, or one pod on any node that fits. */
    method Deploy(dp: Deployment, sel: Selector, v: View) returns (pods: Option<PodList>)
      requires Deployed(conf, v, nodes, running, Stage(dp.app))
      requires Wanted(conf, v, dp.app) && dp == DeploymentOf(conf, v, dp.app)
      requires Selects(sel, dp.app) && forall b :: Selects(sel, b) && Stage(b) < Stage(dp.app) ==> !Wanted(conf, v, b)
      modifies this`running
      ensures pods.Some? ==> pods.value == Of(running, dp.app)
      ensures pods.Some? ==> PlacesOne(conf, v, nodes, old(running), running, dp.app)
    {
      if * {
        return None;
      }
      if n :| 0 <= n < |nodes| && Admits(dp, nodes, running, n) {
        var p := Pod(dp.app, n, dp.hostNetwork);
        DeployStep(conf, v, nodes, running, dp.app, p);
        running := running[dp.app := p];
        OnlyPod(conf, v, nodes, running, sel, dp.app);
        pods := Some(GetPods(running, sel));
      } else {
        return None;
      }
    }

    /** GetPodNodeInfo: the node of the first listed pod, None for an index into an empty list.
        The list has no promised order, so any of its pods may come first. */
    method GetPodNodeInfo(sel: Selector) returns (info: Option<int>)
      ensures info.None? <==> forall a :: a in running ==> !Selects(sel, a)
      ensures info.Some? ==> InfoFrom(running, Some(sel), info.value)
    {
      if a :| a in running && Selects(sel, a) {
        info := Some(running[a].node);
      } else {
        info := None;
      }
    }

    /** The services of the drivers in ds are created, and no others. */
    ghost predicate Served(ds: set<Driver>)
      reads this
    {
      ServicesOf(conf, ds, services)
    }

    /** `if wanted { field, err = CreateService(sp) }` */
    method CreateWhen(wanted: bool, name: ServiceName, sp: ServiceParams)
      requires sp == ParamsOf(name)
      modifies this`services
      ensures services == if wanted then old(services)[name := ServiceOf(name)] else old(services)
    {
      if wanted {
        var svc := CreateService(sp);
        services := services[name := svc];
      }
    }

    method IperfServices()
      requires Served({}) && !conf.externalServer
      modifies this`services
      ensures Served({Iperf3})
    {
      var wanted := Iperf3 in conf.drivers;
      CreateWhen(wanted && conf.pod, IperfService, ServiceParams(RoleServer, IPERF_CTL, [IPERF_DATA]));
      CreateWhen(wanted && conf.vm, IperfVmService, ServiceParams(RoleVmServer, IPERF_CTL, [IPERF_VM_DATA]));
    }

    method UperfServices()
      requires Served({Iperf3}) && !conf.externalServer
      modifies this`services
      ensures Served({Iperf3, Uperf})
    {
      var wanted := Uperf in conf.drivers;
      CreateWhen(wanted && conf.pod, UperfService, ServiceParams(RoleServer, UPERF_CTL, [UPERF_DATA]));
      CreateWhen(wanted && conf.pod, UperfLatService, ServiceParams(RoleServer, UPERF_LAT_CTL, [UPERF_LAT_DATA]));
      CreateWhen(wanted && conf.vm, UperfVmService, ServiceParams(RoleVmServer, UPERF_CTL, [UPERF_VM_DATA]));
      CreateWhen(wanted && conf.vm, UperfLatVmService, ServiceParams(RoleVmServer, UPERF_LAT_CTL, [UPERF_LAT_VM_DATA]));
    }

    method NetperfServices()
      requires Served({Iperf3, Uperf}) && !conf.externalServer
      modifies this`services
      ensures Served({Iperf3, Uperf, Netperf})
    {
      var wanted := Netperf in conf.drivers;
      var ports := NetperfDataPorts();
      CreateWhen(wanted && conf.pod, NetperfService, ServiceParams(RoleServer, NETPERF_CTL, ports));
      CreateWhen(wanted && conf.vm, NetperfVmService, ServiceParams(RoleVmServer, NETPERF_CTL, ports));
    }

    /** The service block. */
    method BuildServices()
      requires services == map[] && !conf.externalServer
      modifies this`services
      ensures Served({Iperf3, Uperf, Netperf})
    {
      IperfServices();
      UperfServices();
      NetperfServices();
    }

    /** `s.field = pods` */
    method File(a: App, pods: PodList)
      modifies this`client, this`clientHost, this`clientAcross, this`vmClientAcross,
               this`serverHost, this`server, this`vmServer
      ensures Snapshot() == Filed(old(Snapshot()), a, pods)
    {
      match a {
        case DpClient => client := pods;
        case DpClientHost => clientHost := pods;
        case DpClientAcross => clientAcross := pods;
        case VmClient => vmClientAcross := pods;
        case DpServerHost => serverHost := pods;
        case DpServer => server := pods;
        case VmServer => vmServer := pods;
      }
    }

    /** `if wanted { s.field, err = deployDeployment(client, dp) }` */
    method DeployWhen(wanted: bool, dp: Deployment, v: View) returns (ok: bool)
      requires Deployed(conf, v, nodes, running, Stage(dp.app)) && Listed(Snapshot())
      requires wanted == Wanted(conf, v, dp.app) && (wanted ==> dp == DeploymentOf(conf, v, dp.app))
      modifies this`running, this`client, this`clientHost, this`clientAcross, this`vmClientAcross,
               this`serverHost, this`server, this`vmServer
      ensures ok ==> DeployedOne(conf, v, nodes, old(Snapshot()), Snapshot(), dp.app)
    {
      var a := dp.app;
      if !wanted {
        FiledSame(Snapshot(), a);
        return true;
      }
      FirstSelected(conf, v, a);
      var pods := Deploy(dp, PodSelector(a), v);
      if pods.None? {
        return false;
      }
      File(a, pods.value);
      ok := true;
    }

    /** The node infos taken right after the stage of app a, each from the pods of a selector or not at all. */
    method TakeInfos(a: App, v: View, clientFrom: Option<Selector>, serverFrom: Option<Selector>) returns (r: Status)
      requires Deployed(conf, v, nodes, running, Stage(a) + 1)
      requires Next(ClientInfoSelector(conf, v, Stage(a)), clientFrom, ClientInfoSelector(conf, v, Stage(a) + 1))
      requires Next(ServerInfoSelector(conf, v, Stage(a)), serverFrom, ServerInfoSelector(conf, v, Stage(a) + 1))
      requires conf.externalServer || conf.nodeLocal || v.ncount > 1
      modifies this`clientInfo, this`serverInfo
      ensures r == Done ==> TookInfos(conf, v, old(Snapshot()), Snapshot(), a)
      ensures r == Panicked ==> !BuildSafe(conf)
    {
      var k := Stage(a) + 1;
      if serverFrom.Some? {
        var info := GetPodNodeInfo(serverFrom.value);
        if info.None? {
          InfoMissing(conf, v, nodes, running, k, serverFrom.value);
          return Panicked;
        }
        serverInfo := info.value;
      }
      if clientFrom.Some? {
        var info := GetPodNodeInfo(clientFrom.value);
        if info.None? {
          InfoMissing(conf, v, nodes, running, k, clientFrom.value);
          return Panicked;
        }
        clientInfo := info.value;
      }
      r := Done;
    }

    /** One stage: the deployment when it is wanted, then the node infos. */
    method RunStage(wanted: bool, dp: Deployment, clientFrom: Option<Selector>, serverFrom: Option<Selector>, v: View)
      returns (r: Status)
      requires Progress(conf, v, nodes, Snapshot(), Stage(dp.app))
      requires IsStage(conf, v, wanted, dp, clientFrom, serverFrom)
      requires conf.externalServer || conf.nodeLocal || v.ncount > 1
      modifies this`running, this`client, this`clientHost, this`clientAcross, this`vmClientAcross,
               this`serverHost, this`server, this`vmServer, this`clientInfo, this`serverInfo
      ensures r == Done ==> StageStep(conf, v, nodes, old(Snapshot()), Snapshot(), dp.app)
      ensures r == Done ==> Progress(conf, v, nodes, Snapshot(), Stage(dp.app) + 1)
      ensures r == Panicked ==> !BuildSafe(conf)
    {
      var ok := DeployWhen(wanted, dp, v);
      if !ok {
        return Failed;
      }
      ghost var mid := Snapshot();
      AfterDeploy(conf, v, nodes, old(Snapshot()), mid, dp.app);
      r := TakeInfos(dp.app, v, clientFrom, serverFrom);
      if r == Done {
        ProgressStep(conf, v, nodes, old(Snapshot()), mid, Snapshot(), dp.app);
      }
    }

    /** The same for the next stage, with the invariant only. */
    method NextStage(wanted: bool, dp: Deployment, clientFrom: Option<Selector>, serverFrom: Option<Selector>, v: View)
      returns (r: Status)
      requires Progress(conf, v, nodes, Snapshot(), Stage(dp.app))
      requires IsStage(conf, v, wanted, dp, clientFrom, serverFrom)
      requires conf.externalServer || conf.nodeLocal || v.ncount > 1
      modifies this`running, this`client, this`clientHost, this`clientAcross, this`vmClientAcross,
               this`serverHost, this`server, this`vmServer, this`clientInfo, this`serverInfo
      ensures r == Done ==> Progress(conf, v, nodes, Snapshot(), Stage(dp.app) + 1)
      ensures r == Panicked ==> !BuildSafe(conf)
    {
      r := RunStage(wanted, dp, clientFrom, serverFrom, v);
    }

    predicate InCluster(v: View) {
      !conf.externalServer && (conf.nodeLocal || v.ncount > 1)
    }

    /** The client for --local. */
    method LocalClient(v: View) returns (r: Status)
      requires Progress(conf, v, nodes, Snapshot(), 0) && InCluster(v)
      modifies this`running, this`client, this`clientHost, this`clientAcross, this`vmClientAcross,
               this`serverHost, this`server, this`vmServer, this`clientInfo, this`serverInfo
      ensures r == Done ==> Progress(conf, v, nodes, Snapshot(), 1)
      ensures r == Panicked ==> !BuildSafe(conf)
    {
      r := NextStage(conf.nodeLocal && conf.pod, Deployment(DpClient, conf.hostNetwork, true, None, None),
                     if conf.nodeLocal then Some(ByRole(RoleClientLocal)) else None, None, v);
    }

    /** The host network client, away from the local one. */
    method HostClient(v: View) returns (r: Status)
      requires Progress(conf, v, nodes, Snapshot(), 1) && InCluster(v)
      modifies this`running, this`client, this`clientHost, this`clientAcross, this`vmClientAcross,
               this`serverHost, this`server, this`vmServer, this`clientInfo, this`serverInfo
      ensures r == Done ==> Progress(conf, v, nodes, Snapshot(), 2)
      ensures r == Panicked ==> !BuildSafe(conf)
    {
      var cdpHostAcross := Deployment(DpClientHost, true, true, None, Some(RoleClientLocal));
      var only := v.ncount > 1 && conf.hostNetworkOnly && conf.hostNetwork;
      r := NextStage(v.ncount > 1 && conf.hostNetwork && conf.pod, cdpHostAcross,
                     if only then Some(ByRole(RoleHostClient)) else None, None, v);
    }

    /** The pod network client, away from the local one. */
    method AcrossClient(v: View) returns (r: Status)
      requires Progress(conf, v, nodes, Snapshot(), 2) && InCluster(v)
      modifies this`running, this`client, this`clientHost, this`clientAcross, this`vmClientAcross,
               this`serverHost, this`server, this`vmServer, this`clientInfo, this`serverInfo
      ensures r == Done ==> Progress(conf, v, nodes, Snapshot(), 3)
      ensures r == Panicked ==> !BuildSafe(conf)
    {
      var cdpAcross := Deployment(DpClientAcross, false, v.zoned, None, Some(RoleClientLocal));
      r := NextStage(v.ncount > 1 && !conf.hostNetworkOnly && conf.pod, cdpAcross, None, None, v);
    }

    /** launchClientVM */
    method LaunchClientVM(v: View) returns (r: Status)
      requires Progress(conf, v, nodes, Snapshot(), 3) && InCluster(v)
      modifies this`running, this`client, this`clientHost, this`clientAcross, this`vmClientAcross,
               this`serverHost, this`server, this`vmServer, this`clientInfo, this`serverInfo
      ensures r == Done ==> Progress(conf, v, nodes, Snapshot(), 4)
      ensures r == Panicked ==> !BuildSafe(conf)
    {
      var launched := v.ncount > 1 && !conf.hostNetworkOnly && conf.vm;
      r := NextStage(launched, Deployment(VmClient, false, v.zoned, None, Some(RoleClientLocal)),
                     if launched then Some(ByApp(VmClient)) else None, None, v);
    }

    /** The host network server, away from the host network client unless --local. */
    method HostServer(v: View) returns (r: Status)
      requires Progress(conf, v, nodes, Snapshot(), 4) && InCluster(v)
      modifies this`running, this`client, this`clientHost, this`clientAcross, this`vmClientAcross,
               this`serverHost, this`server, this`vmServer, this`clientInfo, this`serverInfo
      ensures r == Done ==> Progress(conf, v, nodes, Snapshot(), 5)
      ensures r == Panicked ==> !BuildSafe(conf)
    {
      var sdpHost := Deployment(DpServerHost, true, v.zoned, None, None);
      if v.ncount > 1 && !conf.nodeLocal {
        sdpHost := sdpHost.(avoid := Some(RoleHostClient));
      }
      var only := v.ncount > 1 && conf.hostNetworkOnly && conf.hostNetwork;
      r := NextStage(v.ncount > 1 && conf.pod && conf.hostNetwork, sdpHost, None,
                     if only then Some(ByRole(RoleHostServer)) else None, v);
    }

    /** The server: next to the client with --local, else away from the pod network client. */
    method PodServer(v: View) returns (r: Status)
      requires Progress(conf, v, nodes, Snapshot(), 5) && InCluster(v)
      modifies this`running, this`client, this`clientHost, this`clientAcross, this`vmClientAcross,
               this`serverHost, this`server, this`vmServer, this`clientInfo, this`serverInfo
      ensures r == Done ==> Progress(conf, v, nodes, Snapshot(), 6)
      ensures r == Panicked ==> !BuildSafe(conf)
    {
      var sdp := Deployment(DpServer, false, v.zoned, None, None);
      if conf.nodeLocal {
        sdp := sdp.(near := Some(RoleClientLocal));
        if conf.hostNetwork {
          sdp := sdp.(hostNetwork := true);
        }
      }
      if v.ncount > 1 && !conf.nodeLocal {
        sdp := sdp.(avoid := Some(RoleClientAcross));
      }
      var wanted := (!conf.hostNetworkOnly || conf.nodeLocal) && conf.pod;
      r := NextStage(wanted, sdp, if wanted && !conf.nodeLocal then Some(ByRole(RoleClientAcross)) else None,
                     if wanted then Some(ByRole(RoleServer)) else None, v);
    }

    /** launchServerVM, with the anti-affinity of the server */
    method LaunchServerVM(v: View) returns (r: Status)
      requires Progress(conf, v, nodes, Snapshot(), 6) && InCluster(v)
      modifies this`running, this`client, this`clientHost, this`clientAcross, this`vmClientAcross,
               this`serverHost, this`server, this`vmServer, this`clientInfo, this`serverInfo
      ensures r == Done ==> Progress(conf, v, nodes, Snapshot(), 7)
      ensures r == Panicked ==> !BuildSafe(conf)
    {
      var wanted := (!conf.hostNetworkOnly || conf.nodeLocal) && conf.vm;
      var avoid := if v.ncount > 1 && !conf.nodeLocal then Some(RoleClientAcross) else None;
      r := NextStage(wanted, Deployment(VmServer, false, v.zoned, None, avoid), None,
                     if wanted then Some(ByApp(VmServer)) else None, v);
    }

    method DeployClients(v: View) returns (r: Status)
      requires Progress(conf, v, nodes, Snapshot(), 1) && InCluster(v)
      modifies this`running, this`client, this`clientHost, this`clientAcross, this`vmClientAcross,
               this`serverHost, this`server, this`vmServer, this`clientInfo, this`serverInfo
      ensures r == Done ==> Progress(conf, v, nodes, Snapshot(), 4)
      ensures r == Panicked ==> !BuildSafe(conf)
    {
      r := HostClient(v);
      if r != Done { return; }
      r := AcrossClient(v);
      if r != Done { return; }
      r := LaunchClientVM(v);
    }

    method DeployServers(v: View) returns (r: Status)
      requires Progress(conf, v, nodes, Snapshot(), 4) && InCluster(v)
      modifies this`running, this`client, this`clientHost, this`clientAcross, this`vmClientAcross,
               this`serverHost, this`server, this`vmServer, this`clientInfo, this`serverInfo
      ensures r == Done ==> Progress(conf, v, nodes, Snapshot(), 7)
      ensures r == Panicked ==> !BuildSafe(conf)
    {
      r := HostServer(v);
      if r != Done { return; }
      r := PodServer(v);
      if r != Done { return; }
      r := LaunchServerVM(v);
    }

    /** Clients, services, server commands and servers, in the order of the source. */
    method BuildInCluster(v: View) returns (r: Status)
      requires Progress(conf, v, nodes, Snapshot(), 0) && services == map[] && InCluster(v)
      modifies this
      ensures r == Done ==> Progress(conf, v, nodes, Snapshot(), 7)
      ensures r == Done ==> ServicesOf(conf, {Iperf3, Uperf, Netperf}, services)
      ensures r == Done ==> CommandsOf(conf.drivers, conf.configs, conf.ibParams) == Some(commands)
      ensures r == Panicked ==> !BuildSafe(conf)
    {
      r := LocalClient(v);
      if r != Done { return; }
      if * { return Failed; }
      BuildServices();
      r := DeployClients(v);
      if r != Done { return; }
      var cmds := ServerCommands(conf.drivers, conf.configs, conf.ibParams);
      if cmds.None? { return Failed; }
      commands := cmds.value;
      r := DeployServers(v);
    }

    /** The client of an external server. */
    method BuildExternal() returns (r: Status)
      requires Fresh() && conf.externalServer
      modifies this
      ensures r == Done ==> Built(conf, nodes, Snapshot())
      ensures r == Panicked ==> !BuildSafe(conf)
    {
      r := NextStage(true, Deployment(DpClient, false, true, None, None), Some(ByRole(RoleClientLocal)), None,
                     ViewOf(nodes));
      if r == Done {
        ExternalDone(conf, ViewOf(nodes), nodes, Snapshot());
      }
    }

    /** Zones and node count, then the deployments. */
    method BuildInside() returns (r: Status)
      requires Fresh() && !conf.externalServer
      modifies this
      ensures r == Done ==> Built(conf, nodes, Snapshot())
      ensures !conf.nodeLocal && NodeCount(nodes) < 2 ==> r == Failed
      ensures conf.acrossAZ && |ZoneOf(nodes).zones| < 2 ==> r == Failed
      ensures r == Panicked ==> !BuildSafe(conf)
    {
      var z := GetZone(nodes);
      if |z.zones| < 2 && conf.acrossAZ { return Failed; }
      var ncount := NodeCount(nodes);
      if !conf.nodeLocal && ncount < 2 { return Failed; }
      r := BuildInCluster(View(z.zone != "", ncount));
    }

    /** BuildSUT */
    method BuildSUT() returns (r: Status)
      requires Fresh()
      modifies this
      ensures r == Done ==> Built(conf, nodes, Snapshot()) && Complete(conf, nodes, Snapshot())
      ensures !conf.externalServer && !conf.nodeLocal && !TwoPlain(nodes) ==> r == Failed
      ensures !conf.externalServer && conf.acrossAZ && |ZoneOf(nodes).zones| < 2 ==> r == Failed
      ensures r == Panicked ==> !BuildSafe(conf)
    {
      if conf.externalServer {
        r := BuildExternal();
      } else {
        NodeCountExactly(nodes);
        r := BuildInside();
      }
      if r == Done {
        BuiltIsComplete(conf, nodes, Snapshot());
      }
    }
  }
}
