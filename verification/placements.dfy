/** Building legal placements, to show what the scheduler may do. */
module Placements {
  import opened Config
  import opened Zones
  import opened Servers
  import opened Sut

  /** Every wanted app on the node pick chooses for it. */
  function Placement(c: Settings, v: View, pick: App -> nat): map<App, Pod> {
    map a: App | Wanted(c, v, a) :: Pod(a, pick(a), DeploymentOf(c, v, a).hostNetwork)
  }

  /** The node exists and has the role labels the deployment of app a requires. */
  predicate CanHost(c: Settings, v: View, nodes: seq<Node>, a: App, n: nat) {
    n < |nodes| && (DeploymentOf(c, v, a).onWorker ==> Schedulable(nodes[n]))
  }

  lemma CanHostExactly(c: Settings, v: View, nodes: seq<Node>, a: App, n: nat, hostNetwork: bool)
    requires !c.externalServer
    ensures CanHost(c, v, nodes, a, n) <==> RightNode(nodes, v.zoned, Pod(a, n, hostNetwork))
  {
  }

  predicate Fits(c: Settings, v: View, nodes: seq<Node>, pick: App -> nat) {
    forall a: App :: Wanted(c, v, a) ==> CanHost(c, v, nodes, a, pick(a))
  }

  /** pick respects the required (anti-)affinities. */
  predicate Apart(c: Settings, pick: App -> nat) {
    if c.nodeLocal then
      && pick(DpServer) == pick(DpClient) && pick(DpClientHost) != pick(DpClient)
      && pick(DpClientAcross) != pick(DpClient) && pick(VmClient) != pick(DpClient)
    else
      && pick(DpServerHost) != pick(DpClientHost)
      && pick(DpServer) != pick(DpClientAcross) && pick(DpServer) != pick(VmClient)
      && pick(VmServer) != pick(DpClientAcross) && pick(VmServer) != pick(VmClient)
  }

  lemma PicksAvoid(c: Settings, v: View, pick: App -> nat, a: App, b: App)
    requires !c.externalServer && Apart(c, pick) && Wanted(c, v, a) && Wanted(c, v, b) && Stage(b) < Stage(a)
    requires DeploymentOf(c, v, a).avoid == Some(RoleOf(b))
    ensures pick(a) != pick(b)
  {
    if RoleOf(b) == RoleClientAcross {
      assert a == DpServer || a == VmServer;
    }
  }

  lemma PlacementLegal(c: Settings, v: View, nodes: seq<Node>, pick: App -> nat, a: App)
    requires !c.externalServer && (c.nodeLocal ==> c.pod) && Fits(c, v, nodes, pick) && Apart(c, pick)
    requires Wanted(c, v, a)
    ensures LegalPod(c, v, nodes, Placement(c, v, pick), a)
  {
    var running := Placement(c, v, pick);
    var dp := DeploymentOf(c, v, a);
    if dp.near.Some? {
      assert Wanted(c, v, DpClient) && DpClient in running && running[DpClient].node == pick(a);
      assert Hosts(running, Stage(a), RoleClientLocal, pick(a));
    }
    forall b | dp.avoid.Some? && b in running && Stage(b) < Stage(a) && RoleOf(b) == dp.avoid.value
      ensures running[b].node != pick(a)
    {
      PicksAvoid(c, v, pick, a, b);
    }
  }

  lemma PlacementDeployed(c: Settings, v: View, nodes: seq<Node>, pick: App -> nat)
    requires !c.externalServer && (c.nodeLocal ==> c.pod) && Fits(c, v, nodes, pick) && Apart(c, pick)
    ensures Deployed(c, v, nodes, Placement(c, v, pick), 7)
  {
    var running := Placement(c, v, pick);
    forall a | a in running ensures LegalPod(c, v, nodes, running, a) {
      PlacementLegal(c, v, nodes, pick, a);
    }
    forall a ensures a in running <==> Wanted(c, v, a) && Stage(a) < 7 {
    }
  }

  /** The state BuildSUT leaves with these pods. */
  function StateOf(c: Settings, running: map<App, Pod>, commands: seq<Command>, clientInfo: int, serverInfo: int): State
  {
    State(running, Of(running, DpClient), Of(running, DpClientHost), Of(running, DpClientAcross),
          Of(running, VmClient), Of(running, DpServerHost), Of(running, DpServer), Of(running, VmServer),
          map s: ServiceName | ServiceWanted(c, s) :: ServiceOf(s), commands, clientInfo, serverInfo)
  }

  /** The settings BuildSUT can complete in a cluster of two or more workers. */
  predicate Buildable(c: Settings) {
    !c.externalServer && BuildSafe(c) && CommandsOf(c.drivers, c.configs, c.ibParams).Some?
  }

  lemma PlacementBuilt(c: Settings, nodes: seq<Node>, running: map<App, Pod>, clientInfo: int, serverInfo: int)
    requires Buildable(c) && (c.nodeLocal || NodeCount(nodes) > 1) && Deployed(c, ViewOf(nodes), nodes, running, 7)
    requires InfoFrom(running, ClientInfoSelector(c, ViewOf(nodes), 7), clientInfo)
    requires InfoFrom(running, ServerInfoSelector(c, ViewOf(nodes), 7), serverInfo)
    ensures var commands := CommandsOf(c.drivers, c.configs, c.ibParams).value;
            Built(c, nodes, StateOf(c, running, commands, clientInfo, serverInfo))
  {
    var t := StateOf(c, running, CommandsOf(c.drivers, c.configs, c.ibParams).value, clientInfo, serverInfo);
    assert SafeUpTo(c, ViewOf(nodes), 7) && Listed(t);
    forall s ensures s in t.services <==> DriverOf(s) in {Iperf3, Uperf, Netperf} && ServiceWanted(c, s) {
      assert DriverOf(s) in {Iperf3, Uperf, Netperf};
    }
    assert ServicesOf(c, {Iperf3, Uperf, Netperf}, t.services);
  }

  /** A node info the selector allows: the node of its source, or -1. */
  function InfoOf(running: map<App, Pod>, sel: Option<Selector>): int {
    if sel.Some? && Source(sel.value) in running then running[Source(sel.value)].node else -1
  }

  lemma InfoOfIsLegal(c: Settings, v: View, nodes: seq<Node>, running: map<App, Pod>)
    requires Deployed(c, v, nodes, running, 7) && BuildSafe(c) && !c.externalServer
    requires c.nodeLocal || v.ncount > 1
    ensures var sel := ClientInfoSelector(c, v, 7); InfoFrom(running, sel, InfoOf(running, sel))
    ensures var sel := ServerInfoSelector(c, v, 7); InfoFrom(running, sel, InfoOf(running, sel))
  {
    if ClientInfoSelector(c, v, 7).Some? {
      InfoAvailable(c, v, nodes, running, 7, ClientInfoSelector(c, v, 7).value);
    }
    if ServerInfoSelector(c, v, 7).Some? {
      InfoAvailable(c, v, nodes, running, 7, ServerInfoSelector(c, v, 7).value);
    }
  }

  /** Every legal set of pods satisfies the invariant of a completed BuildSUT; that BuildSUT can choose it is shown in
      Reached. */
  lemma LegalPossible(c: Settings, nodes: seq<Node>, running: map<App, Pod>) returns (t: State)
    requires Buildable(c) && (c.nodeLocal || NodeCount(nodes) > 1) && Deployed(c, ViewOf(nodes), nodes, running, 7)
    ensures Built(c, nodes, t) && t.running == running
    ensures t.clientInfo == InfoOf(t.running, ClientInfoSelector(c, ViewOf(nodes), 7))
    ensures t.serverInfo == InfoOf(t.running, ServerInfoSelector(c, ViewOf(nodes), 7))
  {
    var v := ViewOf(nodes);
    InfoOfIsLegal(c, v, nodes, running);
    var ci, si := InfoOf(running, ClientInfoSelector(c, v, 7)), InfoOf(running, ServerInfoSelector(c, v, 7));
    PlacementBuilt(c, nodes, running, ci, si);
    t := StateOf(c, running, CommandsOf(c.drivers, c.configs, c.ibParams).value, ci, si);
  }

  lemma PlacementPossible(c: Settings, nodes: seq<Node>, pick: App -> nat) returns (t: State)
    requires Buildable(c) && NodeCount(nodes) > 1 && Fits(c, ViewOf(nodes), nodes, pick) && Apart(c, pick)
    ensures Built(c, nodes, t) && t.running == Placement(c, ViewOf(nodes), pick)
    ensures t.clientInfo == InfoOf(t.running, ClientInfoSelector(c, ViewOf(nodes), 7))
    ensures t.serverInfo == InfoOf(t.running, ServerInfoSelector(c, ViewOf(nodes), 7))
  {
    PlacementDeployed(c, ViewOf(nodes), nodes, pick);
    t := LegalPossible(c, nodes, Placement(c, ViewOf(nodes), pick));
  }

  lemma TwoCounted(nodes: seq<Node>, a: nat, b: nat)
    requires a < b < |nodes| && Schedulable(nodes[a]) && Schedulable(nodes[b])
    ensures NodeCount(nodes) > 1
  {
    NodeCountExactly(nodes);
  }
}
