/** The states BuildSUT can reach: every state that satisfies the invariant of a completed build is the end of seven
    deployment stages, so a state that makes a label false is one the tool can be in. */
module Reached {
  import opened Config
  import opened Zones
  import opened Servers
  import opened Sut
  import opened Placements

  function AppAt(k: nat): (a: App)
    requires k < 7
    ensures Stage(a) == k
  {
    [DpClient, DpClientHost, DpClientAcross, VmClient, DpServerHost, DpServer, VmServer][k]
  }

  /** Before the first stage; the services and commands, which depend on the settings only, are those of t. */
  function Start(t: State): State {
    State(map[], NO_PODS, NO_PODS, NO_PODS, NO_PODS, NO_PODS, NO_PODS, NO_PODS, t.services, t.commands, -1, -1)
  }

  /** The states between the stages of a build. */
  ghost predicate Stages(c: Settings, v: View, nodes: seq<Node>, states: seq<State>) {
    |states| == 8 && forall k :: 0 <= k < 7 ==> StageStep(c, v, nodes, states[k], states[k + 1], AppAt(k))
  }

  /** A run of the stages that ends in t. */
  ghost predicate Path(c: Settings, v: View, nodes: seq<Node>, states: seq<State>, t: State) {
    Stages(c, v, nodes, states) && states[0] == Start(t) && states[7] == t
  }

  /** What does not depend on the scheduler. */
  ghost predicate Prepared(c: Settings, nodes: seq<Node>, t: State) {
    && !c.externalServer && (c.nodeLocal || NodeCount(nodes) > 1) && BuildSafe(c)
    && ServicesOf(c, {Iperf3, Uperf, Netperf}, t.services)
    && CommandsOf(c.drivers, c.configs, c.ibParams) == Some(t.commands)
  }

  // ---- Every run of the stages ends in a built state ----

  lemma StageProgress(c: Settings, v: View, nodes: seq<Node>, s: State, t: State, a: App)
    requires StageStep(c, v, nodes, s, t, a) && Progress(c, v, nodes, s, Stage(a))
    ensures Progress(c, v, nodes, t, Stage(a) + 1) && t.services == s.services && t.commands == s.commands
  {
    var mid :| DeployedOne(c, v, nodes, s, mid, a) && TookInfos(c, v, mid, t, a);
    ProgressStep(c, v, nodes, s, mid, t, a);
    FiledRest(s.(running := mid.running), a, Of(mid.running, a));
  }

  lemma FiledRest(s: State, a: App, pods: PodList)
    ensures Filed(s, a, pods).services == s.services && Filed(s, a, pods).commands == s.commands
  {
  }

  lemma {:induction false} StagesProgress(c: Settings, v: View, nodes: seq<Node>, states: seq<State>, k: nat)
    requires Stages(c, v, nodes, states) && k <= 7 && Progress(c, v, nodes, states[0], 0)
    ensures Progress(c, v, nodes, states[k], k)
    ensures states[k].services == states[0].services && states[k].commands == states[0].commands
  {
    if k > 0 {
      StagesProgress(c, v, nodes, states, k - 1);
      assert StageStep(c, v, nodes, states[k - 1], states[k - 1 + 1], AppAt(k - 1));
      StageProgress(c, v, nodes, states[k - 1], states[k], AppAt(k - 1));
    }
  }

  lemma StartProgress(c: Settings, v: View, nodes: seq<Node>, t: State)
    requires !c.externalServer
    ensures Progress(c, v, nodes, Start(t), 0)
  {
  }

  // ---- Every built state is reached ----

  /** The pods of the stages below k. */
  function Below(running: map<App, Pod>, k: nat): map<App, Pod> {
    map a | a in running && Stage(a) < k :: running[a]
  }

  /** A node info between the stages: the final one once its selector is final, before that the one of its source. */
  function InfoAt(running: map<App, Pod>, now: Option<Selector>, last: Option<Selector>, info: int): int {
    if now == last then info else InfoOf(running, now)
  }

  function StateAt(c: Settings, v: View, t: State, k: nat): State {
    var b := Below(t.running, k);
    State(b, Of(b, DpClient), Of(b, DpClientHost), Of(b, DpClientAcross), Of(b, VmClient), Of(b, DpServerHost),
          Of(b, DpServer), Of(b, VmServer), t.services, t.commands,
          InfoAt(t.running, ClientInfoSelector(c, v, k), ClientInfoSelector(c, v, 7), t.clientInfo),
          InfoAt(t.running, ServerInfoSelector(c, v, k), ServerInfoSelector(c, v, 7), t.serverInfo))
  }

  lemma HostsBelow(running: map<App, Pod>, k: nat, r: Role, n: nat)
    ensures Hosts(Below(running, k), k, r, n) <==> Hosts(running, k, r, n)
  {
    if Hosts(running, k, r, n) {
      var b :| b in running && Stage(b) < k && RoleOf(b) == r && running[b].node == n;
      assert b in Below(running, k);
    }
  }

  /** Stage by stage, a legal set of pods is put together by legal steps. */
  lemma OneMorePlaced(c: Settings, v: View, nodes: seq<Node>, running: map<App, Pod>, a: App)
    requires Deployed(c, v, nodes, running, 7)
    ensures PlacesOne(c, v, nodes, Below(running, Stage(a)), Below(running, Stage(a) + 1), a)
  {
    var before, after := Below(running, Stage(a)), Below(running, Stage(a) + 1);
    assert forall b: App :: Stage(b) == Stage(a) ==> b == a;
    assert a in running <==> Wanted(c, v, a);
    if a in running {
      assert LegalPod(c, v, nodes, running, a);
      var n := running[a].node;
      forall r { HostsBelow(running, Stage(a), r, n); }
      assert after == before[a := Pod(a, n, DeploymentOf(c, v, a).hostNetwork)];
      assert Admits(DeploymentOf(c, v, a), nodes, before, n);
    } else {
      assert after == before;
    }
  }

  /** A selector is used only after every stage whose pods it selects. */
  lemma SelectedInTime(c: Settings, v: View, k: nat, sel: Selector, b: App)
    requires k <= 7 && (ClientInfoSelector(c, v, k) == Some(sel) || ServerInfoSelector(c, v, k) == Some(sel))
    requires Selects(sel, b)
    ensures Stage(b) < k
  {
  }

  lemma BelowDeployed(c: Settings, v: View, nodes: seq<Node>, running: map<App, Pod>, k: nat)
    requires Deployed(c, v, nodes, running, 7) && k <= 7
    ensures Deployed(c, v, nodes, Below(running, k), k)
    decreases k
  {
    if k > 0 {
      BelowDeployed(c, v, nodes, running, k - 1);
      var a := AppAt(k - 1);
      OneMorePlaced(c, v, nodes, running, a);
      OnePlaced(c, v, nodes, Below(running, k - 1), Below(running, k), a);
    }
  }

  /** An info at stage k is one that could be taken at stage k. */
  lemma InfoInTime(c: Settings, v: View, nodes: seq<Node>, running: map<App, Pod>, k: nat, now: Option<Selector>,
                   last: Option<Selector>, info: int)
    requires Deployed(c, v, nodes, running, 7) && k <= 7 && BuildSafe(c) && (c.nodeLocal || v.ncount > 1)
    requires now.Some? && (now == ClientInfoSelector(c, v, k) || now == ServerInfoSelector(c, v, k))
    requires InfoFrom(running, last, info)
    ensures InfoFrom(Below(running, k), now, InfoAt(running, now, last, info))
  {
    if now == last {
      var b :| b in running && Selects(now.value, b) && running[b].node == info;
      SelectedInTime(c, v, k, now.value, b);
      assert b in Below(running, k);
    } else {
      BelowDeployed(c, v, nodes, running, k);
      InfoAvailable(c, v, nodes, Below(running, k), k, now.value);
      assert Source(now.value) in Below(running, k);
    }
  }

  lemma FiledAt(c: Settings, v: View, t: State, a: App)
    ensures var k := Stage(a);
            var s, after := StateAt(c, v, t, k), StateAt(c, v, t, k + 1);
            Filed(s.(running := after.running), a, Of(after.running, a))
            == after.(clientInfo := s.clientInfo, serverInfo := s.serverInfo)
  {
    var k := Stage(a);
    forall b: App | b != a ensures Of(Below(t.running, k + 1), b) == Of(Below(t.running, k), b) {
      assert Stage(b) != Stage(a);
    }
  }

  lemma InfoSteps(c: Settings, v: View, nodes: seq<Node>, t: State, a: App)
    requires Progress(c, v, nodes, t, 7) && BuildSafe(c) && !c.externalServer && (c.nodeLocal || v.ncount > 1)
    ensures var k := Stage(a);
            var s, after := StateAt(c, v, t, k), StateAt(c, v, t, k + 1);
            TookInfos(c, v, after.(clientInfo := s.clientInfo, serverInfo := s.serverInfo), after, a)
  {
    var k := Stage(a);
    var ck, sk := ClientInfoSelector(c, v, k + 1), ServerInfoSelector(c, v, k + 1);
    if ck.Some? {
      InfoInTime(c, v, nodes, t.running, k + 1, ck, ClientInfoSelector(c, v, 7), t.clientInfo);
    }
    if sk.Some? {
      InfoInTime(c, v, nodes, t.running, k + 1, sk, ServerInfoSelector(c, v, 7), t.serverInfo);
    }
  }

  lemma StageReached(c: Settings, v: View, nodes: seq<Node>, t: State, a: App)
    requires Progress(c, v, nodes, t, 7) && BuildSafe(c) && !c.externalServer && (c.nodeLocal || v.ncount > 1)
    ensures StageStep(c, v, nodes, StateAt(c, v, t, Stage(a)), StateAt(c, v, t, Stage(a) + 1), a)
  {
    var s, after := StateAt(c, v, t, Stage(a)), StateAt(c, v, t, Stage(a) + 1);
    var mid := after.(clientInfo := s.clientInfo, serverInfo := s.serverInfo);
    OneMorePlaced(c, v, nodes, t.running, a);
    FiledAt(c, v, t, a);
    InfoSteps(c, v, nodes, t, a);
    assert DeployedOne(c, v, nodes, s, mid, a);
  }

  lemma EndsAreRight(c: Settings, v: View, nodes: seq<Node>, t: State)
    requires Progress(c, v, nodes, t, 7) && !c.externalServer
    ensures StateAt(c, v, t, 0) == Start(t) && StateAt(c, v, t, 7) == t
  {
    assert Below(t.running, 0) == map[];
    assert Below(t.running, 7) == t.running;
  }

  lemma PathTo(c: Settings, v: View, nodes: seq<Node>, t: State) returns (states: seq<State>)
    requires Progress(c, v, nodes, t, 7) && BuildSafe(c) && !c.externalServer && (c.nodeLocal || v.ncount > 1)
    ensures Path(c, v, nodes, states, t)
  {
    states := seq(8, k requires 0 <= k < 8 => StateAt(c, v, t, k));
    forall k | 0 <= k < 7 ensures StageStep(c, v, nodes, states[k], states[k + 1], AppAt(k)) {
      StageReached(c, v, nodes, t, AppAt(k));
    }
    EndsAreRight(c, v, nodes, t);
  }

  /** With its services and commands prepared, a state is the end of some run of the seven stages exactly when it
      satisfies everything a completed BuildSUT guarantees. */
  lemma BuiltExactly(c: Settings, nodes: seq<Node>, t: State)
    requires Prepared(c, nodes, t)
    ensures Built(c, nodes, t) <==> exists states :: Path(c, ViewOf(nodes), nodes, states, t)
  {
    var v := ViewOf(nodes);
    if Built(c, nodes, t) {
      var states := PathTo(c, v, nodes, t);
    }
    forall states | Path(c, v, nodes, states, t) ensures Built(c, nodes, t) {
      StartProgress(c, v, nodes, t);
      StagesProgress(c, v, nodes, states, 7);
    }
  }

  /** Every arrangement of pods that meets the required terms is the outcome of some run of the stages, and nothing else
      is. */
  lemma ArrangedExactly(c: Settings, nodes: seq<Node>, running: map<App, Pod>)
    requires Buildable(c) && (c.nodeLocal || TwoPlain(nodes))
    ensures Arranged(c, nodes, running)
       <==> exists t, states ::
              Path(c, ViewOf(nodes), nodes, states, t) && Prepared(c, nodes, t) && t.running == running
  {
    NodeCountExactly(nodes);
    DeployedExactly(c, nodes, running);
    if Arranged(c, nodes, running) {
      var t := LegalPossible(c, nodes, running);
      var states := PathTo(c, ViewOf(nodes), nodes, t);
      assert Prepared(c, nodes, t);
    }
    forall t, states | Path(c, ViewOf(nodes), nodes, states, t) && Prepared(c, nodes, t) && t.running == running
      ensures Arranged(c, nodes, running)
    {
      BuiltExactly(c, nodes, t);
    }
  }

  /** In particular every choice of nodes. */
  lemma PlacementReached(c: Settings, nodes: seq<Node>, pick: App -> nat) returns (t: State, states: seq<State>)
    requires Buildable(c) && NodeCount(nodes) > 1 && Fits(c, ViewOf(nodes), nodes, pick) && Apart(c, pick)
    ensures Path(c, ViewOf(nodes), nodes, states, t) && t.running == Placement(c, ViewOf(nodes), pick)
    ensures Prepared(c, nodes, t)
  {
    t := PlacementPossible(c, nodes, pick);
    states := PathTo(c, ViewOf(nodes), nodes, t);
  }
}
