/** What the result list of a finished run says about where its traffic ran. */
module Records {
  import opened Config
  import opened Results
  import opened Zones
  import opened Sut
  import opened Flags
  import opened Sampling
  import opened Runner
  import opened Labels

  /** The nodes and networks of the two ends against the labels of a record. */
  predicate Tells(c: Settings, nodes: seq<Node>, client: Pod, server: Pod, r: Run, d: Data) {
    && (Anchored(c, r) ==> (d.sameNode <==> client.node == server.node))
    && (Anchored(c, r) && d.acrossAZ ==> client.node < |nodes| && server.node < |nodes|
                                         && nodes[client.node].zone != nodes[server.node].zone)
    && (HostNetworkHonest(c, r) <==> client.hostNetwork == server.hostNetwork == d.hostNetwork)
    && (NodeInfoHonest(c, r) ==> d.clientNode == client.node && d.serverNode == server.node)
  }

  /** The run was measured inside the cluster and the record tells where. */
  ghost predicate Truthful(c: Settings, nodes: seq<Node>, t: State, r: Run, d: Data) {
    && Measures(c, nodes, t, r)
    && Tells(c, nodes, ClientPod(c, t, r).value, ServerPod(c, t, r).value, r, d)
  }

  /** A recorded call had both ends. */
  lemma RecordedIsMeasured(c: Settings, nodes: seq<Node>, t: State, r: Run)
    requires Admitted(c) && !c.externalServer && Built(c, nodes, t) && Permitted(c, r)
    requires c.nodeLocal && r.virt ==> NodeCount(nodes) > 1
    requires ServerAddress(c, t, r.nc, r.driver, r.hostNet, r.virt).Some?
    ensures Measures(c, nodes, t, r)
  {
    OriginDeployed(c, nodes, t, r);
    BackendDeployed(c, nodes, t, r);
  }

  lemma LabelsOfRecord(c: Settings, t: State, az: bool, r: Run, d: Data)
    requires Describes(c, t, az, r, d)
    ensures var l := LabelOf(c, t, az, r);
            && d.sameNode == l.sameNode && d.hostNetwork == l.hostNetwork && d.acrossAZ == l.acrossAZ
            && d.clientNode == l.clientNode && d.serverNode == l.serverNode
  {
    assert Measured(d, []).sameNode == d.sameNode;
  }

  lemma RecordIsTruthful(c: Settings, nodes: seq<Node>, t: State, r: Run, d: Data)
    requires Measures(c, nodes, t, r) && Describes(c, t, RunAcross(c, nodes), r, d)
    ensures Truthful(c, nodes, t, r, d)
  {
    LabelsOfRecord(c, t, RunAcross(c, nodes), r, d);
    HostNetworkExactly(c, nodes, t, r);
    if Anchored(c, r) {
      SameNodeIsTrue(c, nodes, t, r);
      if d.acrossAZ {
        AcrossIsTrue(c, nodes, t, r);
      }
    }
    if NodeInfoHonest(c, r) {
      NodeInfoIsTrue(c, nodes, t, r);
    }
  }

  /** Every record of a finished run, in every cluster and under every placement, belongs to a call that had both ends.
      For anchored calls it says truly whether they share a node, and claims different zones only where they are; the
      network and the node infos are true for the settings that decide them. */
  lemma RecordsAreTruthful(c: Settings, nodes: seq<Node>, t: State, script: seq<Attempt>)
    requires Admitted(c) && !c.externalServer && Built(c, nodes, t) && (c.nodeLocal && c.vm ==> TwoPlain(nodes))
    requires RunAll(CallsOf(c, t, RunAcross(c, nodes)), Planned(c), script).fault.None?
    ensures var ds := RunAll(CallsOf(c, t, RunAcross(c, nodes)), Planned(c), script).results;
            var done := Runnable(Planned(c));
            |ds| == |done| && forall i :: 0 <= i < |ds| ==> Truthful(c, nodes, t, done[i], ds[i])
  {
    NodeCountExactly(nodes);
    RecordsMatchPlan(c, t, RunAcross(c, nodes), script);
    var ds := RunAll(CallsOf(c, t, RunAcross(c, nodes)), Planned(c), script).results;
    var done := Runnable(Planned(c));
    forall i | 0 <= i < |ds| ensures Truthful(c, nodes, t, done[i], ds[i]) {
      RecordedIsMeasured(c, nodes, t, done[i]);
      RecordIsTruthful(c, nodes, t, done[i], ds[i]);
    }
  }

  /** From the built cluster to the result list: what RunTests leaves when it finishes is true. */
  method RunTruthfully(s: Session, nodes: seq<Node>) returns (fault: Option<Fault>)
    requires s.next == 0 && s.results == []
    requires Admitted(s.conf) && !s.conf.externalServer && Built(s.conf, nodes, s.state)
    requires s.conf.nodeLocal && s.conf.vm ==> TwoPlain(nodes)
    modifies s`next, s`results
    ensures fault.None? ==>
              && |s.results| == |Runnable(Planned(s.conf))|
              && forall i :: 0 <= i < |s.results| ==>
                   Truthful(s.conf, nodes, s.state, Runnable(Planned(s.conf))[i], s.results[i])
  {
    fault := s.RunTests(nodes);
    if fault.None? {
      RecordsAreTruthful(s.conf, nodes, s.state, s.script);
    }
  }
}
