/** pkg/k8s/kubernetes.go: worker nodes and their zones. */
module Zones {
  /** A node. `worker`, `infra` and `workload` say that the node-role label is present with the
      empty value, which is what every selector of the source asks; `zone` is "" without a label. */
  datatype Node = Node(worker: bool, infra: bool, workload: bool, zone: string)

  /** GetZone: the chosen zone, the node count of each zone, and whether every node had a label. */
  datatype ZoneInfo = ZoneInfo(zone: string, zones: map<string, nat>, labelled: bool)

  /** The node list of the label selector `node-role.kubernetes.io/worker=`. */
  function Workers(nodes: seq<Node>): (ws: seq<Node>)
    ensures forall n :: n in ws <==> n in nodes && n.worker
  {
    if nodes == [] then []
    else Workers(nodes[..|nodes| - 1]) + if nodes[|nodes| - 1].worker then [nodes[|nodes| - 1]] else []
  }

  /** How many nodes lie in the zone. */
  function Population(ns: seq<Node>, zone: string): nat {
    if ns == [] then 0
    else Population(ns[..|ns| - 1], zone) + if ns[|ns| - 1].zone == zone then 1 else 0
  }

  predicate Labelled(ns: seq<Node>) {
    forall i :: 0 <= i < |ns| ==> ns[i].zone != ""
  }

  function ZoneSet(ns: seq<Node>): set<string> {
    set i | 0 <= i < |ns| :: ns[i].zone
  }

  /** The zone of the last node whose zone was already seen. */
  function LastRepeated(ns: seq<Node>): string {
    if ns == [] then ""
    else
      var before, z := ns[..|ns| - 1], ns[|ns| - 1].zone;
      if z in ZoneSet(before) then z else LastRepeated(before)
  }

  /** The zone of the last node that opened a new zone. */
  function LastNew(ns: seq<Node>): string {
    if ns == [] then ""
    else
      var before, z := ns[..|ns| - 1], ns[|ns| - 1].zone;
      if z in ZoneSet(before) then LastNew(before) else z
  }

  method GetZone(nodes: seq<Node>) returns (r: ZoneInfo)
    ensures r == ZoneOf(nodes)
  {
    var zones: map<string, nat> := map[];
    var zone, lz := "", "";
    var items := Workers(nodes);
    for i := 0 to |items|
      invariant Labelled(items[..i])
      invariant Tally(zones, zone, lz) == TallyOf(items[..i])
    {
      var z := items[i].zone;
      if |z| < 1 {
        StoppedAt(nodes, i);
        return ZoneInfo("", zones, false);
      }
      Counted(items, i);
      if z in zones {
        zone := z;
        zones := zones[zone := zones[zone] + 1];
      } else {
        zones := zones[z := 1];
        lz := z;
      }
    }
    assert items[..|items|] == items;
    AllLabelled(nodes);
    if zone == "" {
      zone := lz;
    }
    r := ZoneInfo(zone, zones, true);
  }

  /** The variables of the loop of GetZone. */
  datatype Tally = Tally(zones: map<string, nat>, zone: string, lz: string)

  function Added(t: Tally, z: string): Tally {
    if z in t.zones then Tally(t.zones[z := t.zones[z] + 1], z, t.lz) else Tally(t.zones[z := 1], t.zone, z)
  }

  function TallyOf(ns: seq<Node>): Tally {
    if ns == [] then Tally(map[], "", "") else Added(TallyOf(ns[..|ns| - 1]), ns[|ns| - 1].zone)
  }

  lemma Counted(ns: seq<Node>, i: nat)
    requires i < |ns| && Labelled(ns[..i]) && ns[i].zone != ""
    ensures Labelled(ns[..i + 1]) && TallyOf(ns[..i + 1]) == Added(TallyOf(ns[..i]), ns[i].zone)
  {
    assert ns[..i + 1][..i] == ns[..i];
  }

  lemma StoppedAt(nodes: seq<Node>, i: nat)
    requires i < |Workers(nodes)| && Labelled(Workers(nodes)[..i]) && Workers(nodes)[i].zone == ""
    ensures ZoneOf(nodes) == ZoneInfo("", TallyOf(Workers(nodes)[..i]).zones, false)
  {
    FirstUnlabelled(Workers(nodes), i);
    TallyIs(Workers(nodes)[..i]);
  }

  lemma AllLabelled(nodes: seq<Node>)
    requires Labelled(Workers(nodes))
    ensures var t := TallyOf(Workers(nodes));
            ZoneOf(nodes) == ZoneInfo(if t.zone == "" then t.lz else t.zone, t.zones, true)
  {
    LabelledPrefixWhole(Workers(nodes));
    TallyIs(Workers(nodes));
  }

  function Counts(ns: seq<Node>): map<string, nat> {
    map z | z in ZoneSet(ns) :: Population(ns, z)
  }

  /** The nodes GetZone looks at before it stops. */
  function LabelledPrefix(ns: seq<Node>): (p: seq<Node>)
    ensures Labelled(p)
  {
    if ns == [] then []
    else
      var p := LabelledPrefix(ns[..|ns| - 1]);
      if |p| == |ns| - 1 && ns[|ns| - 1].zone != "" then p + [ns[|ns| - 1]] else p
  }

  function ZoneOf(nodes: seq<Node>): ZoneInfo {
    var ws := Workers(nodes);
    var counts := Counts(LabelledPrefix(ws));
    if !Labelled(ws) then ZoneInfo("", counts, false)
    else ZoneInfo(if LastRepeated(ws) != "" then LastRepeated(ws) else LastNew(ws), counts, true)
  }

  lemma {:induction false} LabelledPrefixWhole(ns: seq<Node>)
    requires Labelled(ns)
    ensures LabelledPrefix(ns) == ns
  {
    if ns != [] {
      LabelledPrefixWhole(ns[..|ns| - 1]);
    }
  }

  lemma {:induction false} FirstUnlabelled(ns: seq<Node>, i: nat)
    requires i < |ns| && Labelled(ns[..i]) && ns[i].zone == ""
    ensures !Labelled(ns) && LabelledPrefix(ns) == ns[..i]
  {
    var before := ns[..|ns| - 1];
    if i == |before| {
      LabelledPrefixWhole(before);
    } else {
      assert before[..i] == ns[..i];
      FirstUnlabelled(before, i);
    }
  }

  lemma {:induction false} Unpopulated(ns: seq<Node>, zone: string)
    ensures Population(ns, zone) > 0 <==> zone in ZoneSet(ns)
  {
    if ns != [] {
      var before := ns[..|ns| - 1];
      Unpopulated(before, zone);
      assert zone in ZoneSet(ns) <==> zone in ZoneSet(before) || zone == ns[|ns| - 1].zone by {
        ZoneSetStep(ns);
      }
    }
  }

  lemma ZoneSetStep(ns: seq<Node>)
    requires ns != []
    ensures ZoneSet(ns) == ZoneSet(ns[..|ns| - 1]) + {ns[|ns| - 1].zone}
  {
    var before := ns[..|ns| - 1];
    forall z | z in ZoneSet(ns) ensures z in ZoneSet(before) + {ns[|ns| - 1].zone} {
      var i :| 0 <= i < |ns| && ns[i].zone == z;
      if i < |before| {
        assert before[i].zone == z;
      }
    }
    forall z | z in ZoneSet(before) ensures z in ZoneSet(ns) {
      var i :| 0 <= i < |before| && before[i].zone == z;
      assert ns[i].zone == z;
    }
  }

  /** What the loop adds up. */
  lemma {:induction false} TallyIs(ns: seq<Node>)
    ensures TallyOf(ns) == Tally(Counts(ns), LastRepeated(ns), LastNew(ns))
  {
    if ns != [] {
      TallyIs(ns[..|ns| - 1]);
      CountsStep(ns);
    }
  }

  lemma CountsStep(ns: seq<Node>)
    requires ns != []
    ensures var seen, z := Counts(ns[..|ns| - 1]), ns[|ns| - 1].zone;
            Counts(ns) == seen[z := if z in seen then seen[z] + 1 else 1]
  {
    ZoneSetStep(ns);
    Unpopulated(ns[..|ns| - 1], ns[|ns| - 1].zone);
  }

  // ---- What the chosen zone tells ----

  lemma {:induction false} RepeatedIsPopulated(ns: seq<Node>)
    requires Labelled(ns)
    ensures LastRepeated(ns) != "" ==> Population(ns, LastRepeated(ns)) > 1
  {
    if ns != [] {
      var before := ns[..|ns| - 1];
      RepeatedIsPopulated(before);
      Unpopulated(before, ns[|ns| - 1].zone);
    }
  }

  lemma {:induction false} NoRepeatNoCompany(ns: seq<Node>, zone: string)
    requires Labelled(ns) && LastRepeated(ns) == ""
    ensures Population(ns, zone) <= 1 && |ZoneSet(ns)| == |ns|
  {
    if ns != [] {
      var before, last := ns[..|ns| - 1], ns[|ns| - 1];
      assert last.zone !in ZoneSet(before);
      NoRepeatNoCompany(before, zone);
      Unpopulated(before, last.zone);
      ZoneSetStep(ns);
    }
  }

  lemma {:induction false} FewZones(ns: seq<Node>)
    requires Labelled(ns)
    ensures |ZoneSet(ns)| <= |ns|
    ensures LastRepeated(ns) != "" ==> |ZoneSet(ns)| < |ns|
  {
    if ns != [] {
      FewZones(ns[..|ns| - 1]);
      ZoneSetStep(ns);
    }
  }

  /** Pigeonhole: the zone GetZone picks holds more than one worker exactly when there are fewer
      zones than workers. The map has every zone with its multiplicity, and these add up to the workers. */
  lemma ChosenZoneShared(nodes: seq<Node>)
    requires Labelled(Workers(nodes)) && Workers(nodes) != []
    ensures var g, ws := ZoneOf(nodes), Workers(nodes);
            && g.zone in g.zones && g.zones.Keys == ZoneSet(ws)
            && (forall z :: z in g.zones ==> g.zones[z] == Population(ws, z))
            && PopulationOf(ws, g.zones.Keys) == |ws|
            && (g.zones[g.zone] > 1 <==> |g.zones.Keys| < |ws|)
  {
    var ws := Workers(nodes);
    LabelledPrefixWhole(ws);
    var g := ZoneOf(nodes);
    assert g.zones.Keys == ZoneSet(ws);
    RepeatedIsPopulated(ws);
    FewZones(ws);
    if LastRepeated(ws) == "" {
      NoRepeatNoCompany(ws, g.zone);
      LastNewIsZone(ws);
    }
    Unpopulated(ws, g.zone);
    EveryoneCounted(ws, ZoneSet(ws));
  }

  ghost function AnyOf(zones: set<string>): (z: string)
    requires zones != {}
    ensures z in zones
  {
    var z :| z in zones;
    z
  }

  /** How many nodes lie in one of the zones, added up zone by zone. */
  ghost function PopulationOf(ns: seq<Node>, zones: set<string>): nat {
    if zones == {} then 0 else Population(ns, AnyOf(zones)) + PopulationOf(ns, zones - {AnyOf(zones)})
  }

  lemma {:induction false} PopulationOfStep(ns: seq<Node>, zones: set<string>)
    requires ns != []
    ensures PopulationOf(ns, zones)
         == PopulationOf(ns[..|ns| - 1], zones) + if ns[|ns| - 1].zone in zones then 1 else 0
    decreases |zones|
  {
    if zones != {} {
      PopulationOfStep(ns, zones - {AnyOf(zones)});
    }
  }

  lemma {:induction false} NobodyCounted(zones: set<string>)
    ensures PopulationOf([], zones) == 0
    decreases |zones|
  {
    if zones != {} {
      NobodyCounted(zones - {AnyOf(zones)});
    }
  }

  lemma {:induction false} EveryoneCounted(ns: seq<Node>, zones: set<string>)
    requires ZoneSet(ns) <= zones
    ensures PopulationOf(ns, zones) == |ns|
    decreases |ns|
  {
    if ns == [] {
      NobodyCounted(zones);
    } else {
      ZoneSetStep(ns);
      EveryoneCounted(ns[..|ns| - 1], zones);
      PopulationOfStep(ns, zones);
    }
  }

  /** There are workers, and all of them have a zone label. */
  predicate AllZoned(nodes: seq<Node>) {
    && (exists i :: 0 <= i < |nodes| && nodes[i].worker)
    && (forall i :: 0 <= i < |nodes| && nodes[i].worker ==> nodes[i].zone != "")
  }

  /** A zone is chosen exactly then. */
  lemma ZonedExactly(nodes: seq<Node>)
    ensures ZoneOf(nodes).zone != "" <==> AllZoned(nodes)
  {
    var ws := Workers(nodes);
    if AllZoned(nodes) {
      var i :| 0 <= i < |nodes| && nodes[i].worker;
      assert nodes[i] in ws;
      forall k | 0 <= k < |ws| ensures ws[k].zone != "" {
        assert ws[k] in ws;
      }
      ChosenZoneNamed(ws);
    } else if ZoneOf(nodes).zone != "" {
      assert ws != [] && Labelled(ws);
      assert ws[0] in ws;
      forall i | 0 <= i < |nodes| && nodes[i].worker ensures nodes[i].zone != "" {
        assert nodes[i] in ws;
      }
    }
  }

  /** The zone of position j occurred before. */
  predicate Repeats(ns: seq<Node>, j: nat) {
    j < |ns| && exists i :: 0 <= i < j && ns[i].zone == ns[j].zone
  }

  lemma RepeatsExactly(ns: seq<Node>)
    requires ns != []
    ensures Repeats(ns, |ns| - 1) <==> ns[|ns| - 1].zone in ZoneSet(ns[..|ns| - 1])
  {
    var before := ns[..|ns| - 1];
    if ns[|ns| - 1].zone in ZoneSet(before) {
      var i :| 0 <= i < |before| && before[i].zone == ns[|ns| - 1].zone;
      assert ns[i].zone == ns[|ns| - 1].zone;
    }
  }

  /** Position j is the last one whose zone occurred before. */
  predicate LastRepeat(ns: seq<Node>, j: nat) {
    Repeats(ns, j) && forall k: nat :: j < k < |ns| ==> !Repeats(ns, k)
  }

  predicate NoRepeat(ns: seq<Node>) {
    forall k: nat :: k < |ns| ==> !Repeats(ns, k)
  }

  lemma {:induction false} LastRepetition(ns: seq<Node>, j: nat)
    requires LastRepeat(ns, j)
    ensures LastRepeated(ns) == ns[j].zone
  {
    RepeatsExactly(ns);
    var before := ns[..|ns| - 1];
    if j < |before| {
      forall k: nat | k < |before| ensures Repeats(before, k) <==> Repeats(ns, k) {
        RepeatsBefore(ns, k);
      }
      LastRepetition(before, j);
    }
  }

  lemma RepeatsBefore(ns: seq<Node>, k: nat)
    requires k < |ns| - 1
    ensures Repeats(ns[..|ns| - 1], k) <==> Repeats(ns, k)
  {
    var before := ns[..|ns| - 1];
    if i :| 0 <= i < k && ns[i].zone == ns[k].zone {
      assert before[i].zone == before[k].zone;
    }
  }

  lemma {:induction false} NoRepetition(ns: seq<Node>)
    requires ns != [] && NoRepeat(ns)
    ensures LastRepeated(ns) == "" && LastNew(ns) == ns[|ns| - 1].zone
  {
    RepeatsExactly(ns);
    var before := ns[..|ns| - 1];
    if before != [] {
      forall k: nat | k < |before| ensures !Repeats(before, k) {
        RepeatsBefore(ns, k);
      }
      NoRepetition(before);
    }
  }

  lemma ChosenRule(nodes: seq<Node>, ws: seq<Node>)
    requires ws == Workers(nodes) && Labelled(ws)
    ensures LastRepeated(ws) != "" ==> ZoneOf(nodes).zone == LastRepeated(ws)
    ensures LastRepeated(ws) == "" ==> ZoneOf(nodes).zone == LastNew(ws)
  {
  }

  /** The chosen zone is that of the last worker whose zone occurred before it; without such a worker it is that of
      the last worker. */
  lemma ChosenZoneExactly(nodes: seq<Node>, j: nat)
    requires Labelled(Workers(nodes)) && j < |Workers(nodes)|
    ensures LastRepeat(Workers(nodes), j) ==> ZoneOf(nodes).zone == Workers(nodes)[j].zone
    ensures NoRepeat(Workers(nodes)) ==> ZoneOf(nodes).zone == Workers(nodes)[|Workers(nodes)| - 1].zone
  {
    var ws := Workers(nodes);
    ChosenRule(nodes, ws);
    if LastRepeat(ws, j) {
      LastRepetition(ws, j);
    }
    if NoRepeat(ws) {
      NoRepetition(ws);
    }
  }

  /** At the first worker without a label nothing is chosen, and the workers before it are counted. */
  lemma UnlabelledStops(nodes: seq<Node>, i: nat)
    requires var ws := Workers(nodes); i < |ws| && ws[i].zone == "" && forall k :: 0 <= k < i ==> ws[k].zone != ""
    ensures var g, seen := ZoneOf(nodes), Workers(nodes)[..i];
            && g.zone == "" && !g.labelled && g.zones.Keys == ZoneSet(seen)
            && forall z :: z in g.zones ==> g.zones[z] == Population(seen, z)
  {
    FirstUnlabelled(Workers(nodes), i);
  }

  lemma {:induction false} LastNewIsZone(ns: seq<Node>)
    requires ns != []
    ensures LastNew(ns) in ZoneSet(ns)
  {
    ZoneSetStep(ns);
    var before := ns[..|ns| - 1];
    if before != [] {
      LastNewIsZone(before);
    }
  }

  lemma {:induction false} ChosenZoneNamed(ns: seq<Node>)
    requires Labelled(ns) && ns != []
    ensures LastNew(ns) != ""
  {
    var before := ns[..|ns| - 1];
    if before != [] {
      ChosenZoneNamed(before);
    }
  }

  /** When the picked zone holds at most one worker, no two workers share a zone. */
  lemma LonelyZones(nodes: seq<Node>, a: nat, b: nat)
    requires Labelled(Workers(nodes)) && a < |nodes| && b < |nodes| && a != b
    requires nodes[a].worker && nodes[b].worker
    requires var g := ZoneOf(nodes); g.zone in g.zones && g.zones[g.zone] <= 1
    ensures nodes[a].zone != nodes[b].zone
  {
    var ws := Workers(nodes);
    LabelledPrefixWhole(ws);
    RepeatedIsPopulated(ws);
    assert LastRepeated(ws) == "";
    NoRepeatNoCompany(ws, nodes[a].zone);
    if nodes[a].zone == nodes[b].zone {
      TwoInZone(nodes, if a < b then a else b, if a < b then b else a, nodes[a].zone);
    }
  }

  predicate WorksIn(n: Node, zone: string) {
    n.worker && n.zone == zone
  }

  lemma {:induction false} OneInZone(nodes: seq<Node>, a: nat, zone: string)
    requires a < |nodes| && WorksIn(nodes[a], zone)
    ensures Population(Workers(nodes), zone) >= 1
  {
    WorkersStep(nodes, zone);
    if a < |nodes| - 1 {
      OneInZone(nodes[..|nodes| - 1], a, zone);
    }
  }

  lemma {:induction false} TwoInZone(nodes: seq<Node>, a: nat, b: nat, zone: string)
    requires a < b < |nodes| && WorksIn(nodes[a], zone) && WorksIn(nodes[b], zone)
    ensures Population(Workers(nodes), zone) >= 2
  {
    WorkersStep(nodes, zone);
    if b == |nodes| - 1 {
      OneInZone(nodes[..|nodes| - 1], a, zone);
    } else {
      TwoInZone(nodes[..|nodes| - 1], a, b, zone);
    }
  }

  lemma {:induction false} OneFound(nodes: seq<Node>, zone: string) returns (a: nat)
    requires Population(Workers(nodes), zone) >= 1
    ensures a < |nodes| && WorksIn(nodes[a], zone)
  {
    WorkersStep(nodes, zone);
    if WorksIn(nodes[|nodes| - 1], zone) {
      a := |nodes| - 1;
    } else {
      a := OneFound(nodes[..|nodes| - 1], zone);
    }
  }

  lemma {:induction false} TwoFound(nodes: seq<Node>, zone: string) returns (a: nat, b: nat)
    requires Population(Workers(nodes), zone) >= 2
    ensures a < b < |nodes| && WorksIn(nodes[a], zone) && WorksIn(nodes[b], zone)
  {
    WorkersStep(nodes, zone);
    if WorksIn(nodes[|nodes| - 1], zone) {
      a := OneFound(nodes[..|nodes| - 1], zone);
      b := |nodes| - 1;
    } else {
      a, b := TwoFound(nodes[..|nodes| - 1], zone);
    }
  }

  /** No two workers lie in one zone. */
  predicate NoSharedZone(nodes: seq<Node>) {
    forall a, b :: 0 <= a < b < |nodes| && nodes[a].worker && nodes[b].worker ==> nodes[a].zone != nodes[b].zone
  }

  /** The picked zone holds at most one worker exactly when no two workers share a zone. */
  lemma LonelyExactly(nodes: seq<Node>)
    requires Labelled(Workers(nodes)) && Workers(nodes) != []
    ensures var g := ZoneOf(nodes);
            g.zone in g.zones && (g.zones[g.zone] <= 1 <==> NoSharedZone(nodes))
  {
    ChosenZoneShared(nodes);
    var g := ZoneOf(nodes);
    if g.zones[g.zone] > 1 {
      var a, b := TwoFound(nodes, g.zone);
    } else {
      forall a, b | 0 <= a < b < |nodes| && nodes[a].worker && nodes[b].worker ensures nodes[a].zone != nodes[b].zone {
        LonelyZones(nodes, a, b);
      }
    }
  }

  lemma WorkersStep(nodes: seq<Node>, zone: string)
    requires nodes != []
    ensures var before, last := nodes[..|nodes| - 1], nodes[|nodes| - 1];
            Population(Workers(nodes), zone)
            == Population(Workers(before), zone) + if WorksIn(last, zone) then 1 else 0
  {
    var before, last := nodes[..|nodes| - 1], nodes[|nodes| - 1];
    if last.worker {
      assert Workers(nodes) == Workers(before) + [last];
      assert Workers(nodes)[..|Workers(nodes)| - 1] == Workers(before);
    } else {
      assert Workers(nodes) == Workers(before);
    }
  }
}
