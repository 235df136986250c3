/** The declarative side of the topology device plugins: which resource should be served on which NUMA node. */
module Topology {
  import opened Kube
  import opened Naming
  import opened NumaTable

  /** The bridge has a recorded interface, and all of them are on node n. */
  ghost predicate OnNode(numa: Numa, bridge: string, n: int) {
    bridge in numa && numa[bridge] != map[] && forall u :: u in numa[bridge] ==> numa[bridge][u] == n
  }

  lemma OnNodeIff(numa: Numa, bridge: string, n: int)
    ensures OnNode(numa, bridge, n) <==> NodesAt(numa, bridge) == {n}
  {
    if OnNode(numa, bridge, n) {
      var u :| u in numa[bridge];
      assert numa[bridge][u] in numa[bridge].Values;
    }
    if NodesAt(numa, bridge) == {n} {
      assert n in NodesAt(numa, bridge);
      forall u | u in numa[bridge] ensures numa[bridge][u] == n {
        assert numa[bridge][u] in numa[bridge].Values;
      }
    }
  }

  /** Every bridge of a non-empty group is on the same valid node n. */
  ghost predicate SharedNode(numa: Numa, bridges: set<string>, n: int) {
    n >= 0 && bridges != {} && forall b :: b in bridges ==> OnNode(numa, b, n)
  }

  function BridgesOf(topology: map<string, string>, resource: string): set<string> {
    set b | b in topology && topology[b] == resource
  }

  /** The specification: resource r is to be served on node n. */
  ghost predicate Wanted(topology: map<string, string>, numa: Numa, r: string, n: int) {
    SharedNode(numa, BridgesOf(topology, r), n)
  }

  /** The shared node of a group, or -1. */
  ghost function GroupNode(numa: Numa, bridges: set<string>): (n: int)
    ensures n >= 0 ==> SharedNode(numa, bridges, n)
    ensures n < 0 ==> n == -1 && forall k :: !SharedNode(numa, bridges, k)
  {
    if k :| SharedNode(numa, bridges, k) then k else -1
  }

  lemma SharedNodeUnique(numa: Numa, bridges: set<string>, n: int, n': int)
    requires SharedNode(numa, bridges, n) && SharedNode(numa, bridges, n')
    ensures n == n'
  {
    var b :| b in bridges;
    assert OnNode(numa, b, n) && OnNode(numa, b, n');
    var u :| u in numa[b];
  }

  lemma GroupNodeIs(numa: Numa, bridges: set<string>, n: int)
    ensures SharedNode(numa, bridges, n) <==> n >= 0 && GroupNode(numa, bridges) == n
  {
    if SharedNode(numa, bridges, n) {
      SharedNodeUnique(numa, bridges, n, GroupNode(numa, bridges));
    }
  }

  ghost function DesiredNode(topology: map<string, string>, numa: Numa, r: string): int {
    GroupNode(numa, BridgesOf(topology, r))
  }

  // ---------------------------------------------------------------------------
  // The topology map of a bridge list
  // ---------------------------------------------------------------------------

  /** The map UpdateResources builds; None when a bridge is given two different resources. */
  function BuildTopology(bridges: seq<BridgeSpec>): Option<map<string, string>> {
    if bridges == [] then Some(map[])
    else
      var n := |bridges| - 1;
      var before, b := BuildTopology(bridges[..n]), bridges[n];
      if before.None? || b.topologyResource == "" then before
      else if b.name in before.value && before.value[b.name] != ResourceName(b.topologyResource) then None
      else Some(before.value[b.name := ResourceName(b.topologyResource)])
  }

  ghost predicate MapsTo(m: map<string, string>, k: string, r: string) {
    k in m && m[k] == r
  }

  /** Some entry gives bridge k the topology resource r. */
  ghost predicate Lists(bridges: seq<BridgeSpec>, k: string, r: string) {
    exists b :: b in bridges && b.name == k && b.topologyResource != "" && ResourceName(b.topologyResource) == r
  }

  lemma ListsSnoc(bridges: seq<BridgeSpec>, k: string, r: string)
    requires bridges != []
    ensures var n := |bridges| - 1;
            Lists(bridges, k, r) <==> Lists(bridges[..n], k, r) || Lists([bridges[n]], k, r)
  {
    var n := |bridges| - 1;
    assert bridges == bridges[..n] + [bridges[n]];
  }

  /** The built map relates exactly the listed bridges that have a topology resource to that resource, and there is none
      exactly when some bridge is listed with two. */
  lemma {:induction false} BuiltTopology(bridges: seq<BridgeSpec>)
    ensures BuildTopology(bridges).None? <==> exists k, r, t :: Lists(bridges, k, r) && Lists(bridges, k, t) && r != t
    ensures BuildTopology(bridges).Some? ==>
              forall k, r :: MapsTo(BuildTopology(bridges).value, k, r) <==> Lists(bridges, k, r)
  {
    if bridges != [] {
      var n := |bridges| - 1;
      var init, last := bridges[..n], bridges[n];
      BuiltTopology(init);
      var before, res := BuildTopology(init), ResourceName(last.topologyResource);
      forall k, r
        ensures Lists(bridges, k, r)
           <==> Lists(init, k, r) || (k == last.name && last.topologyResource != "" && r == res)
      {
        ListsSnoc(bridges, k, r);
        assert last in [last];
      }
      if before.None? {
        var k, r, t :| Lists(init, k, r) && Lists(init, k, t) && r != t;
        assert Lists(bridges, k, r) && Lists(bridges, k, t);
      } else if BuildTopology(bridges).None? {
        assert MapsTo(before.value, last.name, before.value[last.name]);
        assert Lists(bridges, last.name, res) && Lists(bridges, last.name, before.value[last.name]);
      } else {
        var m := BuildTopology(bridges).value;
        forall k, r ensures MapsTo(m, k, r) <==> Lists(bridges, k, r) {
          assert MapsTo(before.value, k, r) <==> Lists(init, k, r);
        }
      }
    }
  }

  // ---------------------------------------------------------------------------
  // From the nodes served before to the nodes served after
  // ---------------------------------------------------------------------------

  function NodeAt(nodes: map<string, int>, r: string): Option<int> {
    if r in nodes then Some(nodes[r]) else None
  }

  /** What ensureServer makes of a resource: it is served on the wanted node, unless the start it needed failed. */
  function Settle(before: Option<int>, want: int, fails: bool): Option<int> {
    if want >= 0 && (!fails || before == Some(want)) then Some(want) else None
  }

  predicate Ensured(nodes: map<string, int>, nodes': map<string, int>, r: string, want: int, fails: bool) {
    NodeAt(nodes', r) == Settle(NodeAt(nodes, r), want, fails)
  }

  /** A start was needed and failed. */
  predicate StartFailed(before: Option<int>, want: int, fails: bool) {
    fails && want >= 0 && before != Some(want)
  }

  /** What UpdateResources does to all resources, whatever the order it takes them in. */
  ghost predicate Reconciled(nodes: map<string, int>, nodes': map<string, int>,
                             topology: map<string, string>, numa: Numa, failing: set<string>) {
    && (forall r :: r in topology.Values ==> Ensured(nodes, nodes', r, DesiredNode(topology, numa, r), r in failing))
    && (forall r :: r !in topology.Values ==> r !in nodes')
  }

  /** Resource r is served as specified. */
  ghost predicate Served(nodes: map<string, int>, topology: map<string, string>, numa: Numa, r: string) {
    forall n :: NodeAt(nodes, r) == Some(n) <==> Wanted(topology, numa, r, n)
  }

  /** Resource r has no server on a node that is not wanted. */
  ghost predicate OnlyWanted(nodes: map<string, int>, topology: map<string, string>, numa: Numa, r: string) {
    r in nodes ==> Wanted(topology, numa, r, nodes[r])
  }

  ghost predicate Matches(nodes: map<string, int>, topology: map<string, string>, numa: Numa) {
    forall r :: Served(nodes, topology, numa, r)
  }

  lemma MatchesUnique(nodes: map<string, int>, nodes': map<string, int>, topology: map<string, string>, numa: Numa)
    requires Matches(nodes, topology, numa) && Matches(nodes', topology, numa)
    ensures nodes == nodes'
  {
    forall r ensures NodeAt(nodes, r) == NodeAt(nodes', r) {
      assert Served(nodes, topology, numa, r) && Served(nodes', topology, numa, r);
      if r in nodes {
        assert NodeAt(nodes, r) == Some(nodes[r]) && Wanted(topology, numa, r, nodes[r]);
      }
      if r in nodes' {
        assert NodeAt(nodes', r) == Some(nodes'[r]) && Wanted(topology, numa, r, nodes'[r]);
      }
    }
    forall r ensures r in nodes <==> r in nodes' {
      assert NodeAt(nodes, r) == NodeAt(nodes', r);
    }
    forall r | r in nodes ensures nodes[r] == nodes'[r] {
      assert NodeAt(nodes, r) == NodeAt(nodes', r);
    }
  }

  lemma EnsuredServes(nodes: map<string, int>, nodes': map<string, int>, topology: map<string, string>, numa: Numa,
                      r: string, fails: bool)
    requires Ensured(nodes, nodes', r, DesiredNode(topology, numa, r), fails)
    ensures Served(nodes', topology, numa, r) <==> !StartFailed(NodeAt(nodes, r), DesiredNode(topology, numa, r), fails)
    ensures OnlyWanted(nodes', topology, numa, r)
    ensures StartFailed(NodeAt(nodes, r), DesiredNode(topology, numa, r), fails) ==> r !in nodes'
  {
    var want := DesiredNode(topology, numa, r);
    forall n ensures Wanted(topology, numa, r, n) <==> n >= 0 && want == n {
      GroupNodeIs(numa, BridgesOf(topology, r), n);
    }
    if StartFailed(NodeAt(nodes, r), want, fails) {
      assert Wanted(topology, numa, r, want) && NodeAt(nodes', r) == None;
    }
  }

  lemma UnmappedUnserved(nodes: map<string, int>, topology: map<string, string>, numa: Numa, r: string)
    requires r !in topology.Values
    ensures Served(nodes, topology, numa, r) <==> r !in nodes
  {
    assert BridgesOf(topology, r) == {};
    if r in nodes {
      assert NodeAt(nodes, r) == Some(nodes[r]) && !Wanted(topology, numa, r, nodes[r]);
    }
  }

  /** Server end state: whatever ran before, a resource ends up served as specified exactly when no start it needed
      failed; if one did, it has no server at all. */
  lemma ReconciledServes(nodes: map<string, int>, nodes': map<string, int>, topology: map<string, string>, numa: Numa,
                         failing: set<string>, r: string)
    requires Reconciled(nodes, nodes', topology, numa, failing)
    ensures Served(nodes', topology, numa, r)
       <==> !(r in topology.Values && StartFailed(NodeAt(nodes, r), DesiredNode(topology, numa, r), r in failing))
    ensures !Served(nodes', topology, numa, r) ==> r !in nodes'
    ensures OnlyWanted(nodes', topology, numa, r)
  {
    if r in topology.Values {
      EnsuredServes(nodes, nodes', topology, numa, r, r in failing);
    } else {
      UnmappedUnserved(nodes', topology, numa, r);
    }
  }

  /** Only bridge b differs between two tables. */
  ghost predicate DiffersOnlyAt(numa: Numa, numa': Numa, b: string) {
    forall x :: x != b ==> (x in numa <==> x in numa') && (x in numa ==> numa[x] == numa'[x])
  }

  lemma OtherResourcesUnaffected(topology: map<string, string>, numa: Numa, numa': Numa, b: string, r: string, n: int)
    requires DiffersOnlyAt(numa, numa', b) && (b in topology ==> topology[b] != r)
    ensures Wanted(topology, numa, r, n) <==> Wanted(topology, numa', r, n)
  {
    forall x | x in BridgesOf(topology, r) ensures OnNode(numa, x, n) <==> OnNode(numa', x, n) {
      assert x != b;
    }
  }

  /** What OnInterfaceChange(b) does: ensure the one resource of b. */
  ghost predicate Refreshed(nodes: map<string, int>, nodes': map<string, int>, topology: map<string, string>,
                            numa: Numa, b: string, fails: bool) {
    if b !in topology then nodes' == nodes
    else
      && Ensured(nodes, nodes', topology[b], DesiredNode(topology, numa, topology[b]), fails)
      && forall r :: r != topology[b] ==> NodeAt(nodes', r) == NodeAt(nodes, r)
  }

  /** A resource whose servers and whose bridges' entries did not change is served as before. */
  lemma UnaffectedServed(nodes: map<string, int>, nodes': map<string, int>, topology: map<string, string>,
                         numa: Numa, numa': Numa, b: string, r: string)
    requires DiffersOnlyAt(numa, numa', b) && (b in topology ==> topology[b] != r)
    requires NodeAt(nodes', r) == NodeAt(nodes, r)
    ensures Served(nodes', topology, numa', r) <==> Served(nodes, topology, numa, r)
    ensures OnlyWanted(nodes', topology, numa', r) <==> OnlyWanted(nodes, topology, numa, r)
  {
    forall n ensures Wanted(topology, numa, r, n) <==> Wanted(topology, numa', r, n) {
      OtherResourcesUnaffected(topology, numa, numa', b, r, n);
    }
  }

  /** After an interface change on b that was notified: the resource of b is served as specified, or its start failed
      and it has no server; every other resource is served as before. */
  lemma RefreshKeepsServed(nodes: map<string, int>, nodes': map<string, int>, topology: map<string, string>,
                           numa: Numa, numa': Numa, b: string, fails: bool, r: string)
    requires DiffersOnlyAt(numa, numa', b) && Refreshed(nodes, nodes', topology, numa', b, fails)
    ensures b in topology && topology[b] == r ==>
              && (Served(nodes', topology, numa', r)
                  <==> !StartFailed(NodeAt(nodes, r), DesiredNode(topology, numa', r), fails))
              && (!Served(nodes', topology, numa', r) ==> r !in nodes')
              && OnlyWanted(nodes', topology, numa', r)
    ensures (b in topology ==> topology[b] != r) ==>
              && (Served(nodes', topology, numa', r) <==> Served(nodes, topology, numa, r))
              && (OnlyWanted(nodes', topology, numa', r) <==> OnlyWanted(nodes, topology, numa, r))
              && NodeAt(nodes', r) == NodeAt(nodes, r)
  {
    if b in topology && topology[b] == r {
      EnsuredServes(nodes, nodes', topology, numa', r, fails);
    } else {
      UnaffectedServed(nodes, nodes', topology, numa, numa', b, r);
    }
  }

  /** Incremental equals full: from matching servers, after only bridge b's entries changed, refreshing b and a full
      update give the same map of resources to nodes. */
  lemma IncrementalEqualsFull(nodes: map<string, int>, incremental: map<string, int>, full: map<string, int>,
                              topology: map<string, string>, numa: Numa, numa': Numa, b: string)
    requires Matches(nodes, topology, numa) && DiffersOnlyAt(numa, numa', b)
    requires Refreshed(nodes, incremental, topology, numa', b, false)
    requires Reconciled(nodes, full, topology, numa', {})
    ensures Matches(incremental, topology, numa') && incremental == full
  {
    forall r ensures Served(incremental, topology, numa', r) && Served(full, topology, numa', r) {
      assert Served(nodes, topology, numa, r);
      RefreshKeepsServed(nodes, incremental, topology, numa, numa', b, false, r);
      ReconciledServes(nodes, full, topology, numa', {}, r);
    }
    MatchesUnique(incremental, full, topology, numa');
  }

  // ---------------------------------------------------------------------------
  // Whole runs of the manager
  // ---------------------------------------------------------------------------

  /** The manager with the table it reads.  `down` and `missed` are history: the resources whose latest start failed or
      whose server StopAll stopped, and those of which a bridge changed without a notification since they were last
      looked at. */
  datatype System = System(topology: map<string, string>, nodes: map<string, int>, numa: Numa,
                           down: set<string>, missed: set<string>)

  datatype SystemOp =
    | Update(bridges: seq<BridgeSpec>, failing: set<string>)
    | OvsEvent(event: Event, startFails: bool)
    | StopServers

  ghost function FailedStarts(nodes: map<string, int>, topology: map<string, string>, numa: Numa,
                              failing: set<string>): set<string> {
    set r | r in topology.Values && StartFailed(NodeAt(nodes, r), DesiredNode(topology, numa, r), r in failing)
  }

  ghost predicate SystemStep(s: System, op: SystemOp, s': System) {
    match op
    case Update(bridges, failing) =>
      (match BuildTopology(bridges)
       case None => s' == s
       case Some(topology) =>
         && s' == System(topology, s'.nodes, s.numa, FailedStarts(s.nodes, topology, s.numa, failing), {})
         && Reconciled(s.nodes, s'.nodes, topology, s.numa, failing))
    case OvsEvent(event, startFails) =>
      exists effect :: Step(s.numa, event, s'.numa, effect) && s'.topology == s.topology
          && EventStep(s, s', effect, startFails)
    case StopServers => s' == s.(nodes := map[], down := s.down + s.nodes.Keys)
  }

  ghost predicate EventStep(s: System, s': System, effect: Effect, startFails: bool) {
    match effect
    case NoEffect => s'.nodes == s.nodes && s'.down == s.down && s'.missed == s.missed
    case Touched(b, notified) =>
      if b !in s.topology then s'.nodes == s.nodes && s'.down == s.down && s'.missed == s.missed
      else if !notified then s'.nodes == s.nodes && s'.down == s.down && s'.missed == s.missed + {s.topology[b]}
      else
        var r := s.topology[b];
        var failed := StartFailed(NodeAt(s.nodes, r), DesiredNode(s.topology, s'.numa, r), startFails);
        && Refreshed(s.nodes, s'.nodes, s.topology, s'.numa, b, startFails)
        && s'.down == (if failed then s.down + {r} else s.down - {r})
        && s'.missed == s.missed - {r}
  }

  /** What holds of resource r: unless a change of it was missed, it is served as specified exactly when it is not down,
      and in any case on no node that is not wanted; and while it is down it has no server. */
  ghost predicate FaithfulTo(s: System, r: string) {
    && (r !in s.missed ==> (Served(s.nodes, s.topology, s.numa, r) <==> r !in s.down))
    && (r !in s.missed ==> OnlyWanted(s.nodes, s.topology, s.numa, r))
    && (r in s.down ==> r !in s.nodes)
  }

  ghost predicate Faithful(s: System) {
    forall r :: FaithfulTo(s, r)
  }

  lemma StepDiffersAt(numa: Numa, e: Event, numa': Numa, effect: Effect)
    requires Step(numa, e, numa', effect)
    ensures effect == NoEffect ==> numa' == numa
    ensures effect.Touched? ==> DiffersOnlyAt(numa, numa', effect.bridge)
  {
  }

  lemma EventKeepsFaithful(s: System, event: Event, startFails: bool, s': System, effect: Effect)
    requires Faithful(s) && s'.topology == s.topology
    requires Step(s.numa, event, s'.numa, effect) && EventStep(s, s', effect, startFails)
    ensures Faithful(s')
  {
    StepDiffersAt(s.numa, event, s'.numa, effect);
    if effect.Touched? {
      forall r ensures FaithfulTo(s', r) {
        TouchKeepsFaithful(s, s', effect.bridge, effect.notified, startFails, r);
      }
    } else {
      forall r ensures FaithfulTo(s', r) {
        assert FaithfulTo(s, r);
      }
    }
  }

  lemma TouchKeepsFaithful(s: System, s': System, b: string, notified: bool, startFails: bool, r: string)
    requires FaithfulTo(s, r) && s'.topology == s.topology && DiffersOnlyAt(s.numa, s'.numa, b)
    requires EventStep(s, s', Touched(b, notified), startFails)
    ensures FaithfulTo(s', r)
  {
    if b in s.topology && notified {
      RefreshKeepsServed(s.nodes, s'.nodes, s.topology, s.numa, s'.numa, b, startFails, r);
    } else if b in s.topology ==> s.topology[b] != r {
      UnaffectedServed(s.nodes, s'.nodes, s.topology, s.numa, s'.numa, b, r);
    }
  }

  lemma StepKeepsFaithful(s: System, op: SystemOp, s': System)
    requires Faithful(s) && SystemStep(s, op, s')
    ensures Faithful(s')
  {
    match op {
      case Update(bridges, failing) =>
        if BuildTopology(bridges).Some? {
          forall r ensures FaithfulTo(s', r) {
            ReconciledServes(s.nodes, s'.nodes, s'.topology, s.numa, failing, r);
          }
        }
      case OvsEvent(event, startFails) =>
        var effect :| Step(s.numa, event, s'.numa, effect) && EventStep(s, s', effect, startFails);
        EventKeepsFaithful(s, event, startFails, s', effect);
      case StopServers =>
        forall r ensures FaithfulTo(s', r) {
          assert FaithfulTo(s, r);
          StopKeepsFaithful(s, s', r);
        }
    }
  }

  lemma StopKeepsFaithful(s: System, s': System, r: string)
    requires FaithfulTo(s, r) && s' == s.(nodes := map[], down := s.down + s.nodes.Keys)
    ensures FaithfulTo(s', r)
  {
    if r !in s.missed && r in s.nodes {
      assert Wanted(s.topology, s.numa, r, s.nodes[r]) && NodeAt(s'.nodes, r) == None;
    } else {
      assert NodeAt(s'.nodes, r) == None;
      assert r !in s.nodes ==> NodeAt(s.nodes, r) == None;
    }
  }

  /** In every run from an empty manager and in every state of it: a resource no change of which was missed is served as
      specified exactly when it is not down, never on a node that is not wanted, and not at all while it is down. */
  lemma {:induction false} FaithfulInAnyRun(states: seq<System>, ops: seq<SystemOp>, k: nat)
    requires |states| == |ops| + 1 && k <= |ops|
    requires states[0] == System(map[], map[], map[], {}, {})
    requires forall i :: 0 <= i < |ops| ==> SystemStep(states[i], ops[i], states[i + 1])
    ensures Faithful(states[k])
  {
    if k == 0 {
      forall r ensures FaithfulTo(states[0], r) {
        UnmappedUnserved(map[], map[], map[], r);
      }
    } else {
      FaithfulInAnyRun(states, ops, k - 1);
      StepKeepsFaithful(states[k - 1], ops[k - 1], states[k]);
    }
  }

  /** A full update without failed starts leaves nothing down or missed, whatever the history. */
  lemma UpdateHeals(s: System, bridges: seq<BridgeSpec>, s': System)
    requires SystemStep(s, Update(bridges, {}), s') && BuildTopology(bridges).Some?
    ensures s'.down == {} && s'.missed == {} && Matches(s'.nodes, s'.topology, s'.numa)
  {
    forall r ensures Served(s'.nodes, s'.topology, s'.numa, r) {
      ReconciledServes(s.nodes, s'.nodes, s'.topology, s.numa, {}, r);
    }
  }

  /** An operation that no start fails in, that stops nothing by hand, and whose change the manager is told of: no
      bridge is deleted and no bridge has an empty name. */
  ghost predicate Undisturbed(op: SystemOp) {
    match op
    case Update(_, failing) => failing == {}
    case OvsEvent(event, startFails) =>
      !startFails && !event.BridgeDeleted? && (event.InterfaceAdded? ==> event.bridge != "")
    case StopServers => false
  }

  lemma UndisturbedStep(s: System, op: SystemOp, s': System)
    requires SystemStep(s, op, s') && Undisturbed(op)
    requires s.down == {} && s.missed == {} && "" !in s.numa
    ensures s'.down == {} && s'.missed == {} && "" !in s'.numa
  {
    if op.OvsEvent? {
      var effect :| Step(s.numa, op.event, s'.numa, effect) && EventStep(s, s', effect, op.startFails);
    }
  }

  /** In a run without disturbances every state matches the specification, however updates and events are mixed. */
  lemma {:induction false} UndisturbedRunMatches(states: seq<System>, ops: seq<SystemOp>, k: nat)
    requires |states| == |ops| + 1 && k <= |ops|
    requires states[0] == System(map[], map[], map[], {}, {})
    requires forall i :: 0 <= i < |ops| ==> SystemStep(states[i], ops[i], states[i + 1])
    requires forall i :: 0 <= i < |ops| ==> Undisturbed(ops[i])
    ensures states[k].down == {} && states[k].missed == {} && "" !in states[k].numa
    ensures Matches(states[k].nodes, states[k].topology, states[k].numa)
  {
    if k > 0 {
      UndisturbedRunMatches(states, ops, k - 1);
      UndisturbedStep(states[k - 1], ops[k - 1], states[k]);
    }
    FaithfulInAnyRun(states, ops, k);
    forall r ensures Served(states[k].nodes, states[k].topology, states[k].numa, r) {
      assert FaithfulTo(states[k], r);
    }
  }

  // ---------------------------------------------------------------------------
  // One socket per server
  // ---------------------------------------------------------------------------

  /** No two served resources listen on the same socket. */
  ghost predicate SocketsApart(s: System) {
    forall r, t :: r in s.nodes && t in s.nodes && r != t ==> PluginSocketPath(r) != PluginSocketPath(t)
  }

  /** The bridge lists of the run use suffixes without '/', as the pattern of the policy object demands. */
  ghost predicate SlashFree(op: SystemOp) {
    op.Update? ==> forall b :: b in op.bridges ==> '/' !in b.topologyResource
  }

  /** Every mapped resource is one suffix under the driver's name, and only mapped resources are served. */
  ghost predicate PlainSystem(s: System) {
    && (forall r :: r in s.topology.Values ==> r == ResourceName(AfterLastSlash(r)))
    && (forall r :: r in s.nodes ==> r in s.topology.Values)
  }

  lemma PlainSocketsApart(s: System)
    requires PlainSystem(s)
    ensures SocketsApart(s)
  {
    forall r, t | r in s.nodes && t in s.nodes && r != t ensures PluginSocketPath(r) != PluginSocketPath(t) {
      PluginSocketShared(r, t);
    }
  }

  lemma BuiltPlain(bridges: seq<BridgeSpec>, r: string)
    requires BuildTopology(bridges).Some? && r in BuildTopology(bridges).value.Values
    requires forall b :: b in bridges ==> '/' !in b.topologyResource
    ensures r == ResourceName(AfterLastSlash(r))
  {
    BuiltTopology(bridges);
    var m := BuildTopology(bridges).value;
    var k :| k in m && m[k] == r;
    assert MapsTo(m, k, r);
    var b :| b in bridges && b.name == k && b.topologyResource != "" && ResourceName(b.topologyResource) == r;
    assert r == DRIVER_NAME + "/" + b.topologyResource;
    AfterLastSlashOf(DRIVER_NAME, b.topologyResource);
    SlashFreeWhole(b.topologyResource);
  }

  lemma StepKeepsPlain(s: System, op: SystemOp, s': System)
    requires PlainSystem(s) && SlashFree(op) && SystemStep(s, op, s')
    ensures PlainSystem(s')
  {
    match op {
      case Update(bridges, failing) =>
        if BuildTopology(bridges).Some? {
          forall r | r in s'.topology.Values ensures r == ResourceName(AfterLastSlash(r)) {
            BuiltPlain(bridges, r);
          }
        }
      case OvsEvent(event, startFails) =>
        var effect :| Step(s.numa, event, s'.numa, effect) && EventStep(s, s', effect, startFails);
        forall r | r in s'.nodes ensures r in s'.topology.Values {
          assert NodeAt(s'.nodes, r).Some?;
          assert r in s.nodes || (effect.Touched? && effect.bridge in s.topology && s.topology[effect.bridge] == r);
        }
      case StopServers =>
    }
  }

  /** In every state of every run over slash-free bridge lists, no two servers share a socket. */
  lemma {:induction false} SocketsApartInAnyRun(states: seq<System>, ops: seq<SystemOp>, k: nat)
    requires |states| == |ops| + 1 && k <= |ops|
    requires states[0] == System(map[], map[], map[], {}, {})
    requires forall i :: 0 <= i < |ops| ==> SystemStep(states[i], ops[i], states[i + 1])
    requires forall i :: 0 <= i < |ops| ==> SlashFree(ops[i])
    ensures PlainSystem(states[k]) && SocketsApart(states[k])
  {
    if k > 0 {
      SocketsApartInAnyRun(states, ops, k - 1);
      StepKeepsPlain(states[k - 1], ops[k - 1], states[k]);
    }
    PlainSocketsApart(states[k]);
  }
}
