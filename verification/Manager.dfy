/** The manager of the topology device plugins: its in-place maps, and the servers it starts and stops. */
module DevicePluginManager {
  import opened Kube
  import opened Naming
  import opened NumaTable
  import opened Topology

  /** One started server instance; `id` tells instances apart. */
  datatype PluginServer = PluginServer(id: nat, resource: string, numa: int)

  /** The running servers are exactly the values of `servers`, one per resource and each on a valid node. */
  ghost predicate SoundServers(servers: map<string, PluginServer>, live: set<PluginServer>, nextId: nat) {
    && (forall s :: s in live <==> s.resource in servers && servers[s.resource] == s)
    && (forall r :: r in servers ==> servers[r].resource == r && servers[r].numa >= 0 && servers[r].id < nextId)
  }

  function ServerNode(servers: map<string, PluginServer>, r: string): Option<int> {
    if r in servers then Some(servers[r].numa) else None
  }

  function SetOf(s: seq<string>): set<string> {
    set x | x in s
  }

  class Manager {
    const ovs: OvsClient
    var topology: map<string, string>
    var servers: map<string, PluginServer>
    var live: set<PluginServer>
    var nextId: nat

    function Nodes(): map<string, int>
      reads this
    {
      map r | r in servers :: servers[r].numa
    }

    ghost predicate Sound()
      reads this
    {
      SoundServers(servers, live, nextId)
    }

    /** The servers are sound, and every one of them serves a resource of the topology. */
    ghost predicate Valid()
      reads this
    {
      Sound() && forall r :: r in servers ==> r in topology.Values
    }

    constructor (ovs: OvsClient)
      ensures Valid() && topology == map[] && servers == map[] && this.ovs == ovs
    {
      this.ovs := ovs;
      topology, servers, live, nextId := map[], map[], {}, 0;
    }

    /** Stop one server and forget it. */
    method StopServer(r: string)
      requires Sound() && r in servers
      modifies this`servers, this`live
      ensures Sound() && servers == old(servers) - {r}
    {
      live := live - {servers[r]};
      servers := servers - {r};
    }

    /** getConsistentNUMA */
    method GetConsistentNuma(brNames: seq<string>) returns (result: int)
      ensures result == GroupNode(ovs.numaMap, SetOf(brNames))
    {
      result := -1;
      for i := 0 to |brNames|
        invariant result == -1 <==> i == 0
        invariant i > 0 ==> SharedNode(ovs.numaMap, SetOf(brNames[..i]), result)
      {
        var nodes := ovs.BridgeNumaNodes(brNames[i]);
        if |nodes| != 1 || nodes[0] < 0 {
          NoSharedNode(ovs.numaMap, brNames, i, nodes);
          return -1;
        }
        var numaNode := nodes[0];
        SingleNode(ovs.numaMap, brNames[i], nodes);
        if result < 0 {
          result := numaNode;
        } else if result != numaNode {
          TwoNodes(ovs.numaMap, brNames, i, result, numaNode);
          return -1;
        }
        SharedSnoc(ovs.numaMap, brNames, i, result);
      }
      assert brNames[..|brNames|] == brNames;
      if |brNames| > 0 {
        GroupNodeIs(ovs.numaMap, SetOf(brNames), result);
      } else {
        assert SetOf(brNames) == {};
      }
    }

    /** ensureServer; `startFails` is the outcome of the start, should one be needed. */
    method EnsureServer(r: string, brNames: seq<string>, startFails: bool) returns (ok: bool)
      requires Sound()
      modifies this`servers, this`live, this`nextId
      ensures Sound()
      ensures ServerNode(servers, r) == Settle(ServerNode(old(servers), r), GroupNode(ovs.numaMap, SetOf(brNames)),
                                               startFails)
      ensures ok <==> !StartFailed(ServerNode(old(servers), r), GroupNode(ovs.numaMap, SetOf(brNames)), startFails)
      ensures r in servers ==> ok && SharedNode(ovs.numaMap, SetOf(brNames), servers[r].numa)
      ensures ok && r !in servers ==> forall n :: !SharedNode(ovs.numaMap, SetOf(brNames), n)
      ensures forall x :: x != r ==>
                (x in servers <==> x in old(servers)) && (x in servers ==> servers[x] == old(servers)[x])
      ensures r in old(servers) && old(servers)[r].numa == GroupNode(ovs.numaMap, SetOf(brNames)) ==>
                servers == old(servers)
    {
      var numaNode := GetConsistentNuma(brNames);
      if r in servers {
        if servers[r].numa == numaNode {
          return true;
        }
        StopServer(r);
      }
      if numaNode < 0 {
        return true;
      }
      if startFails {
        return false;
      }
      var srv := PluginServer(nextId, r, numaNode);
      nextId := nextId + 1;
      live := live + {srv};
      servers := servers[r := srv];
      return true;
    }

    /** OnInterfaceChange */
    method OnInterfaceChange(brName: string, startFails: bool)
      requires Valid()
      modifies this`servers, this`live, this`nextId
      ensures Valid()
      ensures Refreshed(old(Nodes()), Nodes(), topology, ovs.numaMap, brName, startFails)
    {
      if brName !in topology {
        return;
      }
      var r := topology[brName];
      var brNames: seq<string> := [];
      var todo := topology.Keys;
      while todo != {}
        invariant todo <= topology.Keys
        invariant forall b :: b in brNames <==> b in topology && topology[b] == r && b !in todo
        decreases |todo|
      {
        var b :| b in todo;
        todo := todo - {b};
        if topology[b] == r {
          brNames := brNames + [b];
        }
      }
      assert SetOf(brNames) == BridgesOf(topology, r);
      ghost var servers0 := servers;
      var _ := EnsureServer(r, brNames, startFails);
      forall x
        ensures NodeAt(Nodes(), x) == ServerNode(servers, x) && NodeAt(old(Nodes()), x) == ServerNode(servers0, x)
      {
      }
    }

    /** StopAll */
    method StopAll()
      requires Valid()
      modifies this`servers, this`live
      ensures Valid() && servers == map[] && live == {}
    {
      var todo := servers.Keys;
      while todo != {}
        invariant Valid() && todo == servers.Keys
        decreases |todo|
      {
        var r :| r in todo;
        todo := todo - {r};
        StopServer(r);
      }
      assert forall s :: s !in live;
    }

    /** UpdateResources; `failing` are the resources whose start fails during the call. */
    method UpdateResources(bridges: seq<BridgeSpec>, failing: set<string>) returns (ok: bool)
      requires Valid()
      modifies this`topology, this`servers, this`live, this`nextId
      ensures Valid()
      ensures BuildTopology(bridges).None? ==>
                !ok && topology == old(topology) && servers == old(servers) && live == old(live)
      ensures BuildTopology(bridges).Some? ==>
                && topology == BuildTopology(bridges).value
                && Reconciled(old(Nodes()), Nodes(), topology, ovs.numaMap, failing)
                && (ok <==> FailedStarts(old(Nodes()), topology, ovs.numaMap, failing) == {})
                && (forall r :: r in topology.Values
                                && ServerNode(old(servers), r) == Some(DesiredNode(topology, ovs.numaMap, r))
                      ==> r in servers && servers[r] == old(servers)[r])
    {
      var newTopology, resourceBridges := GroupBridges(bridges);
      if newTopology.None? {
        return false;
      }
      topology := newTopology.value;
      ok := Reconcile(resourceBridges, failing);
      ReconciledFromEntries(old(servers), servers, old(Nodes()), Nodes(), topology, ovs.numaMap, failing);
    }

    /** Stopping and starting servers once the topology is set. */
    method Reconcile(groups: map<string, seq<string>>, failing: set<string>) returns (ok: bool)
      requires Sound() && Grouped(topology, groups)
      modifies this`servers, this`live, this`nextId
      ensures Valid()
      ensures forall r :: r in topology.Values ==>
                EnsuredEntry(old(servers), servers, r, DesiredNode(topology, ovs.numaMap, r), r in failing)
      ensures ok <==> forall r :: r in topology.Values ==>
                !StartFailed(ServerNode(old(servers), r), DesiredNode(topology, ovs.numaMap, r), r in failing)
    {
      StopUnneeded(groups.Keys);
      ghost var kept := servers;
      ghost var want := map r | r in groups :: DesiredNode(topology, ovs.numaMap, r);
      forall r | r in groups ensures SetOf(groups[r]) == BridgesOf(topology, r) {
      }
      ok := EnsureAll(groups, failing, want);
      forall r | r in topology.Values
        ensures ServerNode(kept, r) == ServerNode(old(servers), r)
        ensures EnsuredEntry(old(servers), servers, r, DesiredNode(topology, ovs.numaMap, r), r in failing)
      {
        assert EnsuredEntry(kept, servers, r, want[r], r in failing);
      }
    }

    /** The first loop of UpdateResources: the topology map, and the bridges of each resource. */
    static method GroupBridges(bridges: seq<BridgeSpec>)
      returns (topology: Option<map<string, string>>, groups: map<string, seq<string>>)
      ensures topology == BuildTopology(bridges)
      ensures topology.Some? ==> Grouped(topology.value, groups)
    {
      var m: map<string, string> := map[];
      groups := map[];
      for i := 0 to |bridges|
        invariant BuildTopology(bridges[..i]) == Some(m)
        invariant Grouped(m, groups)
      {
        var bridge := bridges[i];
        assert bridges[..i + 1][..i] == bridges[..i];
        if bridge.topologyResource == "" {
          continue;
        }
        var r := ResourceName(bridge.topologyResource);
        if bridge.name in m {
          if m[bridge.name] != r {
            BuildStaysNone(bridges, i + 1);
            return None, groups;
          }
          assert m[bridge.name := r] == m;
          continue;
        }
        GroupedAdd(m, groups, bridge.name, r);
        m := m[bridge.name := r];
        groups := groups[r := (if r in groups then groups[r] else []) + [bridge.name]];
      }
      assert bridges[..|bridges|] == bridges;
      topology := Some(m);
    }

    /** The second loop of UpdateResources. */
    method StopUnneeded(needed: set<string>)
      requires Sound()
      modifies this`servers, this`live
      ensures Sound()
      ensures servers == map r | r in old(servers) && r in needed :: old(servers)[r]
    {
      var todo := servers.Keys;
      while todo != {}
        invariant Sound() && todo <= old(servers).Keys
        invariant servers == map r | r in old(servers) && (r in todo || r in needed) :: old(servers)[r]
        decreases |todo|
      {
        var r :| r in todo;
        todo := todo - {r};
        if r !in needed {
          StopServer(r);
        }
      }
    }

    /** The last loop of UpdateResources, in any order; `want` gives the node each group shares. */
    method EnsureAll(groups: map<string, seq<string>>, failing: set<string>, ghost want: map<string, int>)
      returns (ok: bool)
      requires Sound() && (forall r :: r in servers ==> r in groups)
      requires forall r :: r in groups ==> r in want && want[r] == GroupNode(ovs.numaMap, SetOf(groups[r]))
      modifies this`servers, this`live, this`nextId
      ensures Sound() && forall r :: r in servers ==> r in groups
      ensures forall r :: r in groups ==> EnsuredEntry(old(servers), servers, r, want[r], r in failing)
      ensures ok <==> forall r :: r in groups ==> !StartFailed(ServerNode(old(servers), r), want[r], r in failing)
    {
      ok := true;
      var todo := groups.Keys;
      ghost var servers0 := servers;
      while todo != {}
        invariant Sound() && todo <= groups.Keys
        invariant forall r :: r in servers ==> r in groups
        invariant forall r :: r in todo ==>
                  (r in servers <==> r in servers0) && (r in servers ==> servers[r] == servers0[r])
        invariant forall r :: r in groups && r !in todo ==> EnsuredEntry(servers0, servers, r, want[r], r in failing)
        invariant ok <==> forall r :: r in groups && r !in todo ==>
                  !StartFailed(ServerNode(servers0, r), want[r], r in failing)
        decreases |todo|
      {
        var r :| r in todo;
        ghost var before, todo0 := servers, todo;
        todo := todo - {r};
        var started := EnsureServer(r, groups[r], r in failing);
        forall x | x in groups && x !in todo ensures EnsuredEntry(servers0, servers, x, want[x], x in failing) {
          assert x != r ==> EnsuredEntry(servers0, before, x, want[x], x in failing);
        }
        ok := ok && started;
      }
    }

    // --- the manager wired to the OVS events ---

    /** The manager and the table it reads, as a state of a run. */
    ghost function State(down: set<string>, missed: set<string>): System
      reads this, ovs
    {
      System(topology, Nodes(), ovs.numaMap, down, missed)
    }

    /** One operation of a run; the interface notifier is OnInterfaceChange. */
    method Perform(op: SystemOp, ghost down: set<string>, ghost missed: set<string>)
      returns (ghost down': set<string>, ghost missed': set<string>)
      requires Valid()
      modifies this, ovs
      ensures Valid() && SystemStep(old(State(down, missed)), op, State(down', missed'))
    {
      down', missed' := down, missed;
      match op {
        case Update(bridges, failing) =>
          ghost var nodes0 := Nodes();
          var _ := UpdateResources(bridges, failing);
          if BuildTopology(bridges).Some? {
            down', missed' := FailedStarts(nodes0, topology, ovs.numaMap, failing), {};
          }
        case StopServers =>
          down' := down + Nodes().Keys;
          StopAll();
        case OvsEvent(event, startFails) =>
          down', missed' := HandleEvent(event, startFails, down, missed);
      }
    }

    method HandleEvent(event: Event, startFails: bool, ghost down: set<string>, ghost missed: set<string>)
      returns (ghost down': set<string>, ghost missed': set<string>)
      requires Valid()
      modifies this, ovs
      ensures Valid() && SystemStep(old(State(down, missed)), OvsEvent(event, startFails), State(down', missed'))
    {
      ghost var s := State(down, missed);
      var effect := ovs.Handle(event);
      down', missed' := down, missed;
      if effect.Touched? && effect.notified {
        OnInterfaceChange(effect.bridge, startFails);
      }
      if effect.Touched? && effect.bridge in topology {
        var r := topology[effect.bridge];
        if !effect.notified {
          missed' := missed + {r};
        } else {
          missed' := missed - {r};
          ghost var failed := StartFailed(NodeAt(s.nodes, r), DesiredNode(topology, ovs.numaMap, r), startFails);
          down' := if failed then down + {r} else down - {r};
        }
      }
      assert EventStep(s, State(down', missed'), effect, startFails);
    }

    /** Every run of a fresh manager keeps the lifecycle invariant, is faithful to the specification in every state, and
        over slash-free bridge lists never has two servers on one socket. */
    method Drive(ops: seq<SystemOp>) returns (ghost states: seq<System>)
      requires Valid() && topology == map[] && servers == map[] && ovs.numaMap == map[]
      modifies this, ovs
      ensures Valid() && |states| == |ops| + 1
      ensures states[0] == System(map[], map[], map[], {}, {})
      ensures forall i :: 0 <= i < |ops| ==> SystemStep(states[i], ops[i], states[i + 1])
      ensures forall i :: 0 <= i <= |ops| ==> Faithful(states[i])
      ensures states[|ops|] == State(states[|ops|].down, states[|ops|].missed)
      ensures (forall i :: 0 <= i < |ops| ==> SlashFree(ops[i])) ==>
                && (forall i :: 0 <= i <= |ops| ==> SocketsApart(states[i]))
                && (forall s, t :: s in live && t in live && s != t ==>
                      PluginSocketPath(s.resource) != PluginSocketPath(t.resource))
    {
      ghost var down: set<string>, missed: set<string> := {}, {};
      states := [State(down, missed)];
      for i := 0 to |ops|
        invariant Valid() && |states| == i + 1 && states[i] == State(down, missed)
        invariant states[0] == System(map[], map[], map[], {}, {})
        invariant forall j :: 0 <= j < i ==> SystemStep(states[j], ops[j], states[j + 1])
      {
        down, missed := Perform(ops[i], down, missed);
        states := states + [State(down, missed)];
      }
      forall k | 0 <= k <= |ops| ensures Faithful(states[k]) {
        FaithfulInAnyRun(states, ops, k);
      }
      if forall i :: 0 <= i < |ops| ==> SlashFree(ops[i]) {
        forall k | 0 <= k <= |ops| ensures SocketsApart(states[k]) {
          SocketsApartInAnyRun(states, ops, k);
        }
        forall s, t | s in live && t in live && s != t
          ensures PluginSocketPath(s.resource) != PluginSocketPath(t.resource)
        {
          assert s.resource in states[|ops|].nodes && t.resource in states[|ops|].nodes;
        }
      }
    }
  }

  /** One resource after a full update: settled, and on the same server instance when its node did not change. */
  ghost predicate EnsuredEntry(before: map<string, PluginServer>, after: map<string, PluginServer>, r: string,
                               want: int, fails: bool) {
    && ServerNode(after, r) == Settle(ServerNode(before, r), want, fails)
    && (ServerNode(before, r) == Some(want) && want >= 0 ==> after[r] == before[r])
  }

  /** Entry by entry is all at once. */
  lemma ReconciledFromEntries(s0: map<string, PluginServer>, s2: map<string, PluginServer>,
                              nodes0: map<string, int>, nodes2: map<string, int>,
                              topology: map<string, string>, numa: Numa, failing: set<string>)
    requires nodes0 == (map r | r in s0 :: s0[r].numa) && nodes2 == map r | r in s2 :: s2[r].numa
    requires forall r :: r in s2 ==> r in topology.Values
    requires forall r :: r in topology.Values ==> EnsuredEntry(s0, s2, r, DesiredNode(topology, numa, r), r in failing)
    ensures Reconciled(nodes0, nodes2, topology, numa, failing)
    ensures FailedStarts(nodes0, topology, numa, failing) == {} <==>
              forall r :: r in topology.Values ==>
                !StartFailed(ServerNode(s0, r), DesiredNode(topology, numa, r), r in failing)
    ensures forall r :: r in topology.Values
                        && ServerNode(s0, r) == Some(DesiredNode(topology, numa, r)) && s0[r].numa >= 0
              ==> r in s2 && s2[r] == s0[r]
  {
    forall r | r in topology.Values
      ensures NodeAt(nodes0, r) == ServerNode(s0, r)
          && Ensured(nodes0, nodes2, r, DesiredNode(topology, numa, r), r in failing)
    {
      assert EnsuredEntry(s0, s2, r, DesiredNode(topology, numa, r), r in failing);
    }
    var failed := FailedStarts(nodes0, topology, numa, failing);
    if failed == {} {
      forall r | r in topology.Values
        ensures !StartFailed(ServerNode(s0, r), DesiredNode(topology, numa, r), r in failing)
      {
        assert r !in failed;
      }
    }
  }

  /** The groups are the non-empty lists of bridges per resource of the topology. */
  ghost predicate Grouped(m: map<string, string>, groups: map<string, seq<string>>) {
    && (forall r :: r in groups <==> r in m.Values)
    && (forall r, b :: r in groups ==> (b in groups[r] <==> b in m && m[b] == r))
  }

  lemma GroupedAdd(m: map<string, string>, groups: map<string, seq<string>>, b: string, r: string)
    requires Grouped(m, groups) && b !in m
    ensures Grouped(m[b := r], groups[r := (if r in groups then groups[r] else []) + [b]])
  {
    var m' := m[b := r];
    assert m'[b] == r && forall x :: x in m ==> m'[x] == m[x];
    forall x ensures x in m'.Values <==> x in m.Values || x == r {
      if x in m.Values {
        var k :| k in m && m[k] == x;
        assert m'[k] == x;
      }
    }
  }

  lemma {:induction false} BuildStaysNone(bridges: seq<BridgeSpec>, i: nat)
    requires i <= |bridges| && BuildTopology(bridges[..i]).None?
    ensures BuildTopology(bridges).None?
    decreases |bridges| - i
  {
    if i == |bridges| {
      assert bridges[..i] == bridges;
    } else {
      assert bridges[..i + 1][..i] == bridges[..i];
      BuildStaysNone(bridges, i + 1);
    }
  }

  // --- what one bridge's node list says about the group ---

  /** `nodes` lists the nodes of bridge b, each once. */
  ghost predicate NodeList(numa: Numa, b: string, nodes: seq<int>) {
    && (set n | n in nodes) == NodesAt(numa, b)
    && (forall i, j :: 0 <= i < j < |nodes| ==> nodes[i] != nodes[j])
  }

  lemma SingleNode(numa: Numa, b: string, nodes: seq<int>)
    requires NodeList(numa, b, nodes) && |nodes| == 1
    ensures OnNode(numa, b, nodes[0])
  {
    assert NodesAt(numa, b) == {nodes[0]};
    OnNodeIff(numa, b, nodes[0]);
  }

  lemma NotOnNode(numa: Numa, b: string, nodes: seq<int>, n: int)
    requires NodeList(numa, b, nodes) && (|nodes| != 1 || nodes[0] != n)
    ensures !OnNode(numa, b, n)
  {
    OnNodeIff(numa, b, n);
    if |nodes| == 0 {
      assert NodesAt(numa, b) == {};
    } else if |nodes| == 1 {
      assert nodes[0] in nodes && nodes[0] in NodesAt(numa, b);
    } else {
      assert nodes[0] in nodes && nodes[1] in nodes;
      assert nodes[0] in NodesAt(numa, b) && nodes[1] in NodesAt(numa, b) && nodes[0] != nodes[1];
    }
  }

  lemma NoSharedNode(numa: Numa, brNames: seq<string>, i: nat, nodes: seq<int>)
    requires i < |brNames| && NodeList(numa, brNames[i], nodes)
    requires |nodes| != 1 || nodes[0] < 0
    ensures GroupNode(numa, SetOf(brNames)) == -1
  {
    assert brNames[i] in SetOf(brNames);
    forall n | n >= 0 ensures !SharedNode(numa, SetOf(brNames), n) {
      NotOnNode(numa, brNames[i], nodes, n);
    }
  }

  lemma TwoNodes(numa: Numa, brNames: seq<string>, i: nat, n: int, n': int)
    requires 0 < i < |brNames| && SharedNode(numa, SetOf(brNames[..i]), n) && OnNode(numa, brNames[i], n') && n != n'
    ensures GroupNode(numa, SetOf(brNames)) == -1
  {
    var first := brNames[0];
    assert brNames[..i][0] == first;
    assert first in SetOf(brNames[..i]) && first in SetOf(brNames) && brNames[i] in SetOf(brNames);
    OnNodeIff(numa, first, n);
    OnNodeIff(numa, brNames[i], n');
    assert n in NodesAt(numa, first) && n' in NodesAt(numa, brNames[i]);
    forall k ensures !SharedNode(numa, SetOf(brNames), k) {
      OnNodeIff(numa, first, k);
      OnNodeIff(numa, brNames[i], k);
    }
  }

  lemma SharedSnoc(numa: Numa, brNames: seq<string>, i: nat, n: int)
    requires i < |brNames| && n >= 0 && OnNode(numa, brNames[i], n)
    requires i > 0 ==> SharedNode(numa, SetOf(brNames[..i]), n)
    ensures SharedNode(numa, SetOf(brNames[..i + 1]), n)
  {
    assert brNames[..i + 1] == brNames[..i] + [brNames[i]];
    assert brNames[i] in SetOf(brNames[..i + 1]);
    forall b | b in SetOf(brNames[..i + 1]) ensures OnNode(numa, b, n) {
      assert b == brNames[i] || b in SetOf(brNames[..i]);
    }
  }

  /** Running servers listen on different sockets when the bridge list they come from uses slash-free suffixes. */
  lemma DistinctSockets(servers: map<string, PluginServer>, live: set<PluginServer>, nextId: nat,
                        bridges: seq<BridgeSpec>, s: PluginServer, t: PluginServer)
    requires SoundServers(servers, live, nextId) && s in live && t in live && s != t
    requires BuildTopology(bridges).Some? && (forall r :: r in servers ==> r in BuildTopology(bridges).value.Values)
    requires forall b :: b in bridges ==> '/' !in b.topologyResource
    ensures PluginSocketPath(s.resource) != PluginSocketPath(t.resource)
  {
    var a := TopologySuffix(bridges, s.resource);
    var b := TopologySuffix(bridges, t.resource);
    PluginSocketInjective(a.topologyResource, b.topologyResource);
  }

  lemma TopologySuffix(bridges: seq<BridgeSpec>, r: string) returns (b: BridgeSpec)
    requires BuildTopology(bridges).Some? && r in BuildTopology(bridges).value.Values
    ensures b in bridges && ResourceName(b.topologyResource) == r
  {
    BuiltTopology(bridges);
    var m := BuildTopology(bridges).value;
    var k :| k in m && m[k] == r;
    assert MapsTo(m, k, r);
    b :| b in bridges && b.name == k && b.topologyResource != "" && ResourceName(b.topologyResource) == r;
  }
}
