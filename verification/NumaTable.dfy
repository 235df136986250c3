/** The table of NUMA nodes per bridge and DPDK interface, kept up to date from OVS events. */
module NumaTable {

  /** bridge name -> interface UUID -> NUMA node */
  type Numa = map<string, map<string, int>>

  /** The handled events.  An interface whose bridge or NUMA node cannot be resolved changes nothing. */
  datatype Event =
    | InterfaceAdded(uuid: string, bridge: string, node: int)
    | InterfaceUnresolved(uuid: string)
    | InterfaceDeleted(uuid: string)
    | BridgeDeleted(bridge: string)

  /** Which bridge an event changed, and whether the interface notifier was called for it. */
  datatype Effect = NoEffect | Touched(bridge: string, notified: bool)

  predicate Has(m: Numa, bridge: string, uuid: string) {
    bridge in m && uuid in m[bridge]
  }

  /** The nodes of a bridge's interfaces. */
  function NodesAt(m: Numa, bridge: string): set<int> {
    if bridge in m then m[bridge].Values else {}
  }

  function Record(m: Numa, bridge: string, uuid: string, node: int): Numa {
    m[bridge := (if bridge in m then m[bridge] else map[])[uuid := node]]
  }

  function Erase(m: Numa, bridge: string, uuid: string): Numa
    requires bridge in m
  {
    var rest := m[bridge] - {uuid};
    if |rest| == 0 then m - {bridge} else m[bridge := rest]
  }

  /** What handling an event may do.  A delete takes the first bridge found in map order, so any bridge that has the
      interface may be chosen; an empty bridge name is mistaken for "not found" and not notified. */
  ghost predicate Step(m: Numa, e: Event, m': Numa, effect: Effect) {
    match e
    case InterfaceAdded(uuid, bridge, node) => m' == Record(m, bridge, uuid, node) && effect == Touched(bridge, true)
    case InterfaceUnresolved(_) => m' == m && effect == NoEffect
    case InterfaceDeleted(uuid) =>
      if exists b :: Has(m, b, uuid) then
        && effect.Touched? && effect.notified == (effect.bridge != "")
        && Has(m, effect.bridge, uuid) && m' == Erase(m, effect.bridge, uuid)
      else m' == m && effect == NoEffect
    case BridgeDeleted(bridge) => m' == m - {bridge} && effect == Touched(bridge, false)
  }

  class OvsClient {
    var numaMap: Numa

    constructor ()
      ensures numaMap == map[]
    {
      numaMap := map[];
    }

    /** handleInterfaceAdd once the bridge and node are known, handleInterfaceDelete, or the bridge-delete cleanup. */
    method Handle(e: Event) returns (effect: Effect)
      modifies this
      ensures Step(old(numaMap), e, numaMap, effect)
    {
      match e {
        case InterfaceUnresolved(_) => effect := NoEffect;
        case InterfaceAdded(uuid, bridge, node) =>
          if bridge !in numaMap {
            numaMap := numaMap[bridge := map[]];
          }
          numaMap := numaMap[bridge := numaMap[bridge][uuid := node]];
          effect := Touched(bridge, true);
        case InterfaceDeleted(uuid) => effect := HandleInterfaceDelete(uuid);
        case BridgeDeleted(bridge) =>
          numaMap := numaMap - {bridge};
          effect := Touched(bridge, false);
      }
    }

    method HandleInterfaceDelete(uuid: string) returns (effect: Effect)
      modifies this
      ensures Step(old(numaMap), InterfaceDeleted(uuid), numaMap, effect)
    {
      var foundBridge := "";
      effect := NoEffect;
      var todo := numaMap.Keys;
      while todo != {}
        invariant todo <= numaMap.Keys && numaMap == old(numaMap)
        invariant forall b :: b in numaMap && b !in todo ==> uuid !in numaMap[b]
        invariant effect == NoEffect && foundBridge == ""
        decreases |todo|
      {
        var bridge :| bridge in todo;
        todo := todo - {bridge};
        if uuid in numaMap[bridge] {
          numaMap := numaMap[bridge := numaMap[bridge] - {uuid}];
          if |numaMap[bridge]| == 0 {
            numaMap := numaMap - {bridge};
          }
          foundBridge := bridge;
          effect := Touched(bridge, false);
          assert Has(old(numaMap), bridge, uuid);
          assert numaMap == Erase(old(numaMap), bridge, uuid);
          break;
        }
      }
      if foundBridge != "" {
        effect := Touched(foundBridge, true);
      }
    }

    /** BridgeNUMANodes: the nodes of the bridge's interfaces, each once, in no particular order. */
    method BridgeNumaNodes(bridge: string) returns (nodes: seq<int>)
      ensures (set n | n in nodes) == NodesAt(numaMap, bridge)
      ensures forall i, j :: 0 <= i < j < |nodes| ==> nodes[i] != nodes[j]
    {
      nodes := [];
      if bridge !in numaMap {
        assert forall n :: n !in nodes;
        return;
      }
      var ifaces := numaMap[bridge];
      var seen: set<int> := {};
      var todo := ifaces.Keys;
      while todo != {}
        invariant todo <= ifaces.Keys
        invariant forall n :: n in nodes <==> n in seen
        invariant forall n :: n in seen <==> exists u :: u in ifaces && u !in todo && ifaces[u] == n
        invariant forall i, j :: 0 <= i < j < |nodes| ==> nodes[i] != nodes[j]
        decreases |todo|
      {
        var u :| u in todo;
        ghost var todo0, seen0 := todo, seen;
        todo := todo - {u};
        var node := ifaces[u];
        if node !in seen {
          seen := seen + {node};
          nodes := nodes + [node];
        }
        forall n ensures n in seen <==> exists v :: v in ifaces && v !in todo && ifaces[v] == n {
          if n in seen0 {
            var v :| v in ifaces && v !in todo0 && ifaces[v] == n;
            assert v !in todo;
          }
          if v :| v in ifaces && v !in todo && ifaces[v] == n {
            assert v == u || v !in todo0;
          }
        }
      }
      forall n ensures n in seen <==> n in ifaces.Values {
        if n in ifaces.Values {
          var u :| u in ifaces && ifaces[u] == n;
          assert u !in todo;
        }
      }
      assert (set n | n in nodes) == seen;
    }
  }

  // ---------------------------------------------------------------------------
  // Replay
  // ---------------------------------------------------------------------------

  datatype Home = Home(bridge: string, node: int)

  /** The reference: where each interface is, as a flat relation. */
  type Homes = map<string, Home>

  function ReplayEvent(h: Homes, e: Event): Homes {
    match e
    case InterfaceAdded(uuid, bridge, node) => h[uuid := Home(bridge, node)]
    case InterfaceUnresolved(_) => h
    case InterfaceDeleted(uuid) => h - {uuid}
    case BridgeDeleted(bridge) => map u | u in h && h[u].bridge != bridge :: h[u]
  }

  function Replay(events: seq<Event>): Homes {
    if events == [] then map[] else ReplayEvent(Replay(events[..|events| - 1]), events[|events| - 1])
  }

  /** The nested table is exactly the flat relation: one bridge per interface, and no empty inner map. */
  ghost predicate Agrees(m: Numa, h: Homes) {
    && (forall b, u :: Has(m, b, u) <==> u in h && h[u].bridge == b)
    && (forall b, u :: Has(m, b, u) ==> m[b][u] == h[u].node)
    && (forall b :: b in m ==> m[b] != map[])
  }

  /** An interface is added under another bridge only after it was removed. */
  ghost predicate NoMove(h: Homes, e: Event) {
    e.InterfaceAdded? && e.uuid in h ==> h[e.uuid].bridge == e.bridge
  }

  /** The effect an event has on the relation: the one bridge concerned, with its notification. */
  function ReplayEffect(h: Homes, e: Event): Effect {
    match e
    case InterfaceAdded(_, bridge, _) => Touched(bridge, true)
    case InterfaceUnresolved(_) => NoEffect
    case InterfaceDeleted(uuid) => if uuid in h then Touched(h[uuid].bridge, h[uuid].bridge != "") else NoEffect
    case BridgeDeleted(bridge) => Touched(bridge, false)
  }

  /** The relation determines the table. */
  lemma AgreesUnique(m: Numa, m': Numa, h: Homes)
    requires Agrees(m, h) && Agrees(m', h)
    ensures m == m'
  {
    forall b ensures b in m <==> b in m' {
      if b in m {
        var u :| u in m[b];
        assert Has(m, b, u) && Has(m', b, u);
      }
      if b in m' {
        var u :| u in m'[b];
        assert Has(m', b, u) && Has(m, b, u);
      }
    }
    forall b | b in m ensures m[b] == m'[b] {
      forall u ensures u in m[b] <==> u in m'[b] {
        assert Has(m, b, u) <==> Has(m', b, u);
      }
      forall u | u in m[b] ensures m[b][u] == m'[b][u] {
        assert Has(m, b, u) && Has(m', b, u);
      }
    }
  }

  lemma RecordAgrees(m: Numa, h: Homes, uuid: string, bridge: string, node: int)
    requires Agrees(m, h) && (uuid in h ==> h[uuid].bridge == bridge)
    ensures Agrees(Record(m, bridge, uuid, node), h[uuid := Home(bridge, node)])
  {
    var m' := Record(m, bridge, uuid, node);
    forall b, u ensures Has(m', b, u) <==> Has(m, b, u) || (b == bridge && u == uuid) {
    }
    assert uuid in m'[bridge];
  }

  lemma EraseAgrees(m: Numa, h: Homes, bridge: string, uuid: string)
    requires Agrees(m, h) && Has(m, bridge, uuid)
    ensures Agrees(Erase(m, bridge, uuid), h - {uuid})
  {
    var m', rest := Erase(m, bridge, uuid), m[bridge] - {uuid};
    assert |rest| == 0 <==> rest == map[];
    forall b, u ensures Has(m', b, u) <==> Has(m, b, u) && u != uuid {
      assert u in rest <==> u in m[bridge] && u != uuid;
      assert b != bridge ==> !Has(m, b, uuid);
    }
  }

  lemma StepAgrees(m: Numa, h: Homes, e: Event, m': Numa, effect: Effect)
    requires Agrees(m, h) && NoMove(h, e) && Step(m, e, m', effect)
    ensures Agrees(m', ReplayEvent(h, e)) && effect == ReplayEffect(h, e)
  {
    match e {
      case InterfaceAdded(uuid, bridge, node) => RecordAgrees(m, h, uuid, bridge, node);
      case InterfaceUnresolved(_) =>
      case InterfaceDeleted(uuid) =>
        if uuid in h {
          assert Has(m, h[uuid].bridge, uuid);
          EraseAgrees(m, h, effect.bridge, uuid);
        } else {
          assert forall b :: !Has(m, b, uuid);
          assert h - {uuid} == h;
        }
      case BridgeDeleted(bridge) =>
        forall b, u ensures Has(m', b, u) <==> Has(m, b, u) && b != bridge {
        }
    }
  }

  /** A run of the table: its states, the events, and what each did. */
  ghost predicate Trace(states: seq<Numa>, events: seq<Event>, effects: seq<Effect>) {
    && |states| == |events| + 1 && |effects| == |events|
    && states[0] == map[]
    && forall i :: 0 <= i < |events| ==> Step(states[i], events[i], states[i + 1], effects[i])
  }

  /** Replay over whole runs: if no interface moves without being removed first, the table after any prefix of events is
      the replayed relation, and each event touched and notified exactly the bridge concerned. */
  lemma {:induction false} TableReplaysEvents(states: seq<Numa>, events: seq<Event>, effects: seq<Effect>, k: nat)
    requires Trace(states, events, effects) && k <= |events|
    requires forall i :: 0 <= i < |events| ==> NoMove(Replay(events[..i]), events[i])
    ensures Agrees(states[k], Replay(events[..k]))
    ensures k < |events| ==> effects[k] == ReplayEffect(Replay(events[..k]), events[k])
  {
    if k > 0 {
      TableReplaysEvents(states, events, effects, k - 1);
      StepAgrees(states[k - 1], Replay(events[..k - 1]), events[k - 1], states[k], effects[k - 1]);
      assert events[..k][..k - 1] == events[..k - 1];
    }
    if k < |events| {
      StepAgrees(states[k], Replay(events[..k]), events[k], states[k + 1], effects[k]);
    }
  }

  /** The condition is exact: adding an interface leaves a table with one bridge per interface if and only if the
      interface was not recorded under another bridge. */
  lemma OneBridgeExactly(m: Numa, h: Homes, uuid: string, bridge: string, node: int)
    requires Agrees(m, h)
    ensures (exists h' :: Agrees(Record(m, bridge, uuid, node), h')) <==> (uuid in h ==> h[uuid].bridge == bridge)
  {
    var m' := Record(m, bridge, uuid, node);
    if uuid in h ==> h[uuid].bridge == bridge {
      RecordAgrees(m, h, uuid, bridge, node);
    } else {
      assert Has(m, h[uuid].bridge, uuid);
      assert Has(m', h[uuid].bridge, uuid) && Has(m', bridge, uuid);
    }
  }
}
