/** The policy controller: one bridge list drives both the advertised devices and the topology plugins. */
module PolicyReconciler {
  import opened Kube
  import opened Naming
  import opened Policy
  import opened NumaTable
  import opened Topology
  import opened DevicePluginManager
  import opened NodeDriver

  /** A node selector: how many terms it has, whether they parse, and whether they match this node. */
  datatype Selector = NoSelector | Terms(count: nat, parses: bool, matched: bool)

  datatype PolicyObject = PolicyObject(selector: Selector, bridges: seq<BridgeSpec>)

  /** matchesNodeSelector: an absent or empty selector matches, one that does not parse does not. */
  predicate MatchesNode(s: Selector) {
    s.NoSelector? || s.count == 0 || (s.parses && s.matched)
  }

  /** The answer of BridgeExists. */
  datatype Presence = Present | Absent | LookupError

  /** The bridges of the matching policies, in order. */
  function Candidates(policies: seq<PolicyObject>): seq<BridgeSpec> {
    if policies == [] then []
    else
      var n := |policies| - 1;
      Candidates(policies[..n]) + if MatchesNode(policies[n].selector) then policies[n].bridges else []
  }

  function Answer(answers: seq<Presence>, k: nat): Presence {
    if k < |answers| then answers[k] else LookupError
  }

  /** The candidates that are present, by the k-th answer for the k-th candidate; None when a lookup fails. */
  function Active(candidates: seq<BridgeSpec>, answers: seq<Presence>): Option<seq<BridgeSpec>> {
    if candidates == [] then Some([])
    else
      var n := |candidates| - 1;
      var before := Active(candidates[..n], answers);
      if before.None? then None
      else match Answer(answers, n)
        case LookupError => None
        case Absent => before
        case Present => Some(before.value + [candidates[n]])
  }

  lemma {:induction false} ActivePrefix(candidates: seq<BridgeSpec>, answers: seq<Presence>, k: nat)
    requires k <= |candidates| && Active(candidates[..k], answers).None?
    ensures Active(candidates, answers).None?
    decreases |candidates| - k
  {
    if k == |candidates| {
      assert candidates[..k] == candidates;
    } else {
      assert candidates[..k + 1][..k] == candidates[..k];
      ActivePrefix(candidates, answers, k + 1);
    }
  }

  /** The chosen bridges are, in order, the candidates at the positions `picks`, which are exactly those present. */
  ghost predicate Picked(candidates: seq<BridgeSpec>, answers: seq<Presence>, chosen: seq<BridgeSpec>,
                         picks: seq<nat>) {
    && |picks| == |chosen|
    && (forall i, j :: 0 <= i < j < |picks| ==> picks[i] < picks[j])
    && (forall i :: 0 <= i < |picks| ==> picks[i] < |candidates| && chosen[i] == candidates[picks[i]])
    && (forall k: nat :: k < |candidates| ==> (k in picks <==> Answer(answers, k) == Present))
  }

  /** Collecting fails exactly when a lookup does; otherwise it yields, in order, exactly the present candidates. */
  lemma {:induction false} ActiveExactly(candidates: seq<BridgeSpec>, answers: seq<Presence>) returns (picks: seq<nat>)
    ensures Active(candidates, answers).None? <==>
              exists k: nat :: k < |candidates| && Answer(answers, k) == LookupError
    ensures Active(candidates, answers).Some? ==> Picked(candidates, answers, Active(candidates, answers).value, picks)
  {
    if candidates == [] {
      return [];
    }
    var n := |candidates| - 1;
    picks := ActiveExactly(candidates[..n], answers);
    if Active(candidates, answers).Some? {
      var before := Active(candidates[..n], answers).value;
      if Answer(answers, n) == Present {
        PickedMore(candidates, answers, before, picks);
        picks := picks + [n];
      } else {
        PickedSame(candidates, answers, before, picks);
      }
    }
  }

  lemma PickedMore(candidates: seq<BridgeSpec>, answers: seq<Presence>, before: seq<BridgeSpec>, picks: seq<nat>)
    requires candidates != []
    requires var n := |candidates| - 1; Picked(candidates[..n], answers, before, picks) && Answer(answers, n) == Present
    ensures var n := |candidates| - 1; Picked(candidates, answers, before + [candidates[n]], picks + [n])
  {
    var n := |candidates| - 1;
    forall k: nat | k < |candidates| ensures k in picks + [n] <==> Answer(answers, k) == Present {
      if k == n {
        assert (picks + [n])[|picks|] == n;
      }
    }
  }

  lemma PickedSame(candidates: seq<BridgeSpec>, answers: seq<Presence>, before: seq<BridgeSpec>, picks: seq<nat>)
    requires candidates != []
    requires var n := |candidates| - 1; Picked(candidates[..n], answers, before, picks) && Answer(answers, n) != Present
    ensures Picked(candidates, answers, before, picks)
  {
    var n := |candidates| - 1;
    assert n !in picks;
  }

  /** Policy i applies to the node, unless it has selector terms that do not parse or do not match, and its j-th bridge
      is this one. */
  ghost predicate ListedAt(policies: seq<PolicyObject>, i: int, j: int, b: BridgeSpec) {
    && 0 <= i < |policies| && 0 <= j < |policies[i].bridges| && policies[i].bridges[j] == b
    && var s := policies[i].selector;
       !(s.Terms? && s.count > 0 && (!s.parses || !s.matched))
  }

  datatype Place = Place(policy: nat, bridge: nat)

  predicate Before(p: Place, q: Place) {
    p.policy < q.policy || (p.policy == q.policy && p.bridge < q.bridge)
  }

  /** The candidates are the listed bridges at `places`, policy by policy and in their order there. */
  ghost predicate Placed(policies: seq<PolicyObject>, candidates: seq<BridgeSpec>, places: seq<Place>) {
    && |places| == |candidates|
    && (forall k, l :: 0 <= k < l < |places| ==> Before(places[k], places[l]))
    && (forall k :: 0 <= k < |places| ==> ListedAt(policies, places[k].policy, places[k].bridge, candidates[k]))
    && (forall i, j, b :: ListedAt(policies, i, j, b) ==> Place(i, j) in places)
  }

  /** The candidates are exactly the bridges of the matching policies, in order. */
  lemma {:induction false} CandidatesExactly(policies: seq<PolicyObject>) returns (places: seq<Place>)
    ensures Placed(policies, Candidates(policies), places)
  {
    if policies == [] {
      return [];
    }
    var n := |policies| - 1;
    places := CandidatesExactly(policies[..n]);
    var own := policies[n].bridges;
    PlacedPrefix(policies, places);
    if MatchesNode(policies[n].selector) {
      var more := seq(|own|, j requires 0 <= j < |own| => Place(n, j));
      PlacedOwn(policies, places, more);
      places := places + more;
    } else {
      assert Candidates(policies[..n]) + [] == Candidates(policies[..n]);
    }
  }

  /** The listed places among all but the last policy. */
  ghost predicate PlacedBelow(policies: seq<PolicyObject>, candidates: seq<BridgeSpec>, places: seq<Place>, n: nat) {
    && |places| == |candidates|
    && (forall k, l :: 0 <= k < l < |places| ==> Before(places[k], places[l]))
    && (forall k :: 0 <= k < |places| ==>
          places[k].policy < n && ListedAt(policies, places[k].policy, places[k].bridge, candidates[k]))
    && (forall i, j, b :: i < n && ListedAt(policies, i, j, b) ==> Place(i, j) in places)
  }

  lemma PlacedPrefix(policies: seq<PolicyObject>, places: seq<Place>)
    requires policies != []
    requires Placed(policies[..|policies| - 1], Candidates(policies[..|policies| - 1]), places)
    ensures PlacedBelow(policies, Candidates(policies[..|policies| - 1]), places, |policies| - 1)
  {
    var n := |policies| - 1;
    forall k | 0 <= k < |places|
      ensures places[k].policy < n
      ensures ListedAt(policies, places[k].policy, places[k].bridge, Candidates(policies[..n])[k])
    {
      assert ListedAt(policies[..n], places[k].policy, places[k].bridge, Candidates(policies[..n])[k]);
    }
    forall i, j, b | i < n && ListedAt(policies, i, j, b) ensures Place(i, j) in places {
      assert ListedAt(policies[..n], i, j, b);
    }
  }

  lemma PlacedOwn(policies: seq<PolicyObject>, places: seq<Place>, more: seq<Place>)
    requires policies != [] && MatchesNode(policies[|policies| - 1].selector)
    requires PlacedBelow(policies, Candidates(policies[..|policies| - 1]), places, |policies| - 1)
    requires |more| == |policies[|policies| - 1].bridges|
    requires forall j :: 0 <= j < |more| ==> more[j] == Place(|policies| - 1, j)
    ensures Placed(policies, Candidates(policies), places + more)
  {
    var n := |policies| - 1;
    var all := places + more;
    forall k | 0 <= k < |all| ensures ListedAt(policies, all[k].policy, all[k].bridge, Candidates(policies)[k]) {
      if k >= |places| {
        assert all[k] == more[k - |places|];
      }
    }
    forall i, j, b | ListedAt(policies, i, j, b) ensures Place(i, j) in all {
      if i == n {
        assert more[j] == Place(n, j) && all[|places| + j] == more[j];
      }
    }
  }

  /** The k-th candidate is there. */
  ghost predicate PresentAt(policies: seq<PolicyObject>, answers: seq<Presence>, k: nat, b: BridgeSpec) {
    k < |Candidates(policies)| && Candidates(policies)[k] == b && Answer(answers, k) == Present
  }

  /** A bridge is advertised exactly when it is a candidate found present, and then with its own spec. */
  ghost predicate AdvertisesPresent(policies: seq<PolicyObject>, answers: seq<Presence>,
                                    m: map<string, AllocatableDevice>) {
    && (forall name :: name in m ==> exists k: nat :: PresentAt(policies, answers, k, m[name].spec))
    && (forall k: nat, b :: PresentAt(policies, answers, k, b) ==> b.name in m && m[b.name].spec == b)
  }

  lemma ActiveAdvertised(policies: seq<PolicyObject>, answers: seq<Presence>)
    requires Active(Candidates(policies), answers).Some?
    requires ValidBridges(Active(Candidates(policies), answers).value)
    ensures AdvertisesPresent(policies, answers, Allocatable(Active(Candidates(policies), answers).value))
  {
    var candidates := Candidates(policies);
    var chosen := Active(candidates, answers).value;
    var picks := ActiveExactly(candidates, answers);
    AllocatableOfValid(chosen);
    var m := Allocatable(chosen);
    forall name | name in m ensures exists k: nat :: PresentAt(policies, answers, k, m[name].spec) {
      var i :| 0 <= i < |chosen| && chosen[i] == m[name].spec;
      assert picks[i] in picks;
      assert PresentAt(policies, answers, picks[i], m[name].spec);
    }
    forall k: nat, b | PresentAt(policies, answers, k, b) ensures b.name in m && m[b.name].spec == b {
      var i :| 0 <= i < |picks| && picks[i] == k;
      assert chosen[i] == b && b in chosen;
    }
  }

  /** While the bridges in OVS stay the same during the lookups, a list that is accepted advertises a bridge exactly
      when it exists and a policy that applies to this node lists it. */
  lemma AdvertisedExactly(policies: seq<PolicyObject>, answers: seq<Presence>, existing: set<string>, name: string)
    requires forall k: nat :: k < |Candidates(policies)| ==>
               Answer(answers, k) == if Candidates(policies)[k].name in existing then Present else Absent
    ensures Active(Candidates(policies), answers).Some?
    ensures var bridges := Active(Candidates(policies), answers).value;
            ValidBridges(bridges) ==>
              (name in Allocatable(bridges)
               <==> name in existing && exists i, j, b :: ListedAt(policies, i, j, b) && b.name == name)
  {
    var picks := ActiveExactly(Candidates(policies), answers);
    var bridges := Active(Candidates(policies), answers).value;
    if ValidBridges(bridges) {
      var places := CandidatesExactly(policies);
      var m := Allocatable(bridges);
      ActiveAdvertised(policies, answers);
      AllocatableOfValid(bridges);
      if name in m {
        var k: nat :| PresentAt(policies, answers, k, m[name].spec);
        assert ListedAt(policies, places[k].policy, places[k].bridge, m[name].spec);
      }
      if name in existing && exists i, j, b :: ListedAt(policies, i, j, b) && b.name == name {
        var i, j, b :| ListedAt(policies, i, j, b) && b.name == name;
        var k :| 0 <= k < |places| && places[k] == Place(i, j);
        assert ListedAt(policies, i, j, Candidates(policies)[k]);
        assert PresentAt(policies, answers, k, b);
      }
    }
  }

  /** The advertised devices and the topology name the same bridges with the same topology resources. */
  ghost predicate Agreement(allocatable: map<string, AllocatableDevice>, topology: map<string, string>) {
    forall k, r :: MapsTo(topology, k, r) <==>
      k in allocatable && allocatable[k].spec.topologyResource != ""
          && ResourceName(allocatable[k].spec.topologyResource) == r
  }

  /** A bridge list that the device side accepts never conflicts on the topology side, and both describe the same
      bridges. */
  lemma AcceptedListAgrees(bridges: seq<BridgeSpec>)
    requires ValidBridges(bridges)
    ensures BuildTopology(bridges).Some?
    ensures Agreement(Allocatable(bridges), BuildTopology(bridges).value)
  {
    AllocatableOfValid(bridges);
    BuiltTopology(bridges);
    var m := Allocatable(bridges);
    forall k, r ensures Lists(bridges, k, r) <==>
                        k in m && m[k].spec.topologyResource != "" && ResourceName(m[k].spec.topologyResource) == r {
      if Lists(bridges, k, r) {
        var b :| b in bridges && b.name == k && b.topologyResource != "" && ResourceName(b.topologyResource) == r;
        assert m[b.name].spec == b;
      }
    }
  }

  /** The node and policy reads at the start of a reconcile. */
  datatype Inputs = NodeMissing | ReadFailed | Listed(policies: seq<PolicyObject>)

  datatype Outcome = Requeued | Failed | Finished

  class Reconciler {
    const node: Node
    const manager: Manager

    ghost predicate Valid()
      reads this, node, manager
    {
      manager.Valid() && WellAdvertised(node.allocatable)
    }

    constructor (node: Node, manager: Manager)
      requires manager.Valid() && WellAdvertised(node.allocatable)
      ensures Valid() && this.node == node && this.manager == manager
    {
      this.node, this.manager := node, manager;
    }

    /** The nested loops that collect the active bridges. */
    static method CollectBridges(policies: seq<PolicyObject>, answers: seq<Presence>)
      returns (active: Option<seq<BridgeSpec>>)
      ensures active == Active(Candidates(policies), answers)
    {
      var bridges: seq<BridgeSpec> := [];
      var k := 0;
      ghost var all := Candidates(policies);
      for i := 0 to |policies|
        invariant k == |Candidates(policies[..i])|
        invariant Active(Candidates(policies[..i]), answers) == Some(bridges)
      {
        assert policies[..i + 1][..i] == policies[..i];
        ghost var before := Candidates(policies[..i]);
        assert before + [] == before;
        if !MatchesNode(policies[i].selector) {
          continue;
        }
        var own := policies[i].bridges;
        assert before + own[..0] == before;
        for j := 0 to |own|
          invariant k == |before| + j
          invariant Active(before + own[..j], answers) == Some(bridges)
        {
          assert (before + own[..j + 1])[..k] == before + own[..j];
          var answer := if k < |answers| then answers[k] else LookupError;
          if answer == LookupError {
            CandidatesPrefix(policies, i + 1);
            assert all[..k + 1] == before + own[..j + 1];
            ActivePrefix(all, answers, k + 1);
            return None;
          }
          if answer == Present {
            bridges := bridges + [own[j]];
          }
          k := k + 1;
        }
        assert own[..|own|] == own;
      }
      assert policies[..|policies|] == policies;
      return Some(bridges);
    }

    /** Reconcile; `answers`, `republished` and `failing` are the outcomes of the calls it makes. */
    method Reconcile(inputs: Inputs, answers: seq<Presence>, republished: bool, failing: set<string>)
      returns (outcome: Outcome)
      requires Valid()
      modifies node`allocatable, manager`topology, manager`servers, manager`live, manager`nextId
      ensures Valid()
      ensures outcome == Finished ==> Agreement(node.allocatable, manager.topology)
      ensures inputs.Listed? && Active(Candidates(inputs.policies), answers).Some? ==>
                var bridges := Active(Candidates(inputs.policies), answers).value;
                if !ValidBridges(bridges) then
                  && outcome == Failed && node.allocatable == old(node.allocatable)
                  && manager.topology == old(manager.topology) && manager.servers == old(manager.servers)
                else if !republished then
                  && outcome == Failed && node.allocatable == Allocatable(bridges)
                  && AdvertisesPresent(inputs.policies, answers, node.allocatable)
                  && manager.topology == old(manager.topology) && manager.servers == old(manager.servers)
                else
                  && node.allocatable == Allocatable(bridges) && Agreement(node.allocatable, manager.topology)
                  && AdvertisesPresent(inputs.policies, answers, node.allocatable)
                  && Reconciled(old(manager.Nodes()), manager.Nodes(), manager.topology, manager.ovs.numaMap, failing)
                  && (outcome == Finished <==>
                        FailedStarts(old(manager.Nodes()), manager.topology, manager.ovs.numaMap, failing) == {})
      ensures !(inputs.Listed? && Active(Candidates(inputs.policies), answers).Some?) ==>
                && outcome == (if inputs.NodeMissing? then Requeued else Failed)
                && node.allocatable == old(node.allocatable) && manager.topology == old(manager.topology)
                && manager.servers == old(manager.servers)
    {
      if inputs.NodeMissing? {
        return Requeued;
      }
      if inputs.ReadFailed? {
        return Failed;
      }
      var active := CollectBridges(inputs.policies, answers);
      if active.None? {
        return Failed;
      }
      var updated := node.UpdatePolicyDevices(active.value, republished);
      if ValidBridges(active.value) {
        ActiveAdvertised(inputs.policies, answers);
      }
      if !updated {
        return Failed;
      }
      AcceptedListAgrees(active.value);
      var plugged := manager.UpdateResources(active.value, failing);
      return if plugged then Finished else Failed;
    }
  }

  lemma {:induction false} CandidatesPrefix(policies: seq<PolicyObject>, i: nat)
    requires i <= |policies|
    ensures Candidates(policies[..i]) <= Candidates(policies)
    decreases |policies| - i
  {
    if i == |policies| {
      assert policies[..i] == policies;
    } else {
      assert policies[..i + 1][..i] == policies[..i];
      CandidatesPrefix(policies, i + 1);
    }
  }
}
