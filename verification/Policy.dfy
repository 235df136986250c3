/** Which bridges a node advertises. */
module Policy {
  import opened Kube

  /** bridgeToDevice */
  function BridgeToDevice(b: BridgeSpec): AllocatableDevice {
    AllocatableDevice(b.name, b.name, b.mtu, BRIDGE_CAPACITY, true, b)
  }

  /** computeAllocatableDevices: a later bridge replaces an earlier one of the same name. */
  function Allocatable(bridges: seq<BridgeSpec>): map<string, AllocatableDevice> {
    if bridges == [] then map[]
    else
      var n := |bridges| - 1;
      Allocatable(bridges[..n])[bridges[n].name := BridgeToDevice(bridges[n])]
  }

  /** What UpdatePolicyDevices accepts: distinct names and an MTU in range everywhere. */
  ghost predicate ValidBridges(bridges: seq<BridgeSpec>) {
    && (forall i, j :: 0 <= i < j < |bridges| ==> bridges[i].name != bridges[j].name)
    && (forall i :: 0 <= i < |bridges| ==> 68 <= bridges[i].mtu <= 65535)
  }

  /** Every advertised device is its own bridge: under its name, with its name and MTU as attributes, the MTU in range,
      and room for 32768 ports that several claims may share. */
  ghost predicate WellAdvertised(m: map<string, AllocatableDevice>) {
    forall k :: k in m ==>
      && m[k].spec.name == k && m[k].name == k && m[k].bridgeAttribute == k
      && m[k].mtuAttribute == m[k].spec.mtu && 68 <= m[k].spec.mtu <= 65535
      && m[k].ports == 32768 && m[k].allowMultiple
  }

  method ComputeAllocatableDevices(bridges: seq<BridgeSpec>) returns (devices: map<string, AllocatableDevice>)
    ensures devices == Allocatable(bridges)
  {
    devices := map[];
    for i := 0 to |bridges|
      invariant devices == Allocatable(bridges[..i])
    {
      assert bridges[..i + 1][..i] == bridges[..i];
      devices := devices[bridges[i].name := BridgeToDevice(bridges[i])];
    }
    assert bridges[..|bridges|] == bridges;
  }

  /** The validation loop of UpdatePolicyDevices. */
  method ValidateBridges(bridges: seq<BridgeSpec>) returns (ok: bool)
    ensures ok <==> ValidBridges(bridges)
  {
    var seen: set<string> := {};
    for i := 0 to |bridges|
      invariant forall n :: n in seen <==> exists j :: 0 <= j < i && bridges[j].name == n
      invariant ValidBridges(bridges[..i])
    {
      var b := bridges[i];
      if b.name in seen {
        var j :| 0 <= j < i && bridges[j].name == b.name;
        return false;
      }
      seen := seen + {b.name};
      if b.mtu < MIN_MTU || b.mtu > MAX_MTU {
        return false;
      }
    }
    assert bridges[..|bridges|] == bridges;
    return true;
  }

  lemma {:induction false} AllocatableSound(bridges: seq<BridgeSpec>, k: string)
    requires k in Allocatable(bridges)
    ensures var d := Allocatable(bridges)[k];
            d == BridgeToDevice(d.spec) && d.spec.name == k && exists i :: 0 <= i < |bridges| && bridges[i] == d.spec
  {
    var n := |bridges| - 1;
    if k == bridges[n].name {
      assert bridges[n] == Allocatable(bridges)[k].spec;
    } else {
      AllocatableSound(bridges[..n], k);
      var i :| 0 <= i < n && bridges[..n][i] == Allocatable(bridges)[k].spec;
      assert bridges[i] == Allocatable(bridges)[k].spec;
    }
  }

  lemma {:induction false} AllocatableComplete(bridges: seq<BridgeSpec>, i: nat)
    requires i < |bridges| && forall j :: i < j < |bridges| ==> bridges[j].name != bridges[i].name
    ensures bridges[i].name in Allocatable(bridges) && Allocatable(bridges)[bridges[i].name].spec == bridges[i]
  {
    var n := |bridges| - 1;
    if i < n {
      assert bridges[n].name != bridges[i].name;
      AllocatableComplete(bridges[..n], i);
    }
  }

  /** Accepted bridges are advertised one to one, each under its own name. */
  lemma AllocatableOfValid(bridges: seq<BridgeSpec>)
    requires ValidBridges(bridges)
    ensures WellAdvertised(Allocatable(bridges))
    ensures forall b :: b in bridges ==> b.name in Allocatable(bridges) && Allocatable(bridges)[b.name].spec == b
    ensures forall k :: k in Allocatable(bridges) ==> Allocatable(bridges)[k].spec in bridges
  {
    var m := Allocatable(bridges);
    forall k | k in m
      ensures m[k] == BridgeToDevice(m[k].spec) && m[k].spec.name == k && m[k].spec in bridges
    {
      AllocatableSound(bridges, k);
    }
    forall b | b in bridges ensures b.name in m && m[b.name].spec == b {
      var i :| 0 <= i < |bridges| && bridges[i] == b;
      AllocatableComplete(bridges, i);
    }
  }
}
