/** The driver on one node: the stores and configuration it updates in place, and its handlers.
    Every method is proved to do what the functions of Stores, Lifecycle and Handlers say. */
module NodeDriver {
  import opened Kube
  import opened Naming
  import opened PortConfigs
  import opened StatusList
  import opened Stores
  import opened Lifecycle
  import opened Handlers
  import opened Policy

  /** The status entry updateClaimStatus builds for a prepared device. */
  function StatusEntry(result: AllocationResult, d: PreparedDevice): DeviceStatus {
    DeviceStatus(result.driver, result.pool, result.device, result.shareId,
                 PortData(d.hostDir, d.containerDir, d.hostSocket, d.containerSocket, d.bridge, [d.device.cdiId],
                          d.portConfig))
  }

  lemma PlanEntry(config: NodeConfig, claim: Claim, result: AllocationResult, cfg: PortConfig)
    requires |claim.reservedFor| == 1
    ensures var plan := PlanFor(config, claim, result, cfg); StatusEntry(result, plan.d) == plan.status
  {
  }

  lemma PlanTaken(ps: seq<Plan>, k: nat, plan: Plan, rest: seq<Plan>)
    requires k <= |ps| && ps[k..] == [plan] + rest
    ensures k < |ps| && ps[k] == plan && ps[k + 1..] == rest
  {
    assert ps[k..][0] == plan && ps[k..][1..] == rest;
  }

  /** The loop over the plans stands at w, with k of them installed and gathered, and will end in `total`. */
  ghost predicate Preparing(f: Faults, w: World, claim: Claim, ps: seq<Plan>, k: nat, total: Installed,
                            devices: seq<PreparedDevice>, status: seq<DeviceStatus>) {
    && k <= |ps|
    && devices == Devices(ps[..k])
    && status == UpsertAll(claim.devices, Statuses(ps[..k]))
    && var rest := InstallAll(f, w, ps[k..]);
       total == Installed(rest.w, rest.count + k, rest.ok)
  }

  lemma PreparingStep(f: Faults, w: World, claim: Claim, ps: seq<Plan>, k: nat, total: Installed,
                      devices: seq<PreparedDevice>, status: seq<DeviceStatus>)
    requires k < |ps| && Preparing(f, w, claim, ps, k, total, devices, status)
    ensures var first := Install(f, w, ps[k]);
            && first.w.config == w.config
            && (first.ok ==>
                  Preparing(f, first.w, claim, ps, k + 1, total, devices + [ps[k].d], Upsert(status, ps[k].status)))
            && (!first.ok ==> total == Installed(first.w, k, false))
  {
    InstallRound(f, w, ps, k);
    InstallEffect(f, w, ps[k]);
    GatherRound(claim.devices, ps, k);
  }

  class Node {
    const faults: seq<bool>

    var ports: map<string, PortRow>
    var dirs: set<string>
    var specs: map<Uid, seq<CdiDevice>>
    var store: map<Uid, seq<PreparedDevice>>
    var vhostRoot: Option<string>
    var allocatable: map<string, AllocatableDevice>
    var calls: nat
    ghost var leaked: set<Resource>
    ghost var broken: set<Uid>
    ghost var origin: map<Uid, Claim>

    ghost function View(): World
      reads this
    {
      World(ports, dirs, specs, store, NodeConfig(vhostRoot, allocatable), calls, leaked, broken, origin)
    }

    constructor (faults: seq<bool>, ports: map<string, PortRow>, dirs: set<string>)
      ensures this.faults == faults
      ensures View() == World(ports, dirs, map[], map[], NodeConfig(None, map[]), 0, {}, {}, map[])
    {
      this.faults, this.ports, this.dirs := faults, ports, dirs;
      this.specs, this.store, this.vhostRoot, this.allocatable, this.calls := map[], map[], None, map[], 0;
      this.leaked, this.broken, this.origin := {}, {}, map[];
    }

    /** The outcome of the next external call. */
    method Call() returns (ok: bool)
      modifies this`calls
      ensures View() == Tick(old(View())) && ok == !Fails(faults, old(View()))
    {
      ok := !(calls < |faults| && faults[calls]);
      calls := calls + 1;
    }

    // --- socket directories ---

    method RemoveSocketDir(path: string) returns (ok: bool)
      modifies this
      ensures View() == RemoveDir(faults, old(View()), path).w
      ensures ok == RemoveDir(faults, old(View()), path).ok
    {
      ok := Call();
      if ok {
        dirs := dirs - {path};
        leaked := leaked - {DirRes(path)};
      } else {
        leaked := leaked + {DirRes(path)};
      }
    }

    method CreateSocketDir(path: string) returns (ok: bool)
      modifies this
      ensures View() == CreateDir(faults, old(View()), path).w
      ensures ok == CreateDir(faults, old(View()), path).ok
    {
      ok := Call();
      if !ok {
        return;
      }
      dirs := dirs + {path};
      ok := Call();
      if !ok {
        var _ := RemoveSocketDir(path);
      }
    }

    // --- OVS ports ---

    method CreateOvsPort(bridge: string, name: string, socket: string, params: PortParams) returns (ok: bool)
      modifies this
      ensures var o := CreatePort(faults, old(View()), name, PortRow(bridge, socket, params));
              View() == o.w && ok == o.ok
    {
      ok := Call();
      ok := ok && name !in ports;
      if ok {
        ports := ports[name := PortRow(bridge, socket, params)];
      }
    }

    method DeleteOvsPort(bridge: string, name: string) returns (answer: DeleteAnswer)
      modifies this
      ensures View() == DeletePort(faults, old(View()), bridge, name).w
      ensures answer == DeletePort(faults, old(View()), bridge, name).answer
    {
      var ok := Call();
      if !ok {
        leaked := leaked + {PortRes(bridge, name)};
        return DeleteFailed;
      }
      leaked := leaked - {PortRes(bridge, name)};
      if name !in ports {
        return PortNotFound;
      }
      if ports[name].bridge == bridge {
        ports := ports - {name};
      }
      return Deleted;
    }

    // --- CDI specs ---

    method CreateClaimSpecFile(prepared: seq<PreparedDevice>) returns (ok: bool)
      requires prepared != []
      modifies this
      ensures var o := WriteSpec(faults, old(View()), prepared[0].claimUid, SpecDevices(prepared));
              View() == o.w && ok == o.ok
    {
      var uid := prepared[0].claimUid;
      var cdiDevices: seq<CdiDevice> := [];
      for i := 0 to |prepared|
        invariant cdiDevices == SpecDevices(prepared)[..i]
        invariant View() == old(View())
      {
        var pd := prepared[i];
        cdiDevices := cdiDevices + [CdiDevice(CdiName(uid, pd.device.device, pd.device.request), pd.hostDir,
                                              pd.containerDir)];
      }
      assert cdiDevices == SpecDevices(prepared);
      ok := Call();
      if ok {
        specs := specs[uid := cdiDevices];
      }
    }

    method DeleteClaimSpecFile(uid: Uid)
      modifies this
      ensures View() == DeleteSpec(faults, old(View()), uid).w
    {
      var ok := Call();
      if ok {
        specs := specs - {uid};
        leaked := leaked - {SpecRes(uid)};
      } else {
        leaked := leaked + {SpecRes(uid)};
      }
    }

    // --- claim store ---

    method ClaimStoreGet(uid: Uid) returns (devices: Option<seq<PreparedDevice>>)
      modifies this
      ensures View() == StoreGet(faults, old(View()), uid).w
      ensures devices == StoreGet(faults, old(View()), uid).devices
    {
      var ok := Call();
      devices := if !ok then None else if uid in store then Some(store[uid]) else Some([]);
    }

    method ClaimStoreSet(claim: Claim, devices: seq<PreparedDevice>) returns (ok: bool)
      modifies this
      ensures View() == StoreSet(faults, old(View()), claim, devices).w
      ensures ok == StoreSet(faults, old(View()), claim, devices).ok
    {
      ok := Call();
      if ok {
        store := store[claim.uid := devices];
        origin := origin[claim.uid := claim];
      }
    }

    method ClaimStoreDelete(uid: Uid) returns (ok: bool)
      modifies this
      ensures View() == StoreDelete(faults, old(View()), uid).w
      ensures ok == StoreDelete(faults, old(View()), uid).ok
    {
      ok := Call();
      if ok {
        store := store - {uid};
        origin := origin - {uid};
      }
    }

    // --- devices of a claim ---

    /** unprepareDevice */
    method UnprepareOneDevice(pd: PreparedDevice) returns (ok: bool)
      modifies this
      ensures View() == UnprepareDevice(faults, old(View()), pd).w
      ensures ok == UnprepareDevice(faults, old(View()), pd).ok
    {
      DeleteClaimSpecFile(pd.claimUid);
      var answer := DeleteOvsPort(pd.bridge, pd.portName);
      var removed := RemoveSocketDir(pd.hostDir);
      ok := answer != DeleteFailed && removed;
    }

    /** UnprepareResourceClaim; rollback runs the same loop and joins the errors to its own. */
    method UnprepareResourceClaim(prepared: seq<PreparedDevice>) returns (ok: bool)
      modifies this
      ensures View() == UnprepareAll(faults, old(View()), prepared).w
      ensures ok == UnprepareAll(faults, old(View()), prepared).ok
    {
      ok := true;
      assert prepared[0..] == prepared;
      for i := 0 to |prepared|
        invariant UnprepareAll(faults, View(), prepared[i..]).w == UnprepareAll(faults, old(View()), prepared).w
        invariant (ok && UnprepareAll(faults, View(), prepared[i..]).ok)
               == UnprepareAll(faults, old(View()), prepared).ok
      {
        assert prepared[i..][1..] == prepared[i + 1..];
        var deviceOk := UnprepareOneDevice(prepared[i]);
        ok := ok && deviceOk;
      }
    }

    /** prepareDevice */
    method PrepareDevice(claim: Claim, result: AllocationResult, portConfig: PortConfig)
      returns (pd: Option<PreparedDevice>)
      requires |claim.reservedFor| == 1
      modifies this
      ensures var plan := PlanFor(old(View()).config, claim, result, portConfig);
              && View() == Install(faults, old(View()), plan).w
              && pd == if Install(faults, old(View()), plan).ok then Some(plan.d) else None
    {
      if vhostRoot.None? {
        return None;
      }
      var root := vhostRoot.value;
      var mtu := if result.device in allocatable then allocatable[result.device].spec.mtu else 0;
      var socketDir := SocketDir(claim.reservedFor[0].uid, PodClaimName(claim), result.request);
      var created := CreateSocketDir(socketDir);
      if !created {
        return None;
      }
      var hostSocket := Join(socketDir, VHOST_SOCKET);
      var portName := OvsPortName(claim.uid, result.request);
      var params := PortParamsFor(claim, portConfig, mtu);
      var ported := CreateOvsPort(result.device, portName, hostSocket, params);
      if !ported {
        var _ := RemoveSocketDir(socketDir);
        return None;
      }
      var cdiId := DeviceId(claim.uid, result.device, result.request);
      var containerDir := ContainerDir(root, PodClaimName(claim), result.request);
      var containerSocket := Join(containerDir, VHOST_SOCKET);
      var device := KubeletDevice(result.request, result.pool, result.device, cdiId,
                                  MetadataFor(containerSocket, params));
      pd := Some(PreparedDevice(device, claim.uid, claim.name, claim.namespace, result.device, portName,
                                socketDir, containerDir, hostSocket, containerSocket, portConfig));
    }

    /** PrepareResourceClaim; `claim'` is the claim with its status list updated in place. */
    method PrepareResourceClaim(claim: Claim) returns (prepared: Option<seq<PreparedDevice>>, claim': Claim)
      modifies this
      ensures var o := PrepareClaim(faults, old(View()), claim);
              View() == o.w && prepared == o.devices && claim' == o.claim
    {
      claim' := claim;
      if claim.allocation.None? || |claim.reservedFor| != 1 {
        return None, claim';
      }
      var configs := ParseClaimConfigs(claim.allocation.value.configs);
      if configs.None? {
        return None, claim';
      }
      var ok, devices, status := PrepareResults(claim, configs.value, claim.allocation.value.results);
      claim' := claim.(devices := status);
      if !ok {
        var _ := UnprepareResourceClaim(devices);
        return None, claim';
      }
      if |devices| == 0 {
        return None, claim';
      }
      ghost var ps := ClaimPlans(old(View()).config, claim);
      PlansBridge(old(View()).config, claim);
      assert ps[..|ps|] == ps && ps[0] in ps;
      var written := CreateClaimSpecFile(devices);
      if !written {
        var _ := UnprepareResourceClaim(devices);
        return None, claim';
      }
      return Some(devices), claim';
    }

    /** The loop of PrepareResourceClaim over the allocation results, up to its first failing device. */
    method PrepareResults(claim: Claim, configs: ClaimPortConfigs, results: seq<AllocationResult>)
      returns (ok: bool, devices: seq<PreparedDevice>, status: seq<DeviceStatus>)
      requires |claim.reservedFor| == 1
      modifies this
      ensures var ps := Plans(old(View()).config, claim, configs, results);
              var o := InstallAll(faults, old(View()), ps);
              && View() == o.w && ok == o.ok
              && devices == Devices(ps[..o.count])
              && status == UpsertAll(claim.devices, Statuses(ps[..o.count]))
    {
      ghost var config := View().config;
      ghost var ps := Plans(config, claim, configs, results);
      ghost var total := InstallAll(faults, View(), ps);
      ghost var k := 0;
      devices, status := [], claim.devices;
      assert results[0..] == results && ps[0..] == ps;
      for i := 0 to |results|
        invariant View().config == config
        invariant Preparing(faults, View(), claim, ps, k, total, devices, status)
        invariant ps[k..] == Plans(config, claim, configs, results[i..])
      {
        var result := results[i];
        PlanRound(config, claim, configs, results, i);
        if result.driver != DRIVER_NAME {
          continue;
        }
        var portConfig := GetConfig(configs, result.request);
        PlanTaken(ps, k, PlanFor(config, claim, result, portConfig), Plans(config, claim, configs, results[i + 1..]));
        PlanEntry(config, claim, result, portConfig);
        PreparingStep(faults, View(), claim, ps, k, total, devices, status);
        var pd := PrepareDevice(claim, result, portConfig);
        if pd.None? {
          return false, devices, status;
        }
        var entry := StatusEntry(result, pd.value);
        status := UpsertDeviceStatus(status, entry);
        devices := devices + [pd.value];
        k := k + 1;
      }
      assert ps[..k] == ps;
      return true, devices, status;
    }

    // --- kubelet handlers ---

    /** PrepareResourceClaims.  `notices` are the claims handed to the status writer, in order. */
    method PrepareResourceClaims(claims: seq<Claim>)
      returns (results: Option<map<Uid, PrepareResult>>, failed: bool, notices: seq<Claim>)
      modifies this
      ensures PreparedBatch(View(), results, failed, notices) == PrepareBatch(faults, old(View()), claims, map[], [])
    {
      var answers: map<Uid, PrepareResult> := map[];
      notices := [];
      assert claims[0..] == claims;
      for i := 0 to |claims|
        invariant PrepareBatch(faults, View(), claims[i..], answers, notices)
               == PrepareBatch(faults, old(View()), claims, map[], [])
      {
        var claim := claims[i];
        assert claims[i..][1..] == claims[i + 1..];
        var answer, notice := PrepareOneClaim(claim);
        if answer.StoreReadError? {
          return None, true, notices;
        }
        if answer.PrepareRefused? {
          return Some(answers[claim.uid := PrepareError]), true, notices;
        }
        var report := PreparedDevicesToResult(answer.devices);
        answers := answers[claim.uid := report];
        if notice.Some? {
          notices := notices + [notice.value];
        } else {
          assert notices + [] == notices;
        }
      }
      return Some(answers), false, notices;
    }

    /** The loop body of PrepareResourceClaims. */
    method PrepareOneClaim(claim: Claim) returns (answer: PrepareAnswer, notice: Option<Claim>)
      modifies this
      ensures PreparedOne(View(), answer, notice) == PrepareOne(faults, old(View()), claim)
    {
      var stored := ClaimStoreGet(claim.uid);
      if stored.None? {
        return StoreReadError, None;
      }
      if |stored.value| > 0 {
        return PrepareAnswered(stored.value), None;
      }
      var prepared, claim' := PrepareResourceClaim(claim);
      if prepared.None? {
        return PrepareRefused, None;
      }
      var saved := ClaimStoreSet(claim, prepared.value);
      if !saved {
        var _ := UnprepareResourceClaim(prepared.value);
        return PrepareRefused, None;
      }
      return PrepareAnswered(prepared.value), Some(claim');
    }

    static method PreparedDevicesToResult(prepared: seq<PreparedDevice>) returns (result: PrepareResult)
      ensures result == Report(prepared)
    {
      var devices: seq<KubeletDevice> := [];
      for i := 0 to |prepared|
        invariant devices == Report(prepared).devices[..i]
      {
        devices := devices + [prepared[i].device];
      }
      result := Ready(devices);
    }

    /** UnprepareResourceClaims; a result is true when its error is nil. */
    method UnprepareResourceClaims(uids: seq<Uid>) returns (results: Option<map<Uid, bool>>)
      modifies this
      ensures UnpreparedBatch(View(), results) == UnprepareBatch(faults, old(View()), uids, map[])
    {
      var answers: map<Uid, bool> := map[];
      assert uids[0..] == uids;
      for i := 0 to |uids|
        invariant UnprepareBatch(faults, View(), uids[i..], answers) == UnprepareBatch(faults, old(View()), uids, map[])
      {
        var uid := uids[i];
        assert uids[i..][1..] == uids[i + 1..];
        var answer := UnprepareOneClaim(uid);
        if answer == UnprepareReadError || answer == EntryDeleteError {
          return None;
        }
        answers := answers[uid := answer != CleanupFailed];
      }
      return Some(answers);
    }

    /** The loop body of UnprepareResourceClaims. */
    method UnprepareOneClaim(uid: Uid) returns (answer: UnprepareAnswer)
      modifies this
      ensures UnpreparedOne(View(), answer) == UnprepareOne(faults, old(View()), uid)
    {
      var stored := ClaimStoreGet(uid);
      if stored.None? {
        return UnprepareReadError;
      }
      if |stored.value| == 0 {
        return NothingStored;
      }
      ghost var first := calls;
      var ok := UnprepareResourceClaim(stored.value);
      if !ok {
        broken := Marked(faults, uid, first, View());
        return CleanupFailed;
      }
      var deleted := ClaimStoreDelete(uid);
      if !deleted {
        broken := broken + {uid};
        return EntryDeleteError;
      }
      broken := broken - {uid};
      return Unprepared;
    }

    // --- configuration ---

    /** UpdateConfig; None is a missing or empty configuration object. */
    method UpdateConfig(root: Option<string>)
      modifies this`vhostRoot
      ensures root.None? ==> vhostRoot == None
      ensures root.Some? ==> vhostRoot == Some(if root.value == "" then DEFAULT_CONTAINER_ROOT else root.value)
      ensures View() == Apply(faults, old(View()), ConfigureOp(NodeConfig(vhostRoot, old(allocatable))))
    {
      if root.None? {
        vhostRoot := None;
      } else {
        vhostRoot := if root.value == "" then Some(DEFAULT_CONTAINER_ROOT) else root;
      }
    }

    /** UpdatePolicyDevices; `republished` is the outcome of the republish callback. */
    method UpdatePolicyDevices(bridges: seq<BridgeSpec>, republished: bool) returns (ok: bool)
      modifies this`allocatable
      ensures ok <==> ValidBridges(bridges) && republished
      ensures allocatable == if ValidBridges(bridges) then Allocatable(bridges) else old(allocatable)
      ensures View() == Apply(faults, old(View()), ConfigureOp(NodeConfig(old(vhostRoot), allocatable)))
      ensures WellAdvertised(old(allocatable)) ==> WellAdvertised(allocatable)
    {
      var valid := ValidateBridges(bridges);
      if !valid {
        return false;
      }
      AllocatableOfValid(bridges);
      allocatable := ComputeAllocatableDevices(bridges);
      return republished;
    }
  }
}
