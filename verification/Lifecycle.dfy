/** Preparing and unpreparing the devices of one claim, with its manual rollback. */
module Lifecycle {
  import opened Kube
  import opened Naming
  import opened Policy
  import opened PortConfigs
  import opened StatusList
  import opened Stores

  // ---------------------------------------------------------------------------
  // Removing devices
  // ---------------------------------------------------------------------------

  /** unprepareDevice: a failed spec removal is only logged and a missing port is tolerated. */
  function UnprepareDevice(f: Faults, w: World, d: PreparedDevice): Outcome {
    var w1 := DeleteSpec(f, w, d.claimUid).w;
    var port := DeletePort(f, w1, d.bridge, d.portName);
    var dir := RemoveDir(f, port.w, d.hostDir);
    Outcome(dir.w, port.answer != DeleteFailed && dir.ok)
  }

  /** UnprepareResourceClaim and the loop of rollback: every device is tried. */
  function UnprepareAll(f: Faults, w: World, ds: seq<PreparedDevice>): Outcome
    decreases ds
  {
    if ds == [] then Outcome(w, true)
    else
      var first := UnprepareDevice(f, w, ds[0]);
      var rest := UnprepareAll(f, first.w, ds[1..]);
      Outcome(rest.w, first.ok && rest.ok)
  }

  /** From w to w' cleanup calls were made for exactly the resources R. */
  ghost predicate Cleaned(w: World, w': World, R: set<Resource>) {
    && w' == w.(ports := w'.ports, dirs := w'.dirs, specs := w'.specs, leaked := w'.leaked, calls := w'.calls)
    && (forall p :: p in w'.ports ==> p in w.ports && w'.ports[p] == w.ports[p])
    && (forall u :: u in w'.specs ==> u in w.specs && w'.specs[u] == w.specs[u])
    && (forall r :: Exists(w', r) ==> Exists(w, r))
    && (forall r :: r !in R && Exists(w, r) ==> Exists(w', r))
    && (forall r :: r !in R ==> (r in w'.leaked <==> r in w.leaked))
    && (forall r :: r in R && Exists(w', r) ==> r in w'.leaked)
  }

  lemma CleanedThen(w: World, w1: World, w2: World, R1: set<Resource>, R2: set<Resource>)
    requires Cleaned(w, w1, R1) && Cleaned(w1, w2, R2)
    ensures Cleaned(w, w2, R1 + R2)
  {
  }

  lemma DeleteSpecCleans(f: Faults, w: World, uid: Uid)
    ensures Cleaned(w, DeleteSpec(f, w, uid).w, {SpecRes(uid)})
  {
  }

  lemma DeletePortCleans(f: Faults, w: World, bridge: string, name: string)
    ensures var o := DeletePort(f, w, bridge, name);
            && Cleaned(w, o.w, {PortRes(bridge, name)})
            && (o.answer != DeleteFailed ==> !Exists(o.w, PortRes(bridge, name)))
  {
    var w', removed := DeletePort(f, w, bridge, name).w, PortRes(bridge, name);
    if !Fails(f, w) {
      forall r ensures Exists(w', r) <==> Exists(w, r) && r != removed {
        if r.PortRes? {
          assert r.name in w'.ports <==> r.name in w.ports && !(r.name == name && w.ports[name].bridge == bridge);
        }
      }
    }
  }

  lemma RemoveDirCleans(f: Faults, w: World, path: string)
    ensures var o := RemoveDir(f, w, path);
            Cleaned(w, o.w, {DirRes(path)}) && (o.ok ==> !Exists(o.w, DirRes(path)))
  {
  }

  lemma UnprepareDeviceCleans(f: Faults, w: World, d: PreparedDevice)
    ensures Cleaned(w, UnprepareDevice(f, w, d).w, ResourcesOf(d))
    ensures var o := UnprepareDevice(f, w, d); o.ok ==> !Exists(o.w, PortOf(d)) && !Exists(o.w, DirOf(d))
  {
    var w1 := DeleteSpec(f, w, d.claimUid).w;
    var w2 := DeletePort(f, w1, d.bridge, d.portName).w;
    var w3 := RemoveDir(f, w2, d.hostDir).w;
    DeleteSpecCleans(f, w, d.claimUid);
    DeletePortCleans(f, w1, d.bridge, d.portName);
    RemoveDirCleans(f, w2, d.hostDir);
    CleanedThen(w, w1, w2, {SpecOf(d)}, {PortOf(d)});
    CleanedThen(w, w2, w3, {SpecOf(d)} + {PortOf(d)}, {DirOf(d)});
    assert {SpecOf(d)} + {PortOf(d)} + {DirOf(d)} == ResourcesOf(d);
  }

  /** Cleaning a claim's devices removes each of their resources or records it, and touches nothing else. */
  lemma {:induction false} UnprepareAllCleans(f: Faults, w: World, ds: seq<PreparedDevice>)
    ensures Cleaned(w, UnprepareAll(f, w, ds).w, AllResources(ds))
    ensures var o := UnprepareAll(f, w, ds);
            o.ok ==> forall d :: d in ds ==> !Exists(o.w, PortOf(d)) && !Exists(o.w, DirOf(d))
    decreases ds
  {
    if ds != [] {
      var first := UnprepareDevice(f, w, ds[0]);
      var rest := UnprepareAll(f, first.w, ds[1..]);
      UnprepareDeviceCleans(f, w, ds[0]);
      UnprepareAllCleans(f, first.w, ds[1..]);
      CleanedThen(w, first.w, rest.w, ResourcesOf(ds[0]), AllResources(ds[1..]));
      assert AllResources(ds) == ResourcesOf(ds[0]) + AllResources(ds[1..]);
    }
  }

  // ---------------------------------------------------------------------------
  // Installing devices
  // ---------------------------------------------------------------------------

  /** Everything prepareDevice derives for one allocation result before it makes a call. */
  datatype Plan = Plan(d: PreparedDevice, row: PortRow, status: DeviceStatus)

  function IngressRate(c: PortConfig): nat {
    if c.policing.Some? && c.policing.value.maxRate.Some? then c.policing.value.maxRate.value else 0
  }

  function IngressBurst(c: PortConfig): nat {
    if c.policing.Some? && c.policing.value.burst.Some? then c.policing.value.burst.value else 0
  }

  /** The MTU of a bridge; a bridge that is not allocatable reads as the zero spec. */
  function BridgeMtu(config: NodeConfig, bridge: string): int {
    if bridge in config.allocatable then config.allocatable[bridge].spec.mtu else 0
  }

  function ContainerRoot(config: NodeConfig): string {
    if config.vhostRoot.Some? then config.vhostRoot.value else ""
  }

  function PortParamsFor(claim: Claim, cfg: PortConfig, mtu: int): PortParams
    requires |claim.reservedFor| == 1
  {
    PortParams(claim.uid, claim.name, claim.namespace, claim.reservedFor[0].name,
               cfg.vlan, IngressRate(cfg), IngressBurst(cfg), mtu)
  }

  function Positive(n: nat): Option<nat> {
    if n > 0 then Some(n) else None
  }

  function MetadataFor(socket: string, params: PortParams): Metadata {
    Metadata(socket, params.mtu, Positive(params.ingressRate), Positive(params.ingressBurst))
  }

  function PlanFor(config: NodeConfig, claim: Claim, result: AllocationResult, cfg: PortConfig): Plan
    requires |claim.reservedFor| == 1
  {
    var root := ContainerRoot(config);
    var hostDir := SocketDir(claim.reservedFor[0].uid, PodClaimName(claim), result.request);
    var hostSocket := Join(hostDir, VHOST_SOCKET);
    var containerDir := ContainerDir(root, PodClaimName(claim), result.request);
    var containerSocket := Join(containerDir, VHOST_SOCKET);
    var params := PortParamsFor(claim, cfg, BridgeMtu(config, result.device));
    var cdiId := DeviceId(claim.uid, result.device, result.request);
    var device := KubeletDevice(result.request, result.pool, result.device, cdiId,
                                MetadataFor(containerSocket, params));
    Plan(
      PreparedDevice(device, claim.uid, claim.name, claim.namespace, result.device,
                     OvsPortName(claim.uid, result.request), hostDir, containerDir, hostSocket, containerSocket, cfg),
      PortRow(result.device, hostSocket, params),
      DeviceStatus(result.driver, result.pool, result.device, result.shareId,
                   PortData(hostDir, containerDir, hostSocket, containerSocket, result.device, [cdiId], cfg)))
  }

  /** The plans of the results allocated from this driver, in order. */
  function Plans(config: NodeConfig, claim: Claim, configs: ClaimPortConfigs,
                 results: seq<AllocationResult>): (ps: seq<Plan>)
    requires |claim.reservedFor| == 1
    ensures forall p :: p in ps ==> PlanOf(config, claim, p)
    decreases results
  {
    if results == [] then []
    else
      var rest := Plans(config, claim, configs, results[1..]);
      if results[0].driver != DRIVER_NAME then rest
      else [PlanFor(config, claim, results[0], GetConfig(configs, results[0].request))] + rest
  }

  /** The plans are those of this driver's results, each with the configuration of its request. */
  lemma {:induction false} PlanSource(config: NodeConfig, claim: Claim, configs: ClaimPortConfigs,
                                      results: seq<AllocationResult>, p: Plan)
    requires |claim.reservedFor| == 1
    ensures p in Plans(config, claim, configs, results)
       <==> exists r :: r in results && r.driver == DRIVER_NAME &&
                        p == PlanFor(config, claim, r, GetConfig(configs, r.request))
    decreases results
  {
    if results != [] {
      PlanSource(config, claim, configs, results[1..], p);
      assert results == [results[0]] + results[1..];
    }
  }

  /** The results allocated from this driver. */
  function OwnResults(results: seq<AllocationResult>): (own: seq<AllocationResult>)
  {
    if results == [] then []
    else if results[0].driver != DRIVER_NAME then OwnResults(results[1..])
    else [results[0]] + OwnResults(results[1..])
  }

  /** The i-th plan is for the i-th result from this driver. */
  lemma {:induction false} PlanOfOwn(config: NodeConfig, claim: Claim, configs: ClaimPortConfigs,
                                     results: seq<AllocationResult>, i: nat)
    requires |claim.reservedFor| == 1
    ensures var ps, own := Plans(config, claim, configs, results), OwnResults(results);
            && |ps| == |own|
            && (i < |ps| ==> ps[i] == PlanFor(config, claim, own[i], GetConfig(configs, own[i].request)))
    decreases results
  {
    if results != [] {
      var own := results[0].driver == DRIVER_NAME;
      PlanOfOwn(config, claim, configs, results[1..], if own && i > 0 then i - 1 else i);
    }
  }

  lemma PlansOfOwn(config: NodeConfig, claim: Claim, configs: ClaimPortConfigs, results: seq<AllocationResult>)
    requires |claim.reservedFor| == 1
    ensures var ps, own := Plans(config, claim, configs, results), OwnResults(results);
            && |ps| == |own|
            && forall i :: 0 <= i < |ps| ==> ps[i] == PlanFor(config, claim, own[i], GetConfig(configs, own[i].request))
  {
    var ps, own := Plans(config, claim, configs, results), OwnResults(results);
    PlanOfOwn(config, claim, configs, results, 0);
    forall i | 0 <= i < |ps| ensures ps[i] == PlanFor(config, claim, own[i], GetConfig(configs, own[i].request)) {
      PlanOfOwn(config, claim, configs, results, i);
    }
  }

  /** Every planned port has a valid configuration and the MTU of its advertised bridge, in range; a bridge that is no
      longer advertised gives MTU 0. */
  lemma PlannedPortValid(config: NodeConfig, claim: Claim, p: Plan)
    requires p in ClaimPlans(config, claim) && WellAdvertised(config.allocatable)
    ensures InRange(p.d.portConfig) && p.row.params.vlan == p.d.portConfig.vlan
    ensures if p.d.bridge in config.allocatable then 68 <= p.row.params.mtu <= 65535 else p.row.params.mtu == 0
  {
    var configs := claim.allocation.value.configs;
    PlanSource(config, claim, Parse(configs).value, claim.allocation.value.results, p);
    var r :| r in claim.allocation.value.results && r.driver == DRIVER_NAME
      && p == PlanFor(config, claim, r, GetConfig(Parse(configs).value, r.request));
    ConfigAlwaysValid(configs, r.request);
  }

  /** What every plan of a claim records, whatever its result. */
  ghost predicate PlanOf(config: NodeConfig, claim: Claim, p: Plan)
    requires |claim.reservedFor| == 1
  {
    && p.row.bridge == p.d.bridge
    && p.row.params.mtu == BridgeMtu(config, p.d.bridge)
    && p.status.driver == DRIVER_NAME
    && StatusMatches(p.status, p.d)
    && DeviceOf(claim, p.d)
    && RowMatches(p.row, p.d)
  }

  /** The status entry shows the device it was made for. */
  predicate StatusMatches(s: DeviceStatus, d: PreparedDevice) {
    && s.pool == d.device.pool && s.device == d.device.device
    && s.data == PortData(d.hostDir, d.containerDir, d.hostSocket, d.containerSocket, d.bridge, [d.device.cdiId],
                          d.portConfig)
  }

  /** The device carries the names that belong to the claim and its request. */
  ghost predicate DeviceOf(claim: Claim, d: PreparedDevice)
    requires |claim.reservedFor| == 1
  {
    && d.claimUid == claim.uid
    && d.portName == OvsPortName(claim.uid, d.device.request)
    && d.hostDir == SocketDir(claim.reservedFor[0].uid, PodClaimName(claim), d.device.request)
    && d.device.cdiId == QualifiedName(CdiName(claim.uid, d.device.device, d.device.request))
  }

  /** The port row is the one described by the device record. */
  predicate RowMatches(row: PortRow, d: PreparedDevice) {
    && row.bridge == d.bridge
    && row.socket == d.hostSocket
    && row.params.claimUid == d.claimUid
    && row.params.claimName == d.claimName
    && row.params.namespace == d.namespace
    && row.params.vlan == d.portConfig.vlan
    && row.params.ingressRate == IngressRate(d.portConfig)
    && row.params.ingressBurst == IngressBurst(d.portConfig)
    && d.device.metadata == MetadataFor(d.containerSocket, row.params)
  }

  /** prepareDevice on a plan. */
  function Install(f: Faults, w: World, p: Plan): Outcome {
    if w.config.vhostRoot.None? then Outcome(w, false)
    else
      var dir := CreateDir(f, w, p.d.hostDir);
      if !dir.ok then dir
      else
        var port := CreatePort(f, dir.w, p.d.portName, p.row);
        if port.ok then port else Outcome(RemoveDir(f, port.w, p.d.hostDir).w, false)
  }

  datatype Installed = Installed(w: World, count: nat, ok: bool)

  /** The loop of PrepareResourceClaim up to its first failure: `count` plans are installed. */
  function InstallAll(f: Faults, w: World, ps: seq<Plan>): (o: Installed)
    ensures o.count <= |ps| && (o.ok <==> o.count == |ps|)
    decreases ps
  {
    if ps == [] then Installed(w, 0, true)
    else
      var first := Install(f, w, ps[0]);
      if !first.ok then Installed(first.w, 0, false)
      else
        var rest := InstallAll(f, first.w, ps[1..]);
        Installed(rest.w, rest.count + 1, rest.ok)
  }

  function Devices(ps: seq<Plan>): (ds: seq<PreparedDevice>)
    ensures |ds| == |ps|
    ensures forall i :: 0 <= i < |ps| ==> ds[i] == ps[i].d
  {
    seq(|ps|, i requires 0 <= i < |ps| => ps[i].d)
  }

  function Statuses(ps: seq<Plan>): (ss: seq<DeviceStatus>)
    ensures |ss| == |ps|
    ensures forall i :: 0 <= i < |ps| ==> ss[i] == ps[i].status
  {
    seq(|ps|, i requires 0 <= i < |ps| => ps[i].status)
  }

  /** One round of the install loop, at position k. */
  lemma InstallRound(f: Faults, w: World, ps: seq<Plan>, k: nat)
    requires k < |ps|
    ensures var first := Install(f, w, ps[k]);
            InstallAll(f, w, ps[k..]) ==
            (if !first.ok then Installed(first.w, 0, false)
             else var rest := InstallAll(f, first.w, ps[k + 1..]); Installed(rest.w, rest.count + 1, rest.ok))
  {
    assert ps[k..][1..] == ps[k + 1..];
  }

  /** One round of gathering the devices and their status entries. */
  lemma GatherRound(list: seq<DeviceStatus>, ps: seq<Plan>, k: nat)
    requires k < |ps|
    ensures Devices(ps[..k + 1]) == Devices(ps[..k]) + [ps[k].d]
    ensures UpsertAll(list, Statuses(ps[..k + 1])) == Upsert(UpsertAll(list, Statuses(ps[..k])), ps[k].status)
  {
    assert Statuses(ps[..k + 1])[..k] == Statuses(ps[..k]);
  }

  /** One round of planning. */
  lemma PlanRound(config: NodeConfig, claim: Claim, configs: ClaimPortConfigs, results: seq<AllocationResult>, i: nat)
    requires |claim.reservedFor| == 1 && i < |results|
    ensures var rest := Plans(config, claim, configs, results[i + 1..]);
            Plans(config, claim, configs, results[i..]) ==
            (if results[i].driver != DRIVER_NAME then rest
             else [PlanFor(config, claim, results[i], GetConfig(configs, results[i].request))] + rest)
  {
    assert results[i..][1..] == results[i + 1..];
  }

  /** A failed install leaves its directory as it was, removed, or on record as not removed. */
  ghost predicate InstallFailed(w: World, w': World, dir: string) {
    && w' == w.(dirs := w'.dirs, leaked := w'.leaked, calls := w'.calls)
    && (|| (w'.dirs == w.dirs && w'.leaked == w.leaked)
        || (w'.dirs == w.dirs - {dir} && w'.leaked == w.leaked - {DirRes(dir)})
        || (w'.dirs == w.dirs + {dir} && w'.leaked == w.leaked + {DirRes(dir)}))
  }

  lemma CreateDirEffect(f: Faults, w: World, path: string)
    ensures var o := CreateDir(f, w, path);
            if o.ok then o.w == w.(dirs := w.dirs + {path}, calls := o.w.calls) else InstallFailed(w, o.w, path)
  {
    if !Fails(f, w) {
      RemoveAgain(f, w, Tick(Tick(w).(dirs := w.dirs + {path})), path);
    }
  }

  /** Removing the directory just made, x being the world that has it. */
  lemma RemoveAgain(f: Faults, w: World, x: World, path: string)
    requires x == w.(dirs := w.dirs + {path}, calls := x.calls)
    ensures InstallFailed(w, RemoveDir(f, x, path).w, path)
  {
    assert w.dirs + {path} - {path} == w.dirs - {path};
  }

  lemma InstallEffect(f: Faults, w: World, p: Plan)
    ensures var o := Install(f, w, p);
            if o.ok then
              && p.d.portName !in w.ports
              && o.w == w.(ports := w.ports[p.d.portName := p.row], dirs := w.dirs + {p.d.hostDir}, calls := o.w.calls)
            else InstallFailed(w, o.w, p.d.hostDir)
  {
    if w.config.vhostRoot.Some? {
      var dir := CreateDir(f, w, p.d.hostDir);
      CreateDirEffect(f, w, p.d.hostDir);
      if dir.ok {
        RemoveAgain(f, w, Tick(dir.w), p.d.hostDir);
      }
    }
  }

  /** The install made its directory, whatever came after. */
  predicate MakesDir(f: Faults, w: World) {
    w.config.vhostRoot.Some? && !Fails(f, w)
  }

  /** A failed install that never made its directory changed nothing; otherwise it is removed or on record. */
  lemma FailedInstallDir(f: Faults, w: World, p: Plan)
    requires !Install(f, w, p).ok
    ensures var w', dir := Install(f, w, p).w, p.d.hostDir;
            && InstallFailed(w, w', dir)
            && (!MakesDir(f, w) ==> w'.dirs == w.dirs && w'.leaked == w.leaked)
            && (MakesDir(f, w) ==> dir !in w'.dirs || DirRes(dir) in w'.leaked)
  {
    InstallEffect(f, w, p);
  }

  /** How many of the plans get their directory made, before the first failure or in it. */
  function DirsMade(f: Faults, w: World, ps: seq<Plan>): (n: nat)
    ensures n <= |ps|
    decreases ps
  {
    if ps == [] || !MakesDir(f, w) then 0
    else
      var first := Install(f, w, ps[0]);
      if first.ok then DirsMade(f, first.w, ps[1..]) + 1 else 1
  }

  /** From w to w' exactly these plans were installed, each under a port name that was free. */
  ghost predicate Grown(w: World, w': World, ps: seq<Plan>) {
    && w' == w.(ports := w'.ports, dirs := w'.dirs, calls := w'.calls)
    && (forall n :: n in w.ports ==> n in w'.ports && w'.ports[n] == w.ports[n])
    && (forall n :: n in w'.ports ==> n in w.ports || exists p :: p in ps && p.d.portName == n)
    && (forall p :: p in ps ==> p.d.portName !in w.ports && p.d.portName in w'.ports && w'.ports[p.d.portName] == p.row)
    && (forall x :: x in w'.dirs <==> x in w.dirs || exists p :: p in ps && p.d.hostDir == x)
  }

  /** The install loop grows the world by the installed prefix `m`; a failure is one failed install after that. */
  lemma {:induction false} InstallAllEffect(f: Faults, w: World, ps: seq<Plan>) returns (m: World)
    ensures var o := InstallAll(f, w, ps);
            && Grown(w, m, ps[..o.count])
            && (if o.ok then o.w == m else InstallFailed(m, o.w, ps[o.count].d.hostDir))
            && (!o.ok ==> Install(f, m, ps[o.count]) == Outcome(o.w, false))
            && DirsMade(f, w, ps) == if !o.ok && MakesDir(f, m) then o.count + 1 else o.count
    decreases ps
  {
    GrownNone(w, ps[..0]);
    if ps == [] {
      return w;
    }
    var first := Install(f, w, ps[0]);
    InstallEffect(f, w, ps[0]);
    if !first.ok {
      return w;
    }
    m := InstallAllEffect(f, first.w, ps[1..]);
    var rest := InstallAll(f, first.w, ps[1..]);
    GrownCons(w, first.w, m, ps[0], ps[1..][..rest.count]);
    TakeCons(ps, rest.count);
  }

  lemma TakeCons<T>(s: seq<T>, k: nat)
    requires k < |s|
    ensures s[..k + 1] == [s[0]] + s[1..][..k]
  {
  }

  lemma GrownNone(w: World, ps: seq<Plan>)
    requires ps == []
    ensures Grown(w, w, ps)
  {
  }

  lemma GrownCons(w: World, w1: World, w2: World, p: Plan, ps: seq<Plan>)
    requires p.d.portName !in w.ports
    requires w1 == w.(ports := w.ports[p.d.portName := p.row], dirs := w.dirs + {p.d.hostDir}, calls := w1.calls)
    requires Grown(w1, w2, ps)
    ensures Grown(w, w2, [p] + ps)
  {
    assert p in [p] + ps && forall q :: q in ps ==> q in [p] + ps;
  }

  // ---------------------------------------------------------------------------
  // Preparing a claim
  // ---------------------------------------------------------------------------

  /** The devices CreateClaimSpecFile writes: one bind mount of the socket directory each. */
  function SpecDevices(ds: seq<PreparedDevice>): (cs: seq<CdiDevice>)
    ensures |cs| == |ds|
    ensures forall i :: 0 <= i < |ds| ==>
              cs[i] == CdiDevice(CdiName(ds[0].claimUid, ds[i].device.device, ds[i].device.request), ds[i].hostDir,
                                 ds[i].containerDir)
  {
    seq(|ds|, i requires 0 <= i < |ds| =>
      CdiDevice(CdiName(ds[0].claimUid, ds[i].device.device, ds[i].device.request), ds[i].hostDir, ds[i].containerDir))
  }

  /** The checks PrepareResourceClaim makes before its first call. */
  predicate Preparable(claim: Claim) {
    && claim.allocation.Some?
    && |claim.reservedFor| == 1
    && Parse(claim.allocation.value.configs).Some?
  }

  function ClaimPlans(config: NodeConfig, claim: Claim): seq<Plan> {
    if Preparable(claim) then
      Plans(config, claim, Parse(claim.allocation.value.configs).value, claim.allocation.value.results)
    else []
  }

  datatype Prepared = Prepared(w: World, devices: Option<seq<PreparedDevice>>, claim: Claim)

  /** PrepareResourceClaim: None is the error return; the claim comes back with its status list updated. */
  function PrepareClaim(f: Faults, w: World, claim: Claim): Prepared {
    if !Preparable(claim) then Prepared(w, None, claim)
    else
      var ps := ClaimPlans(w.config, claim);
      var o := InstallAll(f, w, ps);
      var done := Devices(ps[..o.count]);
      var claim' := claim.(devices := UpsertAll(claim.devices, Statuses(ps[..o.count])));
      if !o.ok then Prepared(UnprepareAll(f, o.w, done).w, None, claim')
      else if ps == [] then Prepared(o.w, None, claim')
      else
        var spec := WriteSpec(f, o.w, claim.uid, SpecDevices(done));
        if spec.ok then Prepared(spec.w, Some(done), claim')
        else Prepared(UnprepareAll(f, spec.w, done).w, None, claim')
  }

  /** The resources a claim's prepare may touch. */
  function ClaimResources(config: NodeConfig, claim: Claim): set<Resource> {
    AllResources(Devices(ClaimPlans(config, claim)))
  }

  /** From w to w' a prepare was attempted on the resources R and given up. */
  ghost predicate RolledBack(w: World, w': World, R: set<Resource>) {
    && w' == w.(ports := w'.ports, dirs := w'.dirs, specs := w'.specs, leaked := w'.leaked, calls := w'.calls)
    && (forall n :: n in w.ports ==> n in w'.ports && w'.ports[n] == w.ports[n])
    && (forall n :: n in w'.ports && n !in w.ports ==> PortRes(w'.ports[n].bridge, n) in w'.leaked)
    && (forall x :: x in w'.dirs && x !in w.dirs ==> DirRes(x) in w'.leaked)
    && (forall u :: u in w'.specs ==> u in w.specs && w'.specs[u] == w.specs[u])
    && (forall r :: r !in R ==> (Exists(w, r) <==> Exists(w', r)))
    && (forall r :: r !in R ==> (r in w.leaked <==> r in w'.leaked))
    && (forall r :: r in w.leaked && Exists(w', r) ==> r in w'.leaked)
  }

  lemma DeviceOfPlan(ps: seq<Plan>, d: PreparedDevice)
    ensures d in Devices(ps) <==> exists p :: p in ps && p.d == d
  {
    if d in Devices(ps) {
      var i :| 0 <= i < |ps| && Devices(ps)[i] == d;
      assert ps[i] in ps;
    }
    if p :| p in ps && p.d == d {
      var i :| 0 <= i < |ps| && ps[i] == p;
      assert Devices(ps)[i] == d;
    }
  }

  lemma GrownPort(w: World, m: World, done: seq<Plan>, bridge: string, name: string)
    requires (forall p :: p in done ==> p.row.bridge == p.d.bridge) && Grown(w, m, done)
    ensures var r := PortRes(bridge, name);
            && (Exists(m, r) <==> Exists(w, r) || r in AllResources(Devices(done)))
            && (r in AllResources(Devices(done)) ==> name !in w.ports)
  {
    var r := PortRes(bridge, name);
    ResourceOfPlan(done, r);
    if Exists(m, r) && name !in w.ports {
      var p :| p in done && p.d.portName == name;
      assert r == PortOf(p.d);
    }
  }

  lemma GrownDir(w: World, m: World, done: seq<Plan>, path: string)
    requires Grown(w, m, done)
    ensures var r := DirRes(path); Exists(m, r) <==> Exists(w, r) || r in AllResources(Devices(done))
  {
    DirOfPlan(done, path);
  }

  lemma DirOfPlan(ps: seq<Plan>, path: string)
    ensures DirRes(path) in AllResources(Devices(ps)) <==> exists p :: p in ps && p.d.hostDir == path
  {
    ResourceOfPlan(ps, DirRes(path));
    if p :| p in ps && p.d.hostDir == path {
      assert DirRes(path) in ResourcesOf(p.d);
    }
  }

  /** Installing plans adds exactly their ports and directories, under port names that were free. */
  lemma GrownResources(w: World, m: World, done: seq<Plan>, r: Resource)
    requires forall p :: p in done ==> p.row.bridge == p.d.bridge
    requires Grown(w, m, done)
    ensures r.SpecRes? ==> (Exists(m, r) <==> Exists(w, r))
    ensures !r.SpecRes? ==> (Exists(m, r) <==> Exists(w, r) || r in AllResources(Devices(done)))
    ensures r.PortRes? && r in AllResources(Devices(done)) ==> r.name !in w.ports
  {
    match r {
      case PortRes(bridge, name) => GrownPort(w, m, done, bridge, name);
      case DirRes(path) => GrownDir(w, m, done, path);
      case SpecRes(_) =>
    }
  }

  lemma ResourceOfPlan(ps: seq<Plan>, r: Resource)
    ensures r in AllResources(Devices(ps)) <==> exists p :: p in ps && r in ResourcesOf(p.d)
  {
    if r in AllResources(Devices(ps)) {
      var d :| d in Devices(ps) && r in ResourcesOf(d);
      DeviceOfPlan(ps, d);
    }
    if p :| p in ps && r in ResourcesOf(p.d) {
      DeviceOfPlan(ps, p.d);
    }
  }

  /** The same for all resources at once. */
  lemma GrownAllResources(w: World, m: World, done: seq<Plan>)
    requires forall p :: p in done ==> p.row.bridge == p.d.bridge
    requires Grown(w, m, done)
    ensures forall r: Resource :: r.SpecRes? ==> (Exists(m, r) <==> Exists(w, r))
    ensures forall r: Resource :: !r.SpecRes? ==> (Exists(m, r) <==> Exists(w, r) || r in AllResources(Devices(done)))
    ensures forall r: Resource :: r.PortRes? && r in AllResources(Devices(done)) ==> r.name !in w.ports
  {
    forall r: Resource
      ensures r.SpecRes? ==> (Exists(m, r) <==> Exists(w, r))
      ensures !r.SpecRes? ==> (Exists(m, r) <==> Exists(w, r) || r in AllResources(Devices(done)))
      ensures r.PortRes? && r in AllResources(Devices(done)) ==> r.name !in w.ports
    {
      GrownResources(w, m, done, r);
    }
  }

  /** Cleaning up after a partial install `m` gives a rolled-back world; D are the installed devices' resources. */
  lemma CleanupRollsBack(w: World, m: World, x: World, w': World, dir: string, D: set<Resource>, R: set<Resource>)
    requires m == w.(ports := m.ports, dirs := m.dirs, calls := m.calls)
    requires forall n :: n in w.ports ==> n in m.ports && m.ports[n] == w.ports[n]
    requires forall r: Resource :: r.SpecRes? ==> (Exists(m, r) <==> Exists(w, r))
    requires forall r: Resource :: !r.SpecRes? ==> (Exists(m, r) <==> Exists(w, r) || r in D)
    requires forall r: Resource :: r.PortRes? && r in D ==> r.name !in w.ports
    requires InstallFailed(m, x, dir)
    requires Cleaned(x, w', D)
    requires D <= R && (x.dirs != m.dirs || x.leaked != m.leaked ==> DirRes(dir) in R)
    ensures RolledBack(w, w', R)
  {
    forall n | n in w.ports ensures n in w'.ports && w'.ports[n] == w.ports[n] {
      assert Exists(x, PortRes(w.ports[n].bridge, n));
    }
    forall n | n in w'.ports && n !in w.ports ensures PortRes(w'.ports[n].bridge, n) in w'.leaked {
      assert Exists(w', PortRes(w'.ports[n].bridge, n));
      assert Exists(m, PortRes(w'.ports[n].bridge, n));
    }
    forall y | y in w'.dirs && y !in w.dirs ensures DirRes(y) in w'.leaked {
      assert Exists(w', DirRes(y)) && Exists(x, DirRes(y)) && !Exists(w, DirRes(y));
    }
    forall r | r !in R ensures (Exists(w, r) <==> Exists(w', r)) && (r in w.leaked <==> r in w'.leaked) {
      assert Exists(m, r) <==> Exists(x, r);
    }
    forall r | r in w.leaked && Exists(w', r) ensures r in w'.leaked {
      assert Exists(x, r);
    }
  }

  lemma PrefixResources(ps: seq<Plan>, k: nat)
    requires k <= |ps|
    ensures AllResources(Devices(ps[..k])) <= AllResources(Devices(ps))
    ensures k < |ps| ==> DirOf(ps[k].d) in AllResources(Devices(ps))
  {
    forall r | r in AllResources(Devices(ps[..k])) ensures r in AllResources(Devices(ps)) {
      var d :| d in Devices(ps[..k]) && r in ResourcesOf(d);
      var i :| 0 <= i < k && Devices(ps[..k])[i] == d;
      assert Devices(ps)[i] == d;
    }
    if k < |ps| {
      assert Devices(ps)[k] == ps[k].d && ps[k].d in Devices(ps);
    }
  }

  /** Rolling back after k of the plans were installed. */
  lemma RollbackEffect(f: Faults, w: World, m: World, x: World, ps: seq<Plan>, k: nat)
    requires k <= |ps| && (forall p :: p in ps ==> p.row.bridge == p.d.bridge)
    requires Grown(w, m, ps[..k])
    requires if k < |ps| then InstallFailed(m, x, ps[k].d.hostDir) else x == Tick(m)
    ensures RolledBack(w, UnprepareAll(f, x, Devices(ps[..k])).w, AllResources(Devices(ps)))
  {
    var D := AllResources(Devices(ps[..k]));
    GrownAllResources(w, m, ps[..k]);
    UnprepareAllCleans(f, x, Devices(ps[..k]));
    PrefixResources(ps, k);
    var dir := if k < |ps| then ps[k].d.hostDir else "";
    CleanupRollsBack(w, m, x, UnprepareAll(f, x, Devices(ps[..k])).w, dir, D, AllResources(Devices(ps)));
  }

  lemma PlansBridge(config: NodeConfig, claim: Claim)
    ensures forall p :: p in ClaimPlans(config, claim) ==>
              |claim.reservedFor| == 1 && PlanOf(config, claim, p) && p.row.bridge == p.d.bridge
                  && p.d.claimUid == claim.uid
  {
  }

  /** A failed prepare is rolled back, wherever it failed. */
  lemma FailedPrepareRollsBack(f: Faults, w: World, claim: Claim)
    requires PrepareClaim(f, w, claim).devices.None?
    ensures RolledBack(w, PrepareClaim(f, w, claim).w, ClaimResources(w.config, claim))
  {
    if Preparable(claim) {
      var ps := ClaimPlans(w.config, claim);
      var o := InstallAll(f, w, ps);
      PlansBridge(w.config, claim);
      var m := InstallAllEffect(f, w, ps);
      if !o.ok {
        RollbackEffect(f, w, m, o.w, ps, o.count);
      } else if ps != [] {
        assert ps[..o.count] == ps;
        RollbackEffect(f, w, m, Tick(m), ps, |ps|);
      }
    }
  }

  lemma {:induction false} UnprepareAllFrame(f: Faults, w: World, ds: seq<PreparedDevice>)
    ensures var w' := UnprepareAll(f, w, ds).w;
            w' == w.(ports := w'.ports, dirs := w'.dirs, specs := w'.specs, leaked := w'.leaked, calls := w'.calls)
    decreases ds
  {
    UnprepareAllCleans(f, w, ds);
  }

  /** A prepare leaves the claim store, the configuration and the history of entries alone. */
  lemma PrepareClaimFrame(f: Faults, w: World, claim: Claim)
    ensures var o := PrepareClaim(f, w, claim);
            && o.w == w.(ports := o.w.ports, dirs := o.w.dirs, specs := o.w.specs, leaked := o.w.leaked,
                         calls := o.w.calls)
            && (o.devices.Some? ==> o.devices.value != [])
  {
    if PrepareClaim(f, w, claim).devices.None? {
      FailedPrepareRollsBack(f, w, claim);
    } else {
      var m := SuccessfulPrepareInstalls(f, w, claim);
    }
  }

  /** A successful prepare installed every plan and wrote the spec of exactly these devices. */
  lemma SuccessfulPrepareInstalls(f: Faults, w: World, claim: Claim) returns (m: World)
    requires PrepareClaim(f, w, claim).devices.Some?
    ensures var o, ps := PrepareClaim(f, w, claim), ClaimPlans(w.config, claim);
            && ps != [] && o.devices == Some(Devices(ps))
            && Grown(w, m, ps)
            && o.w == m.(specs := w.specs[claim.uid := SpecDevices(Devices(ps))], calls := o.w.calls)
  {
    var ps := ClaimPlans(w.config, claim);
    m := InstallAllEffect(f, w, ps);
    assert ps[..|ps|] == ps;
  }

  /** From w to w' exactly the resources of ds were added, and nothing that existed changed. */
  ghost predicate Added(w: World, w': World, uid: Uid, ds: seq<PreparedDevice>) {
    && ds != []
    && w' == w.(ports := w'.ports, dirs := w'.dirs, specs := w.specs[uid := SpecDevices(ds)], calls := w'.calls)
    && (forall n :: n in w.ports ==> n in w'.ports && w'.ports[n] == w.ports[n])
    && (forall d :: d in ds ==> d.portName !in w.ports && d.claimUid == uid)
    && (forall r :: Exists(w', r) <==> Exists(w, r) || r in AllResources(ds))
  }

  lemma GrownAndSpecified(w: World, m: World, w': World, uid: Uid, ps: seq<Plan>)
    requires ps != [] && (forall p :: p in ps ==> p.row.bridge == p.d.bridge && p.d.claimUid == uid)
    requires Grown(w, m, ps)
    requires w' == m.(specs := w.specs[uid := SpecDevices(Devices(ps))], calls := w'.calls)
    ensures Added(w, w', uid, Devices(ps))
  {
    var ds := Devices(ps);
    forall d | d in ds ensures d.portName !in w.ports && d.claimUid == uid {
      DeviceOfPlan(ps, d);
    }
    forall r ensures Exists(w', r) <==> Exists(w, r) || r in AllResources(ds) {
      SpecifiedResource(w, m, w', uid, ps, r);
    }
  }

  lemma SpecifiedResource(w: World, m: World, w': World, uid: Uid, ps: seq<Plan>, r: Resource)
    requires ps != [] && (forall p :: p in ps ==> p.row.bridge == p.d.bridge && p.d.claimUid == uid)
    requires Grown(w, m, ps)
    requires w'.ports == m.ports && w'.dirs == m.dirs && w'.specs.Keys == w.specs.Keys + {uid}
    ensures Exists(w', r) <==> Exists(w, r) || r in AllResources(Devices(ps))
  {
    match r {
      case PortRes(bridge, name) => GrownPort(w, m, ps, bridge, name);
      case DirRes(path) => GrownDir(w, m, ps, path);
      case SpecRes(v) => SpecOfPlans(uid, ps, v);
    }
  }

  lemma SpecOfPlans(uid: Uid, ps: seq<Plan>, v: Uid)
    requires ps != [] && forall p :: p in ps ==> p.d.claimUid == uid
    ensures SpecRes(v) in AllResources(Devices(ps)) <==> v == uid
  {
    ResourceOfPlan(ps, SpecRes(v));
    assert ps[0] in ps && SpecRes(uid) in ResourcesOf(ps[0].d);
  }

  /** A successful prepare adds exactly the resources of its devices and changes nothing that existed. */
  lemma PreparedResources(f: Faults, w: World, claim: Claim)
    requires PrepareClaim(f, w, claim).devices.Some?
    ensures Added(w, PrepareClaim(f, w, claim).w, claim.uid, PrepareClaim(f, w, claim).devices.value)
  {
    var m := SuccessfulPrepareInstalls(f, w, claim);
    PlansBridge(w.config, claim);
    GrownAndSpecified(w, m, PrepareClaim(f, w, claim).w, claim.uid, ClaimPlans(w.config, claim));
  }

  lemma StatusesDriver(config: NodeConfig, claim: Claim, k: nat)
    requires k <= |ClaimPlans(config, claim)|
    ensures forall s :: s in Statuses(ClaimPlans(config, claim)[..k]) ==> s.driver == DRIVER_NAME
  {
    var ps := ClaimPlans(config, claim);
    PlansBridge(config, claim);
    forall s | s in Statuses(ps[..k]) ensures s.driver == DRIVER_NAME {
      var i :| 0 <= i < k && Statuses(ps[..k])[i] == s;
      assert ps[i] in ps;
    }
  }

  /** A prepare changes this driver's status entries only. */
  lemma PrepareKeepsOtherStatuses(f: Faults, w: World, claim: Claim)
    ensures var claim' := PrepareClaim(f, w, claim).claim;
            && claim' == claim.(devices := claim'.devices)
            && Others(claim'.devices, DRIVER_NAME) == Others(claim.devices, DRIVER_NAME)
  {
    if Preparable(claim) {
      var ps := ClaimPlans(w.config, claim);
      var k := InstallAll(f, w, ps).count;
      StatusesDriver(w.config, claim, k);
      UpsertAllKeepsOthers(claim.devices, Statuses(ps[..k]), DRIVER_NAME);
    }
  }
}
