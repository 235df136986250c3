/** What a successful prepare delivers to the pod and to OVS, result by result, in terms of the allocation. */
module Delivery {
  import opened Kube
  import opened Naming
  import opened PortConfigs
  import opened Stores
  import opened Lifecycle
  import opened RoundTrip
  import opened CdiReferences

  /** The OVS port a result asks for: its bridge, its owner, and the configuration of its request. */
  ghost predicate PortAsAsked(config: NodeConfig, claim: Claim, result: AllocationResult, cfg: PortConfig, row: PortRow)
    requires |claim.reservedFor| == 1
  {
    && row.bridge == result.device
    && row.params.claimUid == claim.uid
    && row.params.claimName == claim.name && row.params.namespace == claim.namespace
    && row.params.podName == claim.reservedFor[0].name
    && row.params.vlan == cfg.vlan
    && (cfg.policing.None? ==> row.params.ingressRate == 0 && row.params.ingressBurst == 0)
    && (cfg.policing.Some? ==>
          && cfg.policing.value.maxRate == Some(row.params.ingressRate)
          && (cfg.policing.value.burst.None? ==> row.params.ingressBurst == 0)
          && (cfg.policing.value.burst.Some? ==> cfg.policing.value.burst == Some(row.params.ingressBurst)))
    && (result.device in config.allocatable ==> row.params.mtu == config.allocatable[result.device].spec.mtu)
    && (result.device !in config.allocatable ==> row.params.mtu == 0)
  }

  /** The device reported to the kubelet: the result it is for, and what its port really has. */
  ghost predicate ReportedAsAsked(result: AllocationResult, row: PortRow, device: KubeletDevice) {
    && device.request == result.request && device.pool == result.pool && device.device == result.device
    && device.metadata.mtu == row.params.mtu
    && (row.params.ingressRate == 0 ==> device.metadata.rate == None)
    && (row.params.ingressRate > 0 ==> device.metadata.rate == Some(row.params.ingressRate))
    && (row.params.ingressBurst == 0 ==> device.metadata.burst == None)
    && (row.params.ingressBurst > 0 ==> device.metadata.burst == Some(row.params.ingressBurst))
  }

  /** Device and port row of one result, before any call is made. */
  lemma PlannedAsAsked(config: NodeConfig, claim: Claim, result: AllocationResult, cfg: PortConfig)
    requires |claim.reservedFor| == 1 && config.vhostRoot.Some?
    requires cfg.policing.Some? ==> cfg.policing.value.maxRate.Some?
    ensures var p := PlanFor(config, claim, result, cfg);
            && p.d.portName == OvsPortName(claim.uid, result.request)
            && PortAsAsked(config, claim, result, cfg, p.row) && ReportedAsAsked(result, p.row, p.d.device)
            && p.d.hostDir == SocketDir(claim.reservedFor[0].uid, PodClaimName(claim), result.request)
            && p.d.containerDir == ContainerDir(config.vhostRoot.value, PodClaimName(claim), result.request)
            && p.row.socket == p.d.hostDir + "/vhost.sock"
            && p.d.device.metadata.vhostUserPath == p.d.containerDir + "/vhost.sock"
            && p.d.hostSocket == p.row.socket && p.d.containerSocket == p.d.device.metadata.vhostUserPath
            && p.d.portConfig == cfg
  {
  }

  /** Result by result, a successful prepare creates the port that was asked for, with its socket in the host directory,
      and reports it with the socket in the container directory. */
  lemma DeliveredAsAllocated(f: Faults, w: World, claim: Claim, i: nat)
    requires PrepareClaim(f, w, claim).devices.Some?
    requires i < |OwnResults(claim.allocation.value.results)|
    ensures var w', ds := PrepareClaim(f, w, claim).w, PrepareClaim(f, w, claim).devices.value;
            var result := OwnResults(claim.allocation.value.results)[i];
            var cfg := GetConfig(Parse(claim.allocation.value.configs).value, result.request);
            && |ds| == |OwnResults(claim.allocation.value.results)|
            && |claim.reservedFor| == 1 && w.config.vhostRoot.Some?
            && OvsPortName(claim.uid, result.request) in w'.ports
            && var d, row := ds[i], w'.ports[OvsPortName(claim.uid, result.request)];
            && PortAsAsked(w.config, claim, result, cfg, row) && ReportedAsAsked(result, row, d.device)
            && d.hostDir == SocketDir(claim.reservedFor[0].uid, PodClaimName(claim), result.request)
            && d.containerDir == ContainerDir(w.config.vhostRoot.value, PodClaimName(claim), result.request)
            && row.socket == d.hostDir + "/vhost.sock" && d.hostDir in w'.dirs
            && d.device.metadata.vhostUserPath == d.containerDir + "/vhost.sock"
            && d.hostSocket == row.socket && d.containerSocket == d.device.metadata.vhostUserPath
            && d.portName == OvsPortName(claim.uid, result.request) && d.portConfig == cfg
  {
    var m := SuccessfulPrepareInstalls(f, w, claim);
    var ps, result := ClaimPlans(w.config, claim), OwnResults(claim.allocation.value.results)[i];
    var configs := claim.allocation.value.configs;
    PlanOfOwn(w.config, claim, Parse(configs).value, claim.allocation.value.results, i);
    ConfigAlwaysValid(configs, result.request);
    InstalledHasRoot(f, w, ps);
    PlannedAsAsked(w.config, claim, result, GetConfig(Parse(configs).value, result.request));
    assert ps[i] in ps;
  }

  lemma InstalledHasRoot(f: Faults, w: World, ps: seq<Plan>)
    requires ps != [] && InstallAll(f, w, ps).ok
    ensures w.config.vhostRoot.Some?
  {
  }

  /** The two ends of a vhost-user device meet: where the CDI ID of a device mounts its own directory, OVS opens the
      socket in the mounted host directory, and the pod is told the same file as it appears in the container. */
  lemma SocketsMeet(f: Faults, w: World, claim: Claim, d: PreparedDevice)
    requires PrepareClaim(f, w, claim).devices.Some? && d in PrepareClaim(f, w, claim).devices.value
    requires claim.uid in PrepareClaim(f, w, claim).w.specs
    requires MountsOwn(PrepareClaim(f, w, claim).w.specs[claim.uid], d)
    ensures var w' := PrepareClaim(f, w, claim).w;
            var mount := Resolve(w'.specs[claim.uid], d.device.cdiId).value;
            && d.portName in w'.ports
            && w'.ports[d.portName].socket == mount.hostPath + "/vhost.sock"
            && d.device.metadata.vhostUserPath == mount.containerPath + "/vhost.sock"
  {
    var ds := PrepareClaim(f, w, claim).devices.value;
    var i :| 0 <= i < |ds| && ds[i] == d;
    PreparedDevicesFor(f, w, claim);
    DeliveredAsAllocated(f, w, claim, i);
  }
}
