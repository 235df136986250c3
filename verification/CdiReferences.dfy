/** The CDI IDs reported for a claim, and the mounts they stand for in its CDI spec. */
module CdiReferences {
  import opened Kube
  import opened Naming
  import opened PortConfigs
  import opened Stores
  import opened Lifecycle
  import opened RoundTrip

  /** How a container runtime resolves a qualified device name against a spec. */
  function Resolve(spec: seq<CdiDevice>, id: string): (c: Option<CdiDevice>)
    ensures c.Some? ==> c.value in spec && QualifiedName(c.value.name) == id
    ensures c.None? ==> forall e :: e in spec ==> QualifiedName(e.name) != id
  {
    if spec == [] then None
    else if QualifiedName(spec[0].name) == id then Some(spec[0])
    else Resolve(spec[1..], id)
  }

  /** The CDI ID of d mounts d's own host directory at its own container directory. */
  predicate MountsOwn(spec: seq<CdiDevice>, d: PreparedDevice) {
    var c := Resolve(spec, d.device.cdiId);
    c.Some? && c.value.hostPath == d.hostDir && c.value.containerPath == d.containerDir
  }

  // ---------------------------------------------------------------------------
  // Devices and the allocation results they are for
  // ---------------------------------------------------------------------------

  /** No two results have the same bridge and request joined by a dash. */
  predicate ComposedApart(results: seq<AllocationResult>) {
    forall i, j :: 0 <= i < j < |results| ==>
      ComposedName(results[i].device, results[i].request) != ComposedName(results[j].device, results[j].request)
  }

  /** The devices are those of the results, in order, with the CDI ID of each; their directories differ. */
  ghost predicate DevicesFor(uid: Uid, ds: seq<PreparedDevice>, own: seq<AllocationResult>) {
    && |ds| == |own|
    && (forall i :: 0 <= i < |ds| ==>
          && ds[i].claimUid == uid
          && ds[i].device.device == own[i].device && ds[i].device.request == own[i].request
          && ds[i].device.cdiId == DeviceId(uid, own[i].device, own[i].request))
    && (forall i, j :: 0 <= i < j < |ds| ==> ds[i].hostDir != ds[j].hostDir)
  }

  /** What got installed had free and different port names. */
  lemma {:induction false} InstalledNamesFree(f: Faults, w: World, ps: seq<Plan>)
    requires InstallAll(f, w, ps).ok
    ensures NamesFree(w, ps)
    decreases ps
  {
    if ps != [] {
      InstallEffect(f, w, ps[0]);
      InstalledNamesFree(f, Install(f, w, ps[0]).w, ps[1..]);
      NamesFreeCons(w, Install(f, w, ps[0]).w, ps);
    }
  }

  lemma PreparedDevicesFor(f: Faults, w: World, claim: Claim)
    requires PrepareClaim(f, w, claim).devices.Some?
    ensures var w', ds := PrepareClaim(f, w, claim).w, PrepareClaim(f, w, claim).devices.value;
            && ds != [] && w'.specs == w.specs[claim.uid := SpecDevices(ds)]
            && DevicesFor(claim.uid, ds, OwnResults(claim.allocation.value.results))
  {
    var m := SuccessfulPrepareInstalls(f, w, claim);
    InstalledNamesFree(f, w, ClaimPlans(w.config, claim));
    PlannedDevicesFor(w, claim);
  }

  lemma PlannedDevicesFor(w: World, claim: Claim)
    requires Preparable(claim) && NamesFree(w, ClaimPlans(w.config, claim))
    ensures DevicesFor(claim.uid, Devices(ClaimPlans(w.config, claim)), OwnResults(claim.allocation.value.results))
  {
    var ps := ClaimPlans(w.config, claim);
    PlansOfOwn(w.config, claim, Parse(claim.allocation.value.configs).value, claim.allocation.value.results);
    forall i, j | 0 <= i < j < |ps| ensures ps[i].d.hostDir != ps[j].d.hostDir {
      assert ps[i] in ps && ps[j] in ps;
      DistinctRequests(w.config, claim, ps[i], ps[j]);
    }
  }

  // ---------------------------------------------------------------------------
  // References resolve
  // ---------------------------------------------------------------------------

  /** Two IDs of a claim coincide exactly when the composed names do. */
  lemma SameId(uid: Uid, device: string, request: string, device': string, request': string)
    ensures QualifiedName(CdiName(uid, device, request)) == QualifiedName(CdiName(uid, device', request'))
       <==> ComposedName(device, request) == ComposedName(device', request')
  {
    CdiNamesOfClaim(uid, device, request, device', request');
    if QualifiedName(CdiName(uid, device, request)) == QualifiedName(CdiName(uid, device', request')) {
      DropHead(CDI_KIND + "=", CdiName(uid, device, request), CdiName(uid, device', request'));
    }
  }

  /** An ID resolves to the device of some result with the same composed name. */
  lemma ResolvesTo(uid: Uid, ds: seq<PreparedDevice>, own: seq<AllocationResult>, i: nat) returns (j: nat)
    requires DevicesFor(uid, ds, own) && i < |ds|
    ensures j < |ds| && Resolve(SpecDevices(ds), ds[i].device.cdiId) == Some(SpecDevices(ds)[j])
    ensures ComposedName(own[j].device, own[j].request) == ComposedName(own[i].device, own[i].request)
  {
    var spec, id := SpecDevices(ds), ds[i].device.cdiId;
    assert spec[i] in spec && QualifiedName(spec[i].name) == id;
    j :| 0 <= j < |spec| && spec[j] == Resolve(spec, id).value;
    SameId(uid, own[j].device, own[j].request, own[i].device, own[i].request);
  }

  lemma OwnMountsExactly(uid: Uid, ds: seq<PreparedDevice>, own: seq<AllocationResult>)
    requires DevicesFor(uid, ds, own)
    ensures (forall d :: d in ds ==> MountsOwn(SpecDevices(ds), d)) <==> ComposedApart(own)
  {
    if ComposedApart(own) {
      forall d | d in ds ensures MountsOwn(SpecDevices(ds), d) {
        var i :| 0 <= i < |ds| && ds[i] == d;
        ApartMountsOwn(uid, ds, own, i);
      }
    } else {
      var i, j :| 0 <= i < j < |own|
        && ComposedName(own[i].device, own[i].request) == ComposedName(own[j].device, own[j].request);
      SharedIdMountsOne(uid, ds, own, i, j);
      assert ds[i] in ds && ds[j] in ds;
    }
  }

  lemma ApartMountsOwn(uid: Uid, ds: seq<PreparedDevice>, own: seq<AllocationResult>, i: nat)
    requires DevicesFor(uid, ds, own) && ComposedApart(own) && i < |ds|
    ensures MountsOwn(SpecDevices(ds), ds[i])
  {
    var j := ResolvesTo(uid, ds, own, i);
    assert j == i;
  }

  lemma SharedIdMountsOne(uid: Uid, ds: seq<PreparedDevice>, own: seq<AllocationResult>, i: nat, j: nat)
    requires DevicesFor(uid, ds, own) && i < j < |own|
    requires ComposedName(own[i].device, own[i].request) == ComposedName(own[j].device, own[j].request)
    ensures !MountsOwn(SpecDevices(ds), ds[i]) || !MountsOwn(SpecDevices(ds), ds[j])
  {
    assert ds[i].device.cdiId == ds[j].device.cdiId && ds[i].hostDir != ds[j].hostDir;
  }

  /** Every CDI ID of a prepared claim resolves in the CDI spec of its claim; and they all mount their own request's
      host directory at its container directory if and only if no two of the claim's results from this driver have the
      same bridge and request joined by a dash. */
  lemma CdiReferencesResolve(f: Faults, w: World, claim: Claim)
    requires PrepareClaim(f, w, claim).devices.Some?
    ensures var w', ds := PrepareClaim(f, w, claim).w, PrepareClaim(f, w, claim).devices.value;
            && claim.uid in w'.specs
            && var spec := w'.specs[claim.uid];
            && (forall d :: d in ds ==> Resolve(spec, d.device.cdiId).Some?)
            && ((forall d :: d in ds ==> MountsOwn(spec, d))
               <==> ComposedApart(OwnResults(claim.allocation.value.results)))
  {
    PreparedDevicesFor(f, w, claim);
    var ds, own := PrepareClaim(f, w, claim).devices.value, OwnResults(claim.allocation.value.results);
    OwnMountsExactly(claim.uid, ds, own);
    forall d | d in ds ensures Resolve(SpecDevices(ds), d.device.cdiId).Some? {
      var i :| 0 <= i < |ds| && ds[i] == d;
      var j := ResolvesTo(claim.uid, ds, own, i);
    }
  }

  /** On one bridge, or without dashes in the bridge names or in the request names, the mounts are always right. */
  lemma PlainNamesMountOwn(f: Faults, w: World, claim: Claim)
    requires PrepareClaim(f, w, claim).devices.Some?
    requires var own := OwnResults(claim.allocation.value.results);
             || (forall r, s :: r in own && s in own ==> r.device == s.device)
             || (forall r :: r in own ==> '-' !in r.device)
             || (forall r :: r in own ==> '-' !in r.request)
    ensures var w', ds := PrepareClaim(f, w, claim).w, PrepareClaim(f, w, claim).devices.value;
            claim.uid in w'.specs && forall d :: d in ds ==> MountsOwn(w'.specs[claim.uid], d)
  {
    PreparedDevicesFor(f, w, claim);
    var ds, own := PrepareClaim(f, w, claim).devices.value, OwnResults(claim.allocation.value.results);
    forall i, j | 0 <= i < j < |own|
      ensures ComposedName(own[i].device, own[i].request) != ComposedName(own[j].device, own[j].request)
    {
      RequestsDiffer(f, w, claim, i, j);
      CdiNamesOfClaim(claim.uid, own[i].device, own[i].request, own[j].device, own[j].request);
      if own[i].device == own[j].device {
        assert ComposedName(own[i].device, own[i].request)[|own[i].device| + 1..] == own[i].request;
        assert ComposedName(own[j].device, own[j].request)[|own[i].device| + 1..] == own[j].request;
      } else {
        assert own[i] in own && own[j] in own;
        CdiNameInjective(claim.uid, own[i].device, own[i].request, own[j].device, own[j].request);
      }
    }
    CdiReferencesResolve(f, w, claim);
  }

  lemma RequestsDiffer(f: Faults, w: World, claim: Claim, i: nat, j: nat)
    requires PrepareClaim(f, w, claim).devices.Some?
    requires i < j < |OwnResults(claim.allocation.value.results)|
    ensures var own := OwnResults(claim.allocation.value.results); own[i].request != own[j].request
  {
    var m := SuccessfulPrepareInstalls(f, w, claim);
    var ps := ClaimPlans(w.config, claim);
    PlansOfOwn(w.config, claim, Parse(claim.allocation.value.configs).value, claim.allocation.value.results);
    InstalledNamesFree(f, w, ps);
    assert ps[i] in ps && ps[j] in ps;
    DistinctRequests(w.config, claim, ps[i], ps[j]);
  }
}
