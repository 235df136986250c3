/** A port that a rollback could not delete blocks its claim for good: whether a claim can still be prepared. */
module StuckPorts {
  import opened Kube
  import opened Naming
  import opened PortConfigs
  import opened Stores
  import opened Lifecycle
  import opened Handlers
  import opened Retries
  import opened Batches
  import opened RoundTrip
  import opened CdiReferences
  import opened Backing

  /** A port that no stored claim lists: foreign, or left behind. */
  ghost predicate Orphan(w: World, n: string) {
    n in w.ports && forall u, d :: u in w.store && d in w.store[u] ==> d.portName != n
  }

  /** The port is still there unchanged, and still nobody's. */
  ghost predicate StillOrphan(w: World, w': World, n: string) {
    Orphan(w', n) && n in w.ports && w'.ports[n] == w.ports[n]
  }

  // ---------------------------------------------------------------------------
  // No operation removes an orphan
  // ---------------------------------------------------------------------------

  lemma CleanedKeepsPort(w: World, w': World, ds: seq<PreparedDevice>, n: string)
    requires Cleaned(w, w', AllResources(ds)) && n in w.ports && forall d :: d in ds ==> d.portName != n
    ensures n in w'.ports && w'.ports[n] == w.ports[n]
  {
    var r := PortRes(w.ports[n].bridge, n);
    assert Exists(w, r) && r !in AllResources(ds);
    assert Exists(w', r);
  }

  lemma SavePreparedKeepsOrphan(f: Faults, w: World, claim: Claim, p: Prepared, n: string)
    requires Orphan(w, n) && p.devices.Some? && Added(w, p.w, claim.uid, p.devices.value)
    ensures StillOrphan(w, SavePrepared(f, claim, p).w, n)
  {
    var ds := p.devices.value;
    var saved := StoreSet(f, p.w, claim, ds);
    if !saved.ok {
      UnprepareAllCleans(f, saved.w, ds);
      CleanedKeepsPort(saved.w, UnprepareAll(f, saved.w, ds).w, ds, n);
    }
  }

  lemma PrepareOneKeepsOrphan(f: Faults, w: World, claim: Claim, n: string)
    requires Orphan(w, n)
    ensures StillOrphan(w, PrepareOne(f, w, claim).w, n)
  {
    var p := PrepareClaim(f, Tick(w), claim);
    if StoreGet(f, w, claim.uid).devices == Some([]) {
      if p.devices.None? {
        FailedPrepareRollsBack(f, Tick(w), claim);
      } else {
        PreparedResources(f, Tick(w), claim);
        SavePreparedKeepsOrphan(f, Tick(w), claim, p, n);
      }
    }
  }

  lemma UnprepareOneKeepsOrphan(f: Faults, w: World, uid: Uid, n: string)
    requires Orphan(w, n)
    ensures StillOrphan(w, UnprepareOne(f, w, uid).w, n)
  {
    var u := UnprepareOneEffect(f, w, uid);
    var answer := UnprepareOne(f, w, uid).answer;
    if answer != UnprepareReadError && answer != NothingStored {
      CleanedKeepsPort(w, u, w.store[uid], n);
    }
  }

  lemma {:induction false} PrepareBatchKeepsOrphan(f: Faults, w: World, claims: seq<Claim>,
                                                   results: map<Uid, PrepareResult>, notices: seq<Claim>, n: string)
    requires Orphan(w, n)
    ensures StillOrphan(w, PrepareBatch(f, w, claims, results, notices).w, n)
    decreases claims
  {
    if claims != [] {
      PrepareOneKeepsOrphan(f, w, claims[0], n);
      var o := PrepareOne(f, w, claims[0]);
      if o.answer.PrepareAnswered? {
        BatchStep(f, w, claims, results, notices, o);
        PrepareBatchKeepsOrphan(f, o.w, claims[1..], results[claims[0].uid := Report(o.answer.devices)],
                                notices + NoticeList(o), n);
      } else {
        BatchHalts(f, w, claims, results, notices);
      }
    }
  }

  lemma {:induction false} UnprepareBatchKeepsOrphan(f: Faults, w: World, uids: seq<Uid>, results: map<Uid, bool>,
                                                     n: string)
    requires Orphan(w, n)
    ensures StillOrphan(w, UnprepareBatch(f, w, uids, results).w, n)
    decreases uids
  {
    if uids != [] {
      UnprepareOneKeepsOrphan(f, w, uids[0], n);
      var o := UnprepareOne(f, w, uids[0]);
      UnprepareBatchStep(f, w, uids, results, o);
      if Continues(o.answer) {
        UnprepareBatchKeepsOrphan(f, o.w, uids[1..], results[uids[0] := o.answer != CleanupFailed], n);
      }
    }
  }

  /** Over any run, whatever fails, a port that no stored claim lists stays in OVS unchanged. */
  lemma {:induction false} OrphanStays(f: Faults, w: World, ops: seq<Op>, n: string)
    requires Orphan(w, n)
    ensures StillOrphan(w, Run(f, w, ops), n)
    decreases ops
  {
    if ops != [] {
      match ops[0] {
        case PrepareOp(claims) => PrepareBatchKeepsOrphan(f, w, claims, map[], [], n);
        case UnprepareOp(uids) => UnprepareBatchKeepsOrphan(f, w, uids, map[], n);
        case ConfigureOp(config) =>
      }
      OrphanStays(f, Apply(f, w, ops[0]), ops[1..], n);
    }
  }

  // ---------------------------------------------------------------------------
  // The ports a claim wants
  // ---------------------------------------------------------------------------

  function WantedPorts(claim: Claim): set<string> {
    if claim.allocation.None? then {}
    else set r | r in OwnResults(claim.allocation.value.results) :: OvsPortName(claim.uid, r.request)
  }

  /** What a claim needs of itself: valid, with a result from this driver, and a request of its own for each. */
  ghost predicate Sound(claim: Claim) {
    && Preparable(claim)
    && var own := OwnResults(claim.allocation.value.results);
    own != [] && OneRequestEach(own)
  }

  ghost predicate OneRequestEach(results: seq<AllocationResult>) {
    forall i, j :: 0 <= i < j < |results| ==> results[i].request != results[j].request
  }

  /** The i-th plan is for the port of the i-th result, whatever the configuration. */
  lemma PlanPorts(config: NodeConfig, claim: Claim)
    requires Preparable(claim)
    ensures var ps, own := ClaimPlans(config, claim), OwnResults(claim.allocation.value.results);
            && |ps| == |own|
            && forall i :: 0 <= i < |ps| ==> ps[i].d.portName == OvsPortName(claim.uid, own[i].request)
  {
    PlansOfOwn(config, claim, Parse(claim.allocation.value.configs).value, claim.allocation.value.results);
  }

  lemma PlannedIsWanted(config: NodeConfig, claim: Claim, n: string)
    requires Preparable(claim)
    ensures n in WantedPorts(claim) <==> exists p :: p in ClaimPlans(config, claim) && p.d.portName == n
  {
    var ps, own := ClaimPlans(config, claim), OwnResults(claim.allocation.value.results);
    PlanPorts(config, claim);
    if n in WantedPorts(claim) {
      var r :| r in own && OvsPortName(claim.uid, r.request) == n;
      var i :| 0 <= i < |own| && own[i] == r;
      assert ps[i] in ps;
    }
    if p :| p in ps && p.d.portName == n {
      var i :| 0 <= i < |ps| && ps[i] == p;
      assert own[i] in own;
    }
  }

  /** The plans find free and different port names exactly when the wanted ports are free and the requests differ. */
  lemma PlansWant(w: World, claim: Claim)
    requires Preparable(claim)
    ensures var ps, own := ClaimPlans(w.config, claim), OwnResults(claim.allocation.value.results);
            && |ps| == |own|
            && (NamesFree(w, ps) <==> WantedPorts(claim) !! w.ports.Keys && OneRequestEach(own))
  {
    var ps, own := ClaimPlans(w.config, claim), OwnResults(claim.allocation.value.results);
    PlanPorts(w.config, claim);
    forall i, j | 0 <= i < j < |ps|
      ensures ps[i].d.portName != ps[j].d.portName <==> own[i].request != own[j].request
    {
      PortNameInjective(claim.uid, own[i].request, claim.uid, own[j].request);
    }
    forall n ensures n in WantedPorts(claim) <==> exists p :: p in ps && p.d.portName == n {
      PlannedIsWanted(w.config, claim, n);
    }
  }

  // ---------------------------------------------------------------------------
  // Whether a claim can still be prepared
  // ---------------------------------------------------------------------------

  /** The claim is newly prepared and stored by this call. */
  ghost predicate NewlyPrepared(f: Faults, w: World, claim: Claim) {
    PrepareOne(f, w, claim).notice.Some?
  }

  /** In some run from here, under some failure pattern, the claim is prepared. */
  ghost predicate CanBePrepared(w: World, claim: Claim) {
    exists f, ops :: NewlyPrepared(f, Run(f, w, ops), claim)
  }

  /** A claim that is newly prepared, under any failure pattern, is sound and its ports were free. */
  lemma PreparedWasFree(f: Faults, w: World, claim: Claim)
    requires NewlyPrepared(f, w, claim)
    ensures Sound(claim) && WantedPorts(claim) !! w.ports.Keys
  {
    InstalledNamesFree(f, Tick(w), ClaimPlans(w.config, claim));
    PlansWant(Tick(w), claim);
  }

  /** No operation frees a wanted port that nobody lists, so the claim is never prepared again. */
  lemma BlockedForever(f: Faults, w: World, ops: seq<Op>, claim: Claim, n: string)
    requires Orphan(w, n) && n in WantedPorts(claim)
    ensures !NewlyPrepared(f, Run(f, w, ops), claim)
  {
    OrphanStays(f, w, ops, n);
    if NewlyPrepared(f, Run(f, w, ops), claim) {
      PreparedWasFree(f, Run(f, w, ops), claim);
      assert false;
    }
  }

  /** With its ports free, a sound claim can be prepared once there is a configuration and no call fails. */
  lemma FreeCanBePrepared(w: World, claim: Claim)
    requires Sound(claim) && WantedPorts(claim) !! w.ports.Keys && claim.uid !in w.store
    ensures CanBePrepared(w, claim)
  {
    var config := w.config.(vhostRoot := Some(DEFAULT_CONTAINER_ROOT));
    var ops := [ConfigureOp(config)];
    var x := w.(config := config);
    assert ops[1..] == [] && Run([], w, ops) == x;
    PlansWant(x, claim);
    HasPlans(x.config, claim);
    PrepareAnswersExactly([], x, claim);
    PrepareOneStore([], x, claim);
    assert NewlyPrepared([], Run([], w, ops), claim);
  }

  /** A claim whose port names no stored claim lists can still be prepared, in some run and under some failure pattern,
      if and only if it is sound and none of its port names is taken now. */
  lemma PreparableAgainExactly(w: World, claim: Claim)
    requires claim.uid !in w.store && Unlisted(w, claim)
    ensures CanBePrepared(w, claim) <==> Sound(claim) && WantedPorts(claim) !! w.ports.Keys
  {
    if Sound(claim) && WantedPorts(claim) !! w.ports.Keys {
      FreeCanBePrepared(w, claim);
    }
    if CanBePrepared(w, claim) {
      var f, ops :| NewlyPrepared(f, Run(f, w, ops), claim);
      PreparedWasFree(f, Run(f, w, ops), claim);
      forall n | n in WantedPorts(claim) ensures n !in w.ports {
        if n in w.ports {
          BlockedForever(f, w, ops, claim, n);
          assert false;
        }
      }
    }
  }

  /** No stored claim lists a port name that the claim wants. */
  ghost predicate Unlisted(w: World, claim: Claim) {
    forall u, d :: u in w.store && d in w.store[u] ==> d.portName !in WantedPorts(claim)
  }

  lemma FreshUnlisted(w: World, claim: Claim)
    requires Coherent(w) && FreshFor(w, claim) && claim.uid !in w.store
    ensures Unlisted(w, claim)
  {
    forall u, d | u in w.store && d in w.store[u] ensures d.portName !in WantedPorts(claim) {
      assert Recorded(w, u) && Apart(w.origin[u], claim);
      if d.portName in WantedPorts(claim) {
        var r :| r in OwnResults(claim.allocation.value.results) && OvsPortName(claim.uid, r.request) == d.portName;
        PortNameInjective(u, d.device.request, claim.uid, r.request);
        assert false;
      }
    }
  }

  /** In every state of a run of fresh claims, a fresh claim that is not stored can still be prepared, now or later,
      exactly when it is sound and none of its port names is taken. */
  lemma PreparableInAnyRun(f: Faults, start: World, ops: seq<Op>, claim: Claim)
    requires start.store == map[] && start.broken == {} && RunFresh(f, start, ops)
    requires FreshFor(Run(f, start, ops), claim) && claim.uid !in Run(f, start, ops).store
    ensures CanBePrepared(Run(f, start, ops), claim)
       <==> Sound(claim) && WantedPorts(claim) !! Run(f, start, ops).ports.Keys
  {
    BackedInAnyRun(f, start, ops);
    FreshUnlisted(Run(f, start, ops), claim);
    PreparableAgainExactly(Run(f, start, ops), claim);
  }

  // ---------------------------------------------------------------------------
  // Where such ports come from
  // ---------------------------------------------------------------------------

  /** What a refused prepare leaves in OVS is one of its own wanted ports, on record, and an orphan. */
  lemma LeftPortIsOrphan(f: Faults, w: World, claim: Claim, n: string)
    requires PrepareOne(f, w, claim).answer.PrepareRefused? && Unlisted(w, claim)
    requires n !in w.ports && n in PrepareOne(f, w, claim).w.ports
    ensures var w' := PrepareOne(f, w, claim).w;
            n in WantedPorts(claim) && Orphan(w', n) && PortRes(w'.ports[n].bridge, n) in w'.leaked
  {
    LeftAfterAttempt(f, Tick(w), claim, PrepareClaim(f, Tick(w), claim), n);
  }

  lemma LeftAfterAttempt(f: Faults, w: World, claim: Claim, p: Prepared, n: string)
    requires p == PrepareClaim(f, w, claim) && SavePrepared(f, claim, p).answer.PrepareRefused? && Unlisted(w, claim)
    requires n !in w.ports && n in SavePrepared(f, claim, p).w.ports
    ensures var w' := SavePrepared(f, claim, p).w;
            n in WantedPorts(claim) && Orphan(w', n) && PortRes(w'.ports[n].bridge, n) in w'.leaked
  {
    if p.devices.None? {
      FailedPrepareRollsBack(f, w, claim);
      LeftByRollback(w, p.w, claim, n);
    } else {
      PreparedResources(f, w, claim);
      var m := SuccessfulPrepareInstalls(f, w, claim);
      UnprepareAllCleans(f, Tick(p.w), p.devices.value);
      LeftUnsaved(w, p.w, SavePrepared(f, claim, p).w, claim, n);
    }
  }

  lemma LeftByRollback(w: World, w': World, claim: Claim, n: string)
    requires RolledBack(w, w', ClaimResources(w.config, claim)) && Unlisted(w, claim)
    requires n !in w.ports && n in w'.ports
    ensures n in WantedPorts(claim) && Orphan(w', n) && PortRes(w'.ports[n].bridge, n) in w'.leaked
  {
    var r := PortRes(w'.ports[n].bridge, n);
    assert Exists(w', r) && !Exists(w, r);
    ResourceIsWanted(w.config, claim, r);
  }

  lemma LeftUnsaved(w: World, p: World, w': World, claim: Claim, n: string)
    requires Added(w, p, claim.uid, Devices(ClaimPlans(w.config, claim))) && Unlisted(w, claim)
    requires Cleaned(Tick(p), w', ClaimResources(w.config, claim))
    requires n !in w.ports && n in w'.ports
    ensures n in WantedPorts(claim) && Orphan(w', n) && PortRes(w'.ports[n].bridge, n) in w'.leaked
  {
    var r := PortRes(w'.ports[n].bridge, n);
    assert Exists(w', r) && Exists(Tick(p), r) && Exists(p, r) && !Exists(w, r);
    ResourceIsWanted(w.config, claim, r);
  }

  lemma ResourceIsWanted(config: NodeConfig, claim: Claim, r: Resource)
    requires r.PortRes? && r in ClaimResources(config, claim)
    ensures r.name in WantedPorts(claim)
  {
    ResourceOfPlan(ClaimPlans(config, claim), r);
    var p :| p in ClaimPlans(config, claim) && r in ResourcesOf(p.d);
    PlannedIsWanted(config, claim, r.name);
  }
}
