/** A stored claim is fully backed by its ports, directories and CDI spec exactly until an unprepare that keeps its
    entry removes something of it. */
module Backing {
  import opened Kube
  import opened Naming
  import opened Stores
  import opened Lifecycle
  import opened Handlers
  import opened NoLeaks
  import opened Batches

  /** Names without the separator that getSocketDir puts between its parts. */
  predicate WellNamed(c: Claim) {
    |c.reservedFor| == 1 && '_' !in c.reservedFor[0].uid && '_' !in PodClaimName(c)
  }

  /** Two claims differ in the first eight UID digits and in (pod UID, pod claim name). */
  predicate Apart(c: Claim, c': Claim) {
    && Prefix8(c.uid) != Prefix8(c'.uid)
    && (|c.reservedFor| == 1 && |c'.reservedFor| == 1 ==>
          !(c.reservedFor[0].uid == c'.reservedFor[0].uid && PodClaimName(c) == PodClaimName(c')))
  }

  /** The claim may be prepared beside the claims that are live now. */
  ghost predicate FreshFor(w: World, c: Claim) {
    && (Preparable(c) ==> WellNamed(c))
    && forall u :: u in w.store && u in w.origin && u != c.uid ==> Apart(w.origin[u], c)
  }

  ghost predicate BackedDevice(w: World, d: PreparedDevice) {
    && d.portName in w.ports && RowMatches(w.ports[d.portName], d)
    && d.hostDir in w.dirs
  }

  ghost predicate Backed(w: World, u: Uid)
    requires u in w.store
  {
    && (forall d :: d in w.store[u] ==> BackedDevice(w, d))
    && u in w.specs && w.specs[u] == SpecDevices(w.store[u])
  }

  /** A stored entry carries the names of the claim it was prepared from. */
  ghost predicate Recorded(w: World, u: Uid)
    requires u in w.store
  {
    && w.store[u] != []
    && u in w.origin && w.origin[u].uid == u && WellNamed(w.origin[u])
    && forall d :: d in w.store[u] ==> DeviceOf(w.origin[u], d)
  }

  ghost predicate Coherent(w: World) {
    && (forall u :: u in w.store ==> Recorded(w, u))
    && (forall u, v :: u in w.store && v in w.store && u != v ==> Apart(w.origin[u], w.origin[v]))
    && w.broken <= w.store.Keys
    && (forall u :: u in w.store ==> (Backed(w, u) <==> u !in w.broken))
  }

  // ---------------------------------------------------------------------------
  // Claims that are apart share no resource
  // ---------------------------------------------------------------------------

  lemma ApartDevices(c: Claim, c': Claim, d: PreparedDevice, d': PreparedDevice)
    requires WellNamed(c) && WellNamed(c') && Apart(c, c')
    requires DeviceOf(c, d) && DeviceOf(c', d')
    ensures d.portName != d'.portName && d.hostDir != d'.hostDir && d.claimUid != d'.claimUid
  {
    PortNameInjective(c.uid, d.device.request, c'.uid, d'.device.request);
    SocketDirInjective(c.reservedFor[0].uid, PodClaimName(c), d.device.request,
                       c'.reservedFor[0].uid, PodClaimName(c'), d'.device.request);
  }

  lemma ClaimsApart(c: Claim, c': Claim, ds: seq<PreparedDevice>, ds': seq<PreparedDevice>)
    requires WellNamed(c) && WellNamed(c') && Apart(c, c')
    requires forall d :: d in ds ==> DeviceOf(c, d)
    requires forall d :: d in ds' ==> DeviceOf(c', d)
    ensures NamesApart(ds, ds')
  {
    forall d, e | d in ds && e in ds'
      ensures d.portName != e.portName && d.hostDir != e.hostDir && d.claimUid != e.claimUid
    {
      ApartDevices(c, c', d, e);
    }
  }

  lemma ApartResources(c: Claim, c': Claim, ds: seq<PreparedDevice>, ds': seq<PreparedDevice>)
    requires WellNamed(c) && WellNamed(c') && Apart(c, c')
    requires forall d :: d in ds ==> DeviceOf(c, d)
    requires forall d :: d in ds' ==> DeviceOf(c', d)
    ensures AllResources(ds) !! AllResources(ds')
  {
    ClaimsApart(c, c', ds, ds');
    forall r | r in AllResources(ds) ensures r !in AllResources(ds') {
      var d :| d in ds && r in ResourcesOf(d);
      ApartNames(ds, ds', d, d.bridge);
    }
  }

  // ---------------------------------------------------------------------------
  // What leaves a claim as it is
  // ---------------------------------------------------------------------------

  /** No device of ds shares a port name, a directory or a claim with one of other. */
  ghost predicate NamesApart(ds: seq<PreparedDevice>, other: seq<PreparedDevice>) {
    forall d, e :: d in ds && e in other ==>
      d.portName != e.portName && d.hostDir != e.hostDir && d.claimUid != e.claimUid
  }

  /** The port row, the directory and the CDI spec of d are in w' as they are in w, present or not. */
  ghost predicate SameDevice(w: World, w': World, d: PreparedDevice) {
    && (d.portName in w.ports <==> d.portName in w'.ports)
    && (d.portName in w.ports ==> w'.ports[d.portName] == w.ports[d.portName])
    && (d.hostDir in w.dirs <==> d.hostDir in w'.dirs)
    && (d.claimUid in w.specs <==> d.claimUid in w'.specs)
    && (d.claimUid in w.specs ==> w'.specs[d.claimUid] == w.specs[d.claimUid])
  }

  ghost predicate SameFor(w: World, w': World, ds: seq<PreparedDevice>) {
    forall d :: d in ds ==> SameDevice(w, w', d)
  }

  lemma SameStaysBacked(w: World, w': World, u: Uid)
    requires u in w.store && u in w'.store && w'.store[u] == w.store[u] && w.store[u] != []
    requires forall d :: d in w.store[u] ==> d.claimUid == u
    requires SameFor(w, w', w.store[u])
    ensures Backed(w', u) <==> Backed(w, u)
  {
    var ds := w.store[u];
    assert SameDevice(w, w', ds[0]);
    forall d | d in ds ensures BackedDevice(w', d) <==> BackedDevice(w, d) {
      assert SameDevice(w, w', d);
    }
  }

  lemma ApartNames(ds: seq<PreparedDevice>, other: seq<PreparedDevice>, d: PreparedDevice, bridge: string)
    requires NamesApart(ds, other) && d in ds
    ensures PortRes(bridge, d.portName) !in AllResources(other)
    ensures DirOf(d) !in AllResources(other) && SpecOf(d) !in AllResources(other)
  {
  }

  /** The bridge under which d's port name is used in w or in w'. */
  ghost function UsedBridge(w: World, w': World, d: PreparedDevice): string {
    if d.portName in w.ports then w.ports[d.portName].bridge
    else if d.portName in w'.ports then w'.ports[d.portName].bridge
    else ""
  }

  lemma CleanedSame(w: World, w': World, other: seq<PreparedDevice>, ds: seq<PreparedDevice>)
    requires Cleaned(w, w', AllResources(other)) && NamesApart(ds, other)
    ensures SameFor(w, w', ds)
  {
    forall d | d in ds ensures SameDevice(w, w', d) {
      var port := PortRes(UsedBridge(w, w', d), d.portName);
      ApartNames(ds, other, d, port.bridge);
      assert Exists(w, port) <==> Exists(w', port);
      assert Exists(w, DirOf(d)) <==> Exists(w', DirOf(d));
      assert Exists(w, SpecOf(d)) <==> Exists(w', SpecOf(d));
    }
  }

  lemma RolledBackSame(w: World, w': World, other: seq<PreparedDevice>, ds: seq<PreparedDevice>)
    requires RolledBack(w, w', AllResources(other)) && NamesApart(ds, other)
    ensures SameFor(w, w', ds)
  {
    forall d | d in ds ensures SameDevice(w, w', d) {
      var port := PortRes(UsedBridge(w, w', d), d.portName);
      ApartNames(ds, other, d, port.bridge);
      assert Exists(w, port) <==> Exists(w', port);
      assert Exists(w, DirOf(d)) <==> Exists(w', DirOf(d));
      assert Exists(w, SpecOf(d)) <==> Exists(w', SpecOf(d));
    }
  }

  lemma AddedSame(w: World, w': World, uid: Uid, other: seq<PreparedDevice>, ds: seq<PreparedDevice>)
    requires Added(w, w', uid, other) && NamesApart(ds, other)
    ensures SameFor(w, w', ds)
  {
    assert other[0] in other && other[0].claimUid == uid;
    forall d | d in ds ensures SameDevice(w, w', d) {
      var port := PortRes(UsedBridge(w, w', d), d.portName);
      ApartNames(ds, other, d, port.bridge);
      assert Exists(w, port) <==> Exists(w', port);
      assert Exists(w, DirOf(d)) <==> Exists(w', DirOf(d));
      assert d.claimUid != uid;
    }
  }

  lemma SameThen(w: World, w1: World, w2: World, ds: seq<PreparedDevice>)
    requires SameFor(w, w1, ds) && SameFor(w1, w2, ds)
    ensures SameFor(w, w2, ds)
  {
    forall d | d in ds ensures SameDevice(w, w2, d) {
      assert SameDevice(w, w1, d) && SameDevice(w1, w2, d);
    }
  }

  // ---------------------------------------------------------------------------
  // What an attempt to clean up takes away
  // ---------------------------------------------------------------------------

  /** A cleanup of one device whose calls all fail changes no store; otherwise something of the device is gone. */
  lemma DeviceCleanupExact(f: Faults, w: World, d: PreparedDevice)
    ensures var o := UnprepareDevice(f, w, d);
            && o.w.calls == w.calls + 3
            && (AnySucceeds(f, w.calls, o.w.calls) ==> exists r :: r in ResourcesOf(d) && !Exists(o.w, r))
            && (!AnySucceeds(f, w.calls, o.w.calls) ==>
                  o.w.ports == w.ports && o.w.dirs == w.dirs && o.w.specs == w.specs)
  {
    var w1 := DeleteSpec(f, w, d.claimUid).w;
    var w2 := DeletePort(f, w1, d.bridge, d.portName).w;
    var w3 := RemoveDir(f, w2, d.hostDir).w;
    DeletePortCleans(f, w1, d.bridge, d.portName);
    assert w1.calls == w.calls + 1 && w2.calls == w.calls + 2 && w3.calls == w.calls + 3;
    if AnySucceeds(f, w.calls, w3.calls) {
      assert !Fails(f, w) ==> !Exists(w3, SpecOf(d));
      assert !Fails(f, w1) ==> !Exists(w2, PortOf(d)) && !Exists(w3, PortOf(d));
      assert !Fails(f, w2) ==> !Exists(w3, DirOf(d));
    } else {
      assert FailsAt(f, w.calls) && FailsAt(f, w.calls + 1) && FailsAt(f, w.calls + 2);
    }
  }

  lemma {:induction false} CleanupExact(f: Faults, w: World, ds: seq<PreparedDevice>)
    ensures var o := UnprepareAll(f, w, ds);
            && o.w.calls == w.calls + 3 * |ds|
            && (AnySucceeds(f, w.calls, o.w.calls) ==> exists r :: r in AllResources(ds) && !Exists(o.w, r))
            && (!AnySucceeds(f, w.calls, o.w.calls) ==>
                  o.w.ports == w.ports && o.w.dirs == w.dirs && o.w.specs == w.specs)
    decreases ds
  {
    if ds != [] {
      var first := UnprepareDevice(f, w, ds[0]);
      var rest := UnprepareAll(f, first.w, ds[1..]);
      DeviceCleanupExact(f, w, ds[0]);
      CleanupExact(f, first.w, ds[1..]);
      UnprepareAllCleans(f, first.w, ds[1..]);
      SucceedsSplit(f, w.calls, first.w.calls, rest.w.calls);
      assert AllResources(ds) == ResourcesOf(ds[0]) + AllResources(ds[1..]);
    }
  }

  lemma SucceedsSplit(f: Faults, a: nat, b: nat, c: nat)
    requires a <= b <= c
    ensures AnySucceeds(f, a, c) <==> AnySucceeds(f, a, b) || AnySucceeds(f, b, c)
  {
  }

  // ---------------------------------------------------------------------------
  // Every handler step keeps the stored claims coherent
  // ---------------------------------------------------------------------------

  /** Entries stay or go, and each that stays is as it was or has its mark right. */
  lemma CoherentKept(w: World, w': World)
    requires Coherent(w)
    requires forall v :: v in w'.store ==>
               v in w.store && w'.store[v] == w.store[v] && v in w'.origin && w'.origin[v] == w.origin[v]
    requires w'.broken <= w'.store.Keys
    requires forall v :: v in w'.store ==>
               || (SameFor(w, w', w.store[v]) && (v in w'.broken <==> v in w.broken))
               || (Backed(w', v) <==> v !in w'.broken)
    ensures Coherent(w')
  {
    forall v | v in w'.store ensures Recorded(w', v) {
      assert Recorded(w, v);
    }
    forall v | v in w'.store ensures Backed(w', v) <==> v !in w'.broken {
      assert Recorded(w, v);
      if SameFor(w, w', w.store[v]) && (v in w'.broken <==> v in w.broken) {
        SameStaysBacked(w, w', v);
      }
    }
  }

  lemma StoredApart(w: World, u: Uid, v: Uid)
    requires Coherent(w) && u in w.store && v in w.store && u != v
    ensures NamesApart(w.store[v], w.store[u])
  {
    assert Recorded(w, u) && Recorded(w, v);
    ClaimsApart(w.origin[v], w.origin[u], w.store[v], w.store[u]);
  }

  lemma UnprepareOneCoherent(f: Faults, w: World, uid: Uid)
    requires Coherent(w)
    ensures Coherent(UnprepareOne(f, w, uid).w)
  {
    var u := UnprepareOneEffect(f, w, uid);
    var o := UnprepareOne(f, w, uid);
    match o.answer {
      case UnprepareReadError => CoherentKept(w, o.w);
      case NothingStored => CoherentKept(w, o.w);
      case CleanupFailed => AttemptCoherent(f, w, u, o.w, uid);
      case EntryDeleteError =>
        assert w.store[uid][0] in w.store[uid];
        assert !Exists(u, DirOf(w.store[uid][0]));
        MarkedCoherent(w, u, o.w, uid);
      case Unprepared => CleanedOthers(w, u, o.w, uid); CoherentKept(w, o.w);
    }
  }

  /** Cleaning up one stored claim leaves the others as they are. */
  lemma CleanedOthers(w: World, u: World, w': World, uid: Uid)
    requires Coherent(w) && uid in w.store && Cleaned(w, u, AllResources(w.store[uid]))
    requires w'.ports == u.ports && w'.dirs == u.dirs && w'.specs == u.specs
    ensures forall v :: v in w.store && v != uid ==> SameFor(w, w', w.store[v])
  {
    forall v | v in w.store && v != uid ensures SameFor(w, w', w.store[v]) {
      StoredApart(w, uid, v);
      CleanedSame(w, u, w.store[uid], w.store[v]);
      forall d | d in w.store[v] ensures SameDevice(w, w', d) {
        assert SameDevice(w, u, d);
      }
    }
  }

  /** An attempt that leaves errors: the claim is marked exactly when something of it is gone. */
  lemma AttemptCoherent(f: Faults, w: World, u: World, w': World, uid: Uid)
    requires Coherent(w) && CleanedStored(f, w, u, uid) && w' == u.(broken := Marked(f, uid, w.calls + 1, u))
    ensures Coherent(w')
  {
    CleanupExact(f, Tick(w), w.store[uid]);
    if AnySucceeds(f, w.calls + 1, u.calls) {
      MarkedCoherent(w, u, w', uid);
    } else {
      UntouchedCoherent(w, w');
    }
  }

  lemma UntouchedCoherent(w: World, w': World)
    requires Coherent(w) && w' == w.(leaked := w'.leaked, calls := w'.calls)
    ensures Coherent(w')
  {
    forall v | v in w.store ensures SameFor(w, w', w.store[v]) {
    }
    CoherentKept(w, w');
  }

  /** A claim of which something is gone is marked. */
  lemma MarkedCoherent(w: World, u: World, w': World, uid: Uid)
    requires Coherent(w) && uid in w.store && Cleaned(w, u, AllResources(w.store[uid]))
    requires exists r :: r in AllResources(w.store[uid]) && !Exists(u, r)
    requires w' == u.(broken := w.broken + {uid}, calls := w'.calls)
    ensures Coherent(w')
  {
    CleanedOthers(w, u, w', uid);
    assert Recorded(w, uid) && Recorded(w', uid);
    if Backed(w', uid) {
      var r :| r in AllResources(w.store[uid]) && !Exists(u, r);
      BackedResourceExists(w', uid, r);
      assert false;
    }
    CoherentKept(w, w');
  }

  lemma BackedResourceExists(w: World, u: Uid, r: Resource)
    requires u in w.store && Recorded(w, u) && Backed(w, u) && r in AllResources(w.store[u])
    ensures Exists(w, r)
  {
    var d :| d in w.store[u] && r in ResourcesOf(d);
    assert BackedDevice(w, d) && DeviceOf(w.origin[u], d);
  }

  /** The devices of a claim's plans are apart from every live claim. */
  lemma PlannedApart(w: World, claim: Claim, v: Uid)
    requires Coherent(w) && FreshFor(w, claim) && v in w.store && v != claim.uid
    ensures NamesApart(w.store[v], Devices(ClaimPlans(w.config, claim)))
  {
    if Preparable(claim) {
      assert Recorded(w, v);
      var ps := ClaimPlans(w.config, claim);
      PlansBridge(w.config, claim);
      forall d | d in Devices(ps) ensures DeviceOf(claim, d) {
        DeviceOfPlan(ps, d);
      }
      ClaimsApart(w.origin[v], claim, w.store[v], Devices(ps));
    }
  }

  /** A successful prepare backs each of its devices. */
  lemma PreparedBacked(f: Faults, w: World, claim: Claim)
    requires PrepareClaim(f, w, claim).devices.Some?
    ensures var o := PrepareClaim(f, w, claim);
            && o.devices.value == Devices(ClaimPlans(w.config, claim))
            && |claim.reservedFor| == 1
            && forall d :: d in o.devices.value ==> BackedDevice(o.w, d) && DeviceOf(claim, d)
  {
    var m := SuccessfulPrepareInstalls(f, w, claim);
    var o, ps := PrepareClaim(f, w, claim), ClaimPlans(w.config, claim);
    PlansBridge(w.config, claim);
    forall d | d in o.devices.value ensures BackedDevice(o.w, d) && DeviceOf(claim, d) {
      DeviceOfPlan(ps, d);
      var p :| p in ps && p.d == d;
      assert o.w.ports[d.portName] == p.row;
    }
  }

  lemma CoherentStored(w: World, p: World, w': World, claim: Claim, ds: seq<PreparedDevice>)
    requires Coherent(w) && WellNamed(claim) && claim.uid !in w.store
    requires forall u :: u in w.store ==> Apart(w.origin[u], claim) && SameFor(w, p, w.store[u])
    requires Added(w, p, claim.uid, ds)
    requires forall d :: d in ds ==> BackedDevice(p, d) && DeviceOf(claim, d)
    requires w' == p.(store := w.store[claim.uid := ds], origin := w.origin[claim.uid := claim], calls := w'.calls)
    ensures Coherent(w')
  {
    forall v | v in w'.store ensures Recorded(w', v) && (Backed(w', v) <==> v !in w'.broken) {
      if v == claim.uid {
        NewlyBacked(p, w', claim.uid, ds);
      } else {
        assert Recorded(w, v) && SameFor(w, p, w.store[v]);
        StoredSame(w, p, w', v);
      }
    }
    forall u, v | u in w'.store && v in w'.store && u != v ensures Apart(w'.origin[u], w'.origin[v]) {
      if u != claim.uid && v != claim.uid {
        assert Apart(w.origin[u], w.origin[v]);
      }
    }
  }

  lemma NewlyBacked(p: World, w': World, uid: Uid, ds: seq<PreparedDevice>)
    requires forall d :: d in ds ==> BackedDevice(p, d)
    requires uid in w'.store && w'.store[uid] == ds && uid in p.specs && p.specs[uid] == SpecDevices(ds)
    requires w'.ports == p.ports && w'.dirs == p.dirs && w'.specs == p.specs
    ensures Backed(w', uid)
  {
    forall d | d in ds ensures BackedDevice(w', d) {
      assert BackedDevice(p, d);
    }
  }

  lemma StoredSame(w: World, p: World, w': World, v: Uid)
    requires v in w.store && Recorded(w, v) && SameFor(w, p, w.store[v])
    requires v in w'.store && w'.store[v] == w.store[v]
    requires w'.ports == p.ports && w'.dirs == p.dirs && w'.specs == p.specs
    ensures Backed(w', v) <==> Backed(w, v)
  {
    forall d | d in w.store[v] ensures SameDevice(w, w', d) {
      assert SameDevice(w, p, d);
    }
    SameStaysBacked(w, w', v);
  }

  lemma RefusedCoherent(w: World, w': World, claim: Claim)
    requires Coherent(w) && FreshFor(w, claim) && claim.uid !in w.store
    requires RolledBack(w, w', ClaimResources(w.config, claim))
    ensures Coherent(w')
  {
    forall v | v in w.store ensures SameFor(w, w', w.store[v]) {
      PlannedApart(w, claim, v);
      RolledBackSame(w, w', Devices(ClaimPlans(w.config, claim)), w.store[v]);
    }
    CoherentKept(w, w');
  }

  lemma UnsavedCoherent(w: World, p: World, w': World, claim: Claim, ds: seq<PreparedDevice>)
    requires Coherent(w) && ds == Devices(ClaimPlans(w.config, claim))
    requires forall v :: v in w.store ==> NamesApart(w.store[v], ds) && SameFor(w, p, w.store[v])
    requires Added(w, p, claim.uid, ds) && Cleaned(Tick(p), w', AllResources(ds))
    ensures Coherent(w')
  {
    forall v | v in w.store ensures SameFor(w, w', w.store[v]) {
      CleanedFromTick(p, w', AllResources(ds));
      CleanedSame(p, w', ds, w.store[v]);
      SameThen(w, p, w', w.store[v]);
    }
    CoherentKept(w, w');
  }

  /** Both ends of storing prepared devices, p being the world that has them. */
  lemma SavePreparedCoherent(f: Faults, w: World, claim: Claim, p: Prepared)
    requires Coherent(w) && FreshFor(w, claim) && claim.uid !in w.store && WellNamed(claim)
    requires p.devices == Some(Devices(ClaimPlans(w.config, claim))) && Added(w, p.w, claim.uid, p.devices.value)
    requires forall d :: d in p.devices.value ==> BackedDevice(p.w, d) && DeviceOf(claim, d)
    ensures Coherent(SavePrepared(f, claim, p).w)
  {
    var ds := p.devices.value;
    forall v | v in w.store ensures NamesApart(w.store[v], ds) && SameFor(w, p.w, w.store[v]) {
      PlannedApart(w, claim, v);
      AddedSame(w, p.w, claim.uid, ds, w.store[v]);
    }
    var saved := StoreSet(f, p.w, claim, ds);
    if saved.ok {
      assert forall u :: u in w.store ==> Recorded(w, u);
      CoherentStored(w, p.w, saved.w, claim, ds);
    } else {
      UnprepareAllCleans(f, saved.w, ds);
      UnsavedCoherent(w, p.w, UnprepareAll(f, saved.w, ds).w, claim, ds);
    }
  }

  lemma PrepareOneCoherent(f: Faults, w: World, claim: Claim)
    requires Coherent(w) && FreshFor(w, claim)
    ensures Coherent(PrepareOne(f, w, claim).w)
  {
    var w1 := Tick(w);
    CoherentKept(w, w1);
    if StoreGet(f, w, claim.uid).devices == Some([]) {
      var p := PrepareClaim(f, w1, claim);
      assert claim.uid !in w.store;
      if p.devices.None? {
        FailedPrepareRollsBack(f, w1, claim);
        RefusedCoherent(w1, p.w, claim);
      } else {
        PreparedResources(f, w1, claim);
        PreparedBacked(f, w1, claim);
        SavePreparedCoherent(f, w1, claim, p);
      }
    }
  }

  // ---------------------------------------------------------------------------
  // Whole runs
  // ---------------------------------------------------------------------------

  /** Each claim is fresh for the claims live when its turn comes. */
  ghost predicate BatchFresh(f: Faults, w: World, claims: seq<Claim>)
    decreases claims
  {
    claims != [] ==>
      && FreshFor(w, claims[0])
      && var o := PrepareOne(f, w, claims[0]);
         o.answer.PrepareAnswered? ==> BatchFresh(f, o.w, claims[1..])
  }

  ghost predicate RunFresh(f: Faults, w: World, ops: seq<Op>)
    decreases ops
  {
    ops != [] ==>
      && (ops[0].PrepareOp? ==> BatchFresh(f, w, ops[0].claims))
      && RunFresh(f, Apply(f, w, ops[0]), ops[1..])
  }

  lemma {:induction false} PrepareBatchCoherent(f: Faults, w: World, claims: seq<Claim>,
                                                results: map<Uid, PrepareResult>, notices: seq<Claim>)
    requires Coherent(w) && BatchFresh(f, w, claims)
    ensures Coherent(PrepareBatch(f, w, claims, results, notices).w)
    decreases claims
  {
    if claims != [] {
      PrepareOneCoherent(f, w, claims[0]);
      var o := PrepareOne(f, w, claims[0]);
      if o.answer.PrepareAnswered? {
        PrepareBatchCoherent(f, o.w, claims[1..], results[claims[0].uid := Report(o.answer.devices)],
                             notices + NoticeList(o));
      }
    }
  }

  lemma {:induction false} UnprepareBatchCoherent(f: Faults, w: World, uids: seq<Uid>, results: map<Uid, bool>)
    requires Coherent(w)
    ensures Coherent(UnprepareBatch(f, w, uids, results).w)
    decreases uids
  {
    if uids != [] {
      UnprepareOneCoherent(f, w, uids[0]);
      var o := UnprepareOne(f, w, uids[0]);
      UnprepareBatchStep(f, w, uids, results, o);
      if Continues(o.answer) {
        UnprepareBatchCoherent(f, o.w, uids[1..], results[uids[0] := o.answer != CleanupFailed]);
      }
    }
  }

  /** Backing over whole runs, for every failure pattern. */
  lemma {:induction false} BackedInAnyRun(f: Faults, w: World, ops: seq<Op>)
    requires Coherent(w) && RunFresh(f, w, ops)
    ensures Coherent(Run(f, w, ops))
    decreases ops
  {
    if ops != [] {
      match ops[0] {
        case PrepareOp(claims) => PrepareBatchCoherent(f, w, claims, map[], []);
        case UnprepareOp(uids) => UnprepareBatchCoherent(f, w, uids, map[]);
        case ConfigureOp(config) => CoherentKept(w, w.(config := config));
      }
      BackedInAnyRun(f, Apply(f, w, ops[0]), ops[1..]);
    }
  }

  /** Both directions of the accounts: with no failed cleanup on record, the resources beyond the base are exactly
      those of the stored claims. */
  lemma ExactAccounts(base: World, w: World, r: Resource)
    requires Accounted(base, w) && Coherent(w)
    requires w.leaked == {} && w.broken == {}
    ensures Exists(w, r) && !Exists(base, r) ==> r in StoreResources(w.store)
    ensures r in StoreResources(w.store) ==> Exists(w, r)
  {
    if r in StoreResources(w.store) {
      var u :| u in w.store && r in AllResources(w.store[u]);
      assert Recorded(w, u);
      BackedResourceExists(w, u, r);
    }
  }

  /** A claim reported ready is stored with exactly the reported devices, and backed exactly when no unprepare that kept
      its entry removed anything of it. */
  lemma ReadyMeansBacked(f: Faults, w: World, claims: seq<Claim>, u: Uid)
    requires Coherent(w) && BatchFresh(f, w, claims)
    requires var out := PrepareBatch(f, w, claims, map[], []);
             out.results.Some? && u in out.results.value && out.results.value[u].Ready?
    ensures var out := PrepareBatch(f, w, claims, map[], []);
            && u in out.w.store && out.results.value[u] == Report(out.w.store[u])
            && (Backed(out.w, u) <==> u !in out.w.broken)
  {
    PrepareBatchCoherent(f, w, claims, map[], []);
    var k := BatchResults(f, w, claims, map[], []);
  }

  /** Every state a node can reach from an empty claim store, under every failure pattern. */
  lemma ReachableStates(f: Faults, start: World, ops: seq<Op>)
    requires start.store == map[] && start.broken == {}
    ensures Accounted(start, Run(f, start, ops))
    ensures RunFresh(f, start, ops) ==> Coherent(Run(f, start, ops))
  {
    FreshNodeAccounted(start);
    NoLeaksInAnyRun(f, start, start, ops);
    if RunFresh(f, start, ops) {
      BackedInAnyRun(f, start, ops);
    }
  }
}
