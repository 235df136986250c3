/** What exactly a prepare leaves behind when it is given up. */
module Rollback {
  import opened Kube
  import opened Naming
  import opened PortConfigs
  import opened Stores
  import opened Lifecycle
  import opened Handlers
  import opened Retries
  import opened RoundTrip

  function HostDirs(ps: seq<Plan>): (dirs: set<string>)
  {
    set p | p in ps :: p.d.hostDir
  }

  // ---------------------------------------------------------------------------
  // The record of failed cleanups is never read
  // ---------------------------------------------------------------------------

  /** v is w but for its record of failed cleanups. */
  ghost predicate Alike(w: World, v: World) {
    v == w.(leaked := v.leaked)
  }

  ghost predicate AlikeOutcomes(o: Outcome, o': Outcome) {
    o.ok == o'.ok && Alike(o.w, o'.w)
  }

  lemma RemoveDirAlike(f: Faults, w: World, v: World, path: string)
    requires Alike(w, v)
    ensures AlikeOutcomes(RemoveDir(f, w, path), RemoveDir(f, v, path))
  {
  }

  lemma CreateDirAlike(f: Faults, w: World, v: World, path: string)
    requires Alike(w, v)
    ensures AlikeOutcomes(CreateDir(f, w, path), CreateDir(f, v, path))
  {
    var made, made' := Tick(w).(dirs := w.dirs + {path}), Tick(v).(dirs := v.dirs + {path});
    RemoveDirAlike(f, Tick(made), Tick(made'), path);
  }

  lemma DeletePortAlike(f: Faults, w: World, v: World, bridge: string, name: string)
    requires Alike(w, v)
    ensures var o, o' := DeletePort(f, w, bridge, name), DeletePort(f, v, bridge, name);
            o.answer == o'.answer && Alike(o.w, o'.w)
  {
    if !Fails(f, w) && name in w.ports {
      assert w.ports[name] == v.ports[name];
    }
  }

  lemma DeleteSpecAlike(f: Faults, w: World, v: World, uid: Uid)
    requires Alike(w, v)
    ensures AlikeOutcomes(DeleteSpec(f, w, uid), DeleteSpec(f, v, uid))
  {
  }

  lemma CreatePortAlike(f: Faults, w: World, v: World, name: string, row: PortRow)
    requires Alike(w, v)
    ensures AlikeOutcomes(CreatePort(f, w, name, row), CreatePort(f, v, name, row))
  {
  }

  lemma UnprepareDeviceAlike(f: Faults, w: World, v: World, d: PreparedDevice)
    requires Alike(w, v)
    ensures AlikeOutcomes(UnprepareDevice(f, w, d), UnprepareDevice(f, v, d))
  {
    var w1, v1 := DeleteSpec(f, w, d.claimUid).w, DeleteSpec(f, v, d.claimUid).w;
    DeleteSpecAlike(f, w, v, d.claimUid);
    DeletePortAlike(f, w1, v1, d.bridge, d.portName);
    RemoveDirAlike(f, DeletePort(f, w1, d.bridge, d.portName).w, DeletePort(f, v1, d.bridge, d.portName).w, d.hostDir);
  }

  lemma {:induction false} UnprepareAllAlike(f: Faults, w: World, v: World, ds: seq<PreparedDevice>)
    requires Alike(w, v)
    ensures AlikeOutcomes(UnprepareAll(f, w, ds), UnprepareAll(f, v, ds))
    decreases ds
  {
    if ds != [] {
      UnprepareDeviceAlike(f, w, v, ds[0]);
      UnprepareAllAlike(f, UnprepareDevice(f, w, ds[0]).w, UnprepareDevice(f, v, ds[0]).w, ds[1..]);
    }
  }

  lemma InstallAlike(f: Faults, w: World, v: World, p: Plan)
    requires Alike(w, v)
    ensures AlikeOutcomes(Install(f, w, p), Install(f, v, p))
  {
    var dir, dir' := CreateDir(f, w, p.d.hostDir), CreateDir(f, v, p.d.hostDir);
    CreateDirAlike(f, w, v, p.d.hostDir);
    CreatePortAlike(f, dir.w, dir'.w, p.d.portName, p.row);
    RemoveDirAlike(f, CreatePort(f, dir.w, p.d.portName, p.row).w, CreatePort(f, dir'.w, p.d.portName, p.row).w,
                   p.d.hostDir);
  }

  lemma {:induction false} InstallAllAlike(f: Faults, w: World, v: World, ps: seq<Plan>)
    requires Alike(w, v)
    ensures var o, o' := InstallAll(f, w, ps), InstallAll(f, v, ps);
            o.ok == o'.ok && o.count == o'.count && Alike(o.w, o'.w)
    ensures DirsMade(f, w, ps) == DirsMade(f, v, ps)
    decreases ps
  {
    if ps != [] {
      InstallAlike(f, w, v, ps[0]);
      InstallAllAlike(f, Install(f, w, ps[0]).w, Install(f, v, ps[0]).w, ps[1..]);
    }
  }

  lemma PrepareClaimAlike(f: Faults, w: World, v: World, claim: Claim)
    requires Alike(w, v)
    ensures var o, o' := PrepareClaim(f, w, claim), PrepareClaim(f, v, claim);
            o.devices == o'.devices && o.claim == o'.claim && Alike(o.w, o'.w)
  {
    if Preparable(claim) {
      var ps := ClaimPlans(w.config, claim);
      var o, o' := InstallAll(f, w, ps), InstallAll(f, v, ps);
      InstallAllAlike(f, w, v, ps);
      if !o.ok || Fails(f, o.w) {
        UnprepareAllAlike(f, o.w, o'.w, Devices(ps[..o.count]));
        UnprepareAllAlike(f, Tick(o.w), Tick(o'.w), Devices(ps[..o.count]));
      }
    }
  }

  ghost predicate AlikeOnes(o: PreparedOne, o': PreparedOne) {
    o.answer == o'.answer && o.notice == o'.notice && Alike(o.w, o'.w)
  }

  lemma SavePreparedAlike(f: Faults, claim: Claim, p: Prepared, p': Prepared)
    requires p.devices == p'.devices && p.claim == p'.claim && Alike(p.w, p'.w)
    ensures AlikeOnes(SavePrepared(f, claim, p), SavePrepared(f, claim, p'))
  {
    if p.devices.Some? {
      UnprepareAllAlike(f, Tick(p.w), Tick(p'.w), p.devices.value);
    }
  }

  lemma PrepareOneAlike(f: Faults, w: World, v: World, claim: Claim)
    requires Alike(w, v)
    ensures AlikeOnes(PrepareOne(f, w, claim), PrepareOne(f, v, claim))
  {
    PrepareClaimAlike(f, Tick(w), Tick(v), claim);
    SavePreparedAlike(f, claim, PrepareClaim(f, Tick(w), claim), PrepareClaim(f, Tick(v), claim));
  }

  // ---------------------------------------------------------------------------
  // The end state of a prepare that was given up
  // ---------------------------------------------------------------------------

  /** The stores after a prepare of `uid` that made the directories of the first `made` plans, installed the first
      `count` of them, and cleaned all of it up. */
  ghost predicate Undone(w: World, w': World, uid: Uid, ps: seq<Plan>, made: nat, count: nat)
    requires made <= |ps|
  {
    && w'.ports == w.ports
    && w'.dirs == w.dirs - HostDirs(ps[..made])
    && w'.specs == (if count > 0 then w.specs - {uid} else w.specs)
    && w'.store == w.store && w'.origin == w.origin && w'.broken == w.broken && w'.config == w.config
  }

  /** The situation before the cleanup calls of a prepare that is given up: k plans are installed in m, x is what a
      failed install or a failed write made of it. */
  ghost predicate GivenUp(w: World, m: World, x: World, uid: Uid, ps: seq<Plan>, k: nat, made: nat) {
    && k <= made <= |ps| && made <= k + 1
    && (forall p :: p in ps ==> p.row.bridge == p.d.bridge && p.d.claimUid == uid)
    && Grown(w, m, ps[..k])
    && x == m.(dirs := x.dirs, specs := x.specs, leaked := x.leaked, calls := x.calls)
    && (forall v :: v != uid ==> (v in x.specs <==> v in w.specs) && (v in x.specs ==> x.specs[v] == w.specs[v]))
    && (k == 0 ==> x.specs == w.specs)
    && (made == k ==> x.dirs == m.dirs && x.leaked == {})
    && (made > k ==> InstallFailed(m, x.(specs := m.specs), ps[k].d.hostDir)
                     && (ps[k].d.hostDir !in x.dirs || DirRes(ps[k].d.hostDir) in x.leaked))
  }

  lemma UndoneDirs(w: World, m: World, x: World, w': World, uid: Uid, ps: seq<Plan>, k: nat, made: nat)
    requires GivenUp(w, m, x, uid, ps, k, made)
    requires Cleaned(x, w', AllResources(Devices(ps[..k]))) && w'.leaked == {}
    ensures w'.dirs == w.dirs - HostDirs(ps[..made])
  {
    assert made > k ==> ps[..made] == ps[..k] + [ps[k]];
    forall y ensures y in w'.dirs <==> y in w.dirs && y !in HostDirs(ps[..made]) {
      DirOfPlan(ps[..k], y);
      assert Exists(w', DirRes(y)) <==> y in w'.dirs;
      assert Exists(x, DirRes(y)) <==> y in x.dirs;
      GrownDir(w, m, ps[..k], y);
      assert y in HostDirs(ps[..made]) <==> y in HostDirs(ps[..k]) || (made > k && y == ps[k].d.hostDir);
    }
  }

  lemma UndonePorts(w: World, m: World, x: World, w': World, uid: Uid, ps: seq<Plan>, k: nat)
    requires k <= |ps| && Grown(w, m, ps[..k]) && x.ports == m.ports
    requires forall p :: p in ps ==> p.row.bridge == p.d.bridge
    requires Cleaned(x, w', AllResources(Devices(ps[..k]))) && w'.leaked == {}
    ensures w'.ports == w.ports
  {
    forall n | n in w.ports ensures n in w'.ports && w'.ports[n] == w.ports[n] {
      GrownPort(w, m, ps[..k], w.ports[n].bridge, n);
      assert Exists(x, PortRes(w.ports[n].bridge, n));
    }
    forall n | n in w'.ports ensures n in w.ports {
      var r := PortRes(w'.ports[n].bridge, n);
      assert Exists(w', r) && Exists(x, r) && Exists(m, r);
      GrownPort(w, m, ps[..k], r.bridge, n);
    }
  }

  lemma UndoneSpecs(w: World, x: World, w': World, uid: Uid, ps: seq<Plan>, k: nat)
    requires k <= |ps| && forall p :: p in ps ==> p.d.claimUid == uid
    requires forall v :: v != uid ==> (v in x.specs <==> v in w.specs) && (v in x.specs ==> x.specs[v] == w.specs[v])
    requires k == 0 ==> x.specs == w.specs
    requires Cleaned(x, w', AllResources(Devices(ps[..k]))) && w'.leaked == {}
    ensures w'.specs == if k > 0 then w.specs - {uid} else w.specs
  {
    forall v ensures v in w'.specs <==> v in w.specs && (k > 0 ==> v != uid) {
      assert Exists(w', SpecRes(v)) <==> v in w'.specs;
      assert Exists(x, SpecRes(v)) <==> v in x.specs;
      if k > 0 {
        SpecOfPlans(uid, ps[..k], v);
      } else {
        ResourceOfPlan(ps[..k], SpecRes(v));
      }
    }
  }

  lemma GivenUpUndone(f: Faults, w: World, m: World, x: World, uid: Uid, ps: seq<Plan>, k: nat, made: nat)
    requires GivenUp(w, m, x, uid, ps, k, made)
    requires UnprepareAll(f, x, Devices(ps[..k])).w.leaked == {}
    ensures Undone(w, UnprepareAll(f, x, Devices(ps[..k])).w, uid, ps, made, k)
  {
    var w' := UnprepareAll(f, x, Devices(ps[..k])).w;
    UnprepareAllCleans(f, x, Devices(ps[..k]));
    UndonePorts(w, m, x, w', uid, ps, k);
    UndoneDirs(w, m, x, w', uid, ps, k, made);
    UndoneSpecs(w, x, w', uid, ps, k);
  }

  /** This prepare's own cleanup calls undid what they were for: starting from a blank record, none is left on it. */
  ghost predicate CleanupSucceeds(f: Faults, w: World, claim: Claim) {
    PrepareClaim(f, w.(leaked := {}), claim).w.leaked == {}
  }

  lemma BlankUndone(f: Faults, w: World, claim: Claim)
    requires w.leaked == {}
    requires PrepareClaim(f, w, claim).devices.None? && PrepareClaim(f, w, claim).w.leaked == {}
    ensures var ps := ClaimPlans(w.config, claim);
            Undone(w, PrepareClaim(f, w, claim).w, claim.uid, ps, DirsMade(f, w, ps), InstallAll(f, w, ps).count)
  {
    var ps := ClaimPlans(w.config, claim);
    var o, made := InstallAll(f, w, ps), DirsMade(f, w, ps);
    PlansBridge(w.config, claim);
    var m := InstallAllEffect(f, w, ps);
    if !o.ok {
      FailedInstallDir(f, m, ps[o.count]);
      assert GivenUp(w, m, o.w, claim.uid, ps, o.count, made);
      GivenUpUndone(f, w, m, o.w, claim.uid, ps, o.count, made);
    } else if ps != [] {
      assert GivenUp(w, m, Tick(m), claim.uid, ps, o.count, made);
      GivenUpUndone(f, w, m, Tick(m), claim.uid, ps, o.count, made);
    }
  }

  /** All or nothing, exactly.  When a prepare fails, wherever it fails, and its own cleanup calls succeed: every port
      is as it was; the directories it made, the first DirsMade of those it wanted, are gone even if they were there
      before; the claim has no CDI spec if anything was rolled back; and the directories are restored if and only if
      none of the directories it made existed. */
  lemma AllOrNothing(f: Faults, w: World, claim: Claim)
    requires PrepareClaim(f, w, claim).devices.None? && CleanupSucceeds(f, w, claim)
    ensures var w', ps := PrepareClaim(f, w, claim).w, ClaimPlans(w.config, claim);
            var made := DirsMade(f, w, ps);
            && Undone(w, w', claim.uid, ps, made, InstallAll(f, w, ps).count)
            && (w'.dirs == w.dirs <==> w.dirs !! HostDirs(ps[..made]))
            && (w.dirs !! HostDirs(ps) ==> w'.dirs == w.dirs)
  {
    var v, ps := w.(leaked := {}), ClaimPlans(w.config, claim);
    PrepareClaimAlike(f, w, v, claim);
    InstallAllAlike(f, w, v, ps);
    BlankUndone(f, v, claim);
    RestoredExactly(w.dirs, ps, DirsMade(f, w, ps));
  }

  lemma RestoredExactly(dirs: set<string>, ps: seq<Plan>, made: nat)
    requires made <= |ps|
    ensures dirs - HostDirs(ps[..made]) == dirs <==> dirs !! HostDirs(ps[..made])
    ensures HostDirs(ps[..made]) <= HostDirs(ps)
  {
    if dirs - HostDirs(ps[..made]) == dirs {
      forall x | x in dirs ensures x !in HostDirs(ps[..made]) {
        assert x in dirs - HostDirs(ps[..made]);
      }
    }
  }

  /** The same for the handler, whose write to the claim store can fail as well. */
  lemma PrepareOneAllOrNothing(f: Faults, w: World, claim: Claim)
    requires PrepareOne(f, w, claim).answer.PrepareRefused?
    requires PrepareOne(f, w.(leaked := {}), claim).w.leaked == {}
    ensures var w', ps := PrepareOne(f, w, claim).w, ClaimPlans(w.config, claim);
            var made := DirsMade(f, Tick(w), ps);
            && Undone(w, w', claim.uid, ps, made, InstallAll(f, Tick(w), ps).count)
            && (w'.dirs == w.dirs <==> w.dirs !! HostDirs(ps[..made]))
  {
    var v, ps := w.(leaked := {}), ClaimPlans(w.config, claim);
    PrepareOneAlike(f, w, v, claim);
    InstallAllAlike(f, Tick(w), Tick(v), ps);
    BlankOneUndone(f, v, claim);
    RestoredExactly(w.dirs, ps, DirsMade(f, Tick(w), ps));
  }

  lemma BlankOneUndone(f: Faults, w: World, claim: Claim)
    requires w.leaked == {}
    requires PrepareOne(f, w, claim).answer.PrepareRefused? && PrepareOne(f, w, claim).w.leaked == {}
    ensures var ps := ClaimPlans(w.config, claim);
            Undone(w, PrepareOne(f, w, claim).w, claim.uid, ps,
                   DirsMade(f, Tick(w), ps), InstallAll(f, Tick(w), ps).count)
  {
    var p := PrepareClaim(f, Tick(w), claim);
    if p.devices.None? {
      BlankUndone(f, Tick(w), claim);
    } else {
      UnsavedUndone(f, Tick(w), claim, Tick(p.w));
    }
  }

  /** Taking back a prepared claim that could not be stored, x being the world that has it. */
  lemma UnsavedUndone(f: Faults, w: World, claim: Claim, x: World)
    requires w.leaked == {} && PrepareClaim(f, w, claim).devices.Some? && x == Tick(PrepareClaim(f, w, claim).w)
    requires UnprepareAll(f, x, PrepareClaim(f, w, claim).devices.value).w.leaked == {}
    ensures var ps := ClaimPlans(w.config, claim);
            Undone(w, UnprepareAll(f, x, PrepareClaim(f, w, claim).devices.value).w, claim.uid, ps,
                   DirsMade(f, w, ps), InstallAll(f, w, ps).count)
  {
    var ps := ClaimPlans(w.config, claim);
    PlansBridge(w.config, claim);
    var m := InstallAllEffect(f, w, ps);
    assert ps[..|ps|] == ps;
    assert GivenUp(w, m, x, claim.uid, ps, |ps|, |ps|);
    GivenUpUndone(f, w, m, x, claim.uid, ps, |ps|, |ps|);
  }

  // ---------------------------------------------------------------------------
  // A single failure
  // ---------------------------------------------------------------------------

  /** Call number n is the only one that may fail. */
  ghost predicate OnlyFails(f: Faults, n: nat) {
    forall i: nat :: i != n ==> !FailsAt(f, i)
  }

  /** A call failed, and from here on none does. */
  ghost predicate FailedBefore(f: Faults, w: World, n: nat) {
    n < w.calls && Calm(f, w)
  }

  lemma PastOnlyFault(f: Faults, w: World, n: nat)
    requires OnlyFails(f, n) && n < w.calls
    ensures Calm(f, w)
  {
    forall i | w.calls <= i < |f| ensures !f[i] {
      assert !FailsAt(f, i);
    }
  }

  lemma SingleInstall(f: Faults, w: World, p: Plan, n: nat)
    requires OnlyFails(f, n) && w.config.vhostRoot.Some? && p.d.portName !in w.ports
    requires !Install(f, w, p).ok
    ensures var o := Install(f, w, p); FailedBefore(f, o.w, n) && o.w.leaked <= w.leaked
  {
    var o := Install(f, w, p);
    assert n < o.w.calls;
    PastOnlyFault(f, o.w, n);
  }

  lemma {:induction false} SingleInstallAll(f: Faults, w: World, ps: seq<Plan>, n: nat)
    requires OnlyFails(f, n) && w.config.vhostRoot.Some? && NamesFree(w, ps)
    ensures var o := InstallAll(f, w, ps);
            && o.w.leaked <= w.leaked
            && (!o.ok ==> FailedBefore(f, o.w, n))
    decreases ps
  {
    if ps != [] {
      var first := Install(f, w, ps[0]);
      assert ps[0] in ps;
      if first.ok {
        InstallEffect(f, w, ps[0]);
        NamesFreeCons(w, first.w, ps);
        SingleInstallAll(f, first.w, ps[1..], n);
      } else {
        SingleInstall(f, w, ps[0], n);
      }
    }
  }

  /** If only one call fails and the prepare could otherwise go ahead, its rollback leaves nothing on record. */
  lemma SinglePrepare(f: Faults, w: World, claim: Claim, n: nat)
    requires OnlyFails(f, n) && CanGoAhead(w, claim)
    ensures var p := PrepareClaim(f, w, claim);
            p.w.leaked <= w.leaked && (p.devices.None? ==> FailedBefore(f, p.w, n))
  {
    var ps := ClaimPlans(w.config, claim);
    var o := InstallAll(f, w, ps);
    SingleInstallAll(f, w, ps, n);
    HasPlans(w.config, claim);
    if !o.ok {
      CalmCleanup(f, o.w, Devices(ps[..o.count]));
    } else if Fails(f, o.w) {
      PastOnlyFault(f, Tick(o.w), n);
      CalmCleanup(f, Tick(o.w), Devices(ps[..o.count]));
    }
  }

  /** Whichever single call of a prepare fails, when the prepare could otherwise go ahead, it is undone completely. */
  lemma SingleFailureUndone(f: Faults, w: World, claim: Claim, n: nat)
    requires OnlyFails(f, n) && CanGoAhead(w, claim) && w.leaked == {}
    requires PrepareOne(f, w, claim).answer.PrepareRefused?
    ensures var w', ps := PrepareOne(f, w, claim).w, ClaimPlans(w.config, claim);
            && w'.leaked == {}
            && Undone(w, w', claim.uid, ps, DirsMade(f, Tick(w), ps), InstallAll(f, Tick(w), ps).count)
  {
    GoAheadLater(w, Tick(w), claim);
    SinglePrepare(f, Tick(w), claim, n);
    SingleSave(f, claim, PrepareClaim(f, Tick(w), claim), n);
    assert w.(leaked := {}) == w;
    PrepareOneAllOrNothing(f, w, claim);
  }

  lemma SingleSave(f: Faults, claim: Claim, p: Prepared, n: nat)
    requires OnlyFails(f, n) && p.w.leaked == {}
    ensures SavePrepared(f, claim, p).w.leaked == {}
  {
    if p.devices.Some? && Fails(f, p.w) {
      PastOnlyFault(f, Tick(p.w), n);
      CalmCleanup(f, Tick(p.w), p.devices.value);
    }
  }

  // ---------------------------------------------------------------------------
  // A directory that is lost
  // ---------------------------------------------------------------------------

  /** A taken port name costs the directory: without any failing call the prepare is refused, and the directory of its
      first device is gone although it was there. */
  lemma TakenNameLosesDir(w: World, claim: Claim)
    requires var ps := ClaimPlans(w.config, claim);
             ps != [] && ps[0].d.portName in w.ports && ps[0].d.hostDir in w.dirs && w.config.vhostRoot.Some?
    ensures PrepareClaim([], w, claim).devices.None? && CleanupSucceeds([], w, claim)
    ensures PrepareClaim([], w, claim).w.dirs == w.dirs - {ClaimPlans(w.config, claim)[0].d.hostDir} != w.dirs
  {
    var v, p := w.(leaked := {}), ClaimPlans(w.config, claim)[0];
    assert !Install([], v, p).ok && Install([], v, p).w.leaked == {};
    assert !Install([], w, p).ok && Install([], w, p).w.dirs == w.dirs - {p.d.hostDir};
  }

  const LOST_UID: Uid := "00000000"

  const LOST_CLAIM: Claim := Claim(
    LOST_UID, "net", "default", "",
    Some(Allocation([AllocationResult("vhost", DRIVER_NAME, "node", "br0", None)], [])), [Consumer("7d20", "pod")], [])

  const LOST_DIR: string := SocketDir("7d20", "net", "vhost")

  const LEFT_PORT: PortRow :=
    PortRow("br0", Join(LOST_DIR, VHOST_SOCKET), PortParams(LOST_UID, "net", "default", "pod", None, 0, 0, 1500))

  const LOST_WORLD: World := World(
    map[OvsPortName(LOST_UID, "vhost") := LEFT_PORT], {LOST_DIR}, map[], map[],
    NodeConfig(Some(DEFAULT_CONTAINER_ROOT), map[]), 0, {}, {}, map[])

  /** One such world: a port left from before takes the existing directory of a claim with it. */
  lemma ExistingDirectoryLost()
    ensures PrepareClaim([], LOST_WORLD, LOST_CLAIM).devices.None? && CleanupSucceeds([], LOST_WORLD, LOST_CLAIM)
    ensures LOST_WORLD.dirs == {LOST_DIR} && PrepareClaim([], LOST_WORLD, LOST_CLAIM).w.dirs == {}
  {
    var results := LOST_CLAIM.allocation.value.results;
    assert results[0..] == results;
    PlanRound(LOST_WORLD.config, LOST_CLAIM, Parse([]).value, results, 0);
    TakenNameLosesDir(LOST_WORLD, LOST_CLAIM);
  }
}
