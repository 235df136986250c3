/** When a prepare succeeds, and that an unprepare undoes it. */
module RoundTrip {
  import opened Kube
  import opened Naming
  import opened PortConfigs
  import opened Stores
  import opened Lifecycle
  import opened Handlers
  import opened Retries

  // ---------------------------------------------------------------------------
  // Success, call by call
  // ---------------------------------------------------------------------------

  /** The wanted port names are free and pairwise different. */
  ghost predicate NamesFree(w: World, ps: seq<Plan>) {
    && (forall p :: p in ps ==> p.d.portName !in w.ports)
    && (forall i, j :: 0 <= i < j < |ps| ==> ps[i].d.portName != ps[j].d.portName)
  }

  lemma NamesFreeCons(w: World, w1: World, ps: seq<Plan>)
    requires ps != [] && ps[0].d.portName !in w.ports
    requires w1.ports == w.ports[ps[0].d.portName := ps[0].row]
    ensures NamesFree(w, ps) <==> NamesFree(w1, ps[1..])
  {
    var rest := ps[1..];
    if NamesFree(w, ps) {
      forall p | p in rest ensures p.d.portName !in w1.ports {
        var i :| 0 <= i < |rest| && rest[i] == p;
        assert ps[i + 1] == p && ps[0].d.portName != ps[i + 1].d.portName;
      }
      forall i, j | 0 <= i < j < |rest| ensures rest[i].d.portName != rest[j].d.portName {
        assert rest[i] == ps[i + 1] && rest[j] == ps[j + 1];
      }
    }
    if NamesFree(w1, rest) {
      forall i, j | 0 <= i < j < |ps| ensures ps[i].d.portName != ps[j].d.portName {
        assert ps[j] == rest[j - 1] && ps[j] in rest;
        assert i > 0 ==> ps[i] == rest[i - 1];
      }
      forall p | p in ps ensures p.d.portName !in w.ports {
        assert p == ps[0] || p in rest;
      }
    }
  }

  /** Installing takes three calls for each plan, and succeeds exactly when none of them fails, there is a vhost-user
      configuration, and the wanted port names are free and different. */
  lemma {:induction false} InstallSucceedsExactly(f: Faults, w: World, ps: seq<Plan>)
    ensures var o := InstallAll(f, w, ps);
            && (o.ok <==> ps == [] || (&& w.config.vhostRoot.Some? && NamesFree(w, ps)
                                       && NoneFails(f, w.calls, w.calls + 3 * |ps|)))
            && (o.ok ==> o.w.calls == w.calls + 3 * |ps|)
    decreases ps
  {
    if ps != [] {
      var first := Install(f, w, ps[0]);
      OneInstallExactly(f, w, ps[0]);
      InstallEffect(f, w, ps[0]);
      if first.ok {
        InstallSucceedsExactly(f, first.w, ps[1..]);
        NamesFreeCons(w, first.w, ps);
        NoneFailsSplit(f, w.calls, w.calls + 3, w.calls + 3 * |ps|);
      } else {
        assert ps[0] in ps;
        NoneFailsSplit(f, w.calls, w.calls + 3, w.calls + 3 * |ps|);
      }
    }
  }

  lemma OneInstallExactly(f: Faults, w: World, p: Plan)
    ensures var o := Install(f, w, p);
            && (o.ok <==> w.config.vhostRoot.Some? && p.d.portName !in w.ports && NoneFails(f, w.calls, w.calls + 3))
            && (o.ok ==> o.w.calls == w.calls + 3)
  {
    assert NoneFails(f, w.calls, w.calls + 3)
      <==> !FailsAt(f, w.calls) && !FailsAt(f, w.calls + 1) && !FailsAt(f, w.calls + 2);
  }

  lemma NoneFailsSplit(f: Faults, a: nat, b: nat, c: nat)
    requires a <= b <= c
    ensures NoneFails(f, a, c) <==> NoneFails(f, a, b) && NoneFails(f, b, c)
  {
  }

  /** What a prepare needs apart from its calls: an allocation with a result of ours, one consumer, configurations that
      parse, a vhost-user configuration, and port names that are free and different. */
  ghost predicate CanGoAhead(w: World, claim: Claim) {
    && claim.allocation.Some? && |claim.reservedFor| == 1 && Parse(claim.allocation.value.configs).Some?
    && (exists r :: r in claim.allocation.value.results && r.driver == DRIVER_NAME)
    && w.config.vhostRoot.Some? && NamesFree(w, ClaimPlans(w.config, claim))
  }

  /** Under any failure pattern, a prepare succeeds exactly when it can go ahead and none of its calls fails: three
      for each device and one for the CDI spec. */
  lemma PrepareSucceedsExactly(f: Faults, w: World, claim: Claim)
    ensures var o, n := PrepareClaim(f, w, claim), |ClaimPlans(w.config, claim)|;
            && (o.devices.Some? <==> CanGoAhead(w, claim) && NoneFails(f, w.calls, w.calls + 3 * n + 1))
            && (o.devices.Some? ==> o.w.calls == w.calls + 3 * n + 1)
  {
    var ps := ClaimPlans(w.config, claim);
    InstallSucceedsExactly(f, w, ps);
    PrepareEnds(f, w, claim);
    OneMoreCall(f, w.calls, w.calls + 3 * |ps|);
    if Preparable(claim) {
      HasPlans(w.config, claim);
    }
  }

  /** A prepare succeeds when its plans are installed and the CDI spec is written. */
  lemma PrepareEnds(f: Faults, w: World, claim: Claim)
    ensures var p, ps := PrepareClaim(f, w, claim), ClaimPlans(w.config, claim);
            var o := InstallAll(f, w, ps);
            && (p.devices.Some? <==> Preparable(claim) && ps != [] && o.ok && !FailsAt(f, o.w.calls))
            && (p.devices.Some? ==> p.w.calls == o.w.calls + 1)
  {
  }

  lemma OneMoreCall(f: Faults, first: nat, end: nat)
    requires first <= end
    ensures NoneFails(f, first, end + 1) <==> NoneFails(f, first, end) && !FailsAt(f, end)
  {
  }

  lemma HasPlans(config: NodeConfig, claim: Claim)
    requires Preparable(claim)
    ensures ClaimPlans(config, claim) != []
       <==> exists r :: r in claim.allocation.value.results && r.driver == DRIVER_NAME
  {
    var configs, results := Parse(claim.allocation.value.configs).value, claim.allocation.value.results;
    var ps := ClaimPlans(config, claim);
    if ps != [] {
      PlanSource(config, claim, configs, results, ps[0]);
    }
    if r :| r in results && r.driver == DRIVER_NAME {
      PlanSource(config, claim, configs, results, PlanFor(config, claim, r, GetConfig(configs, r.request)));
    }
  }

  /** How the handler answers for a claim that is not stored, by the calls that fail: the read is the first, then those
      of the prepare, and the write to the claim store is the last. */
  lemma PrepareAnswersExactly(f: Faults, w: World, claim: Claim)
    requires claim.uid !in w.store
    ensures var answer, n := PrepareOne(f, w, claim).answer, |ClaimPlans(w.config, claim)|;
            && (answer.StoreReadError? <==> FailsAt(f, w.calls))
            && (answer.PrepareAnswered? <==> CanGoAhead(w, claim) && NoneFails(f, w.calls, w.calls + 3 * n + 3))
  {
    var n := |ClaimPlans(w.config, claim)|;
    PrepareSucceedsExactly(f, Tick(w), claim);
    GoAheadLater(w, Tick(w), claim);
    PrepareOneTries(f, w, claim);
    SaveAnswersExactly(f, claim, PrepareClaim(f, Tick(w), claim));
    NoneFailsSplit(f, w.calls, w.calls + 1, w.calls + 3 * n + 3);
    OneMoreCall(f, w.calls, w.calls);
    OneMoreCall(f, w.calls + 1, w.calls + 3 * n + 2);
  }

  lemma PrepareOneTries(f: Faults, w: World, claim: Claim)
    requires claim.uid !in w.store
    ensures FailsAt(f, w.calls) ==> PrepareOne(f, w, claim).answer.StoreReadError?
    ensures !FailsAt(f, w.calls) ==> PrepareOne(f, w, claim) == SavePrepared(f, claim, PrepareClaim(f, Tick(w), claim))
  {
  }

  lemma SaveAnswersExactly(f: Faults, claim: Claim, p: Prepared)
    ensures var answer := SavePrepared(f, claim, p).answer;
            && !answer.StoreReadError?
            && (answer.PrepareAnswered? <==> p.devices.Some? && !FailsAt(f, p.w.calls))
  {
  }

  lemma GoAheadLater(w: World, w': World, claim: Claim)
    requires w'.config == w.config && w'.ports == w.ports
    ensures CanGoAhead(w, claim) <==> CanGoAhead(w', claim)
  {
  }

  lemma CalmNoneFails(f: Faults, w: World, end: nat)
    requires Calm(f, w)
    ensures NoneFails(f, w.calls, end)
  {
  }

  /** Within one claim, port names, socket directories and mount points are each different exactly when the requests
      are. */
  lemma DistinctRequests(config: NodeConfig, claim: Claim, p: Plan, q: Plan)
    requires p in ClaimPlans(config, claim) && q in ClaimPlans(config, claim)
    ensures p.d.portName == q.d.portName <==> p.d.device.request == q.d.device.request
    ensures p.d.hostDir == q.d.hostDir <==> p.d.device.request == q.d.device.request
    ensures p.d.containerDir == q.d.containerDir <==> p.d.device.request == q.d.device.request
  {
    PlanNames(config, claim, p);
    PlanNames(config, claim, q);
    OneClaimNames(claim.uid, claim.reservedFor[0].uid, PodClaimName(claim), ContainerRoot(config), p.d.device.request,
                  q.d.device.request);
  }

  lemma PlanNames(config: NodeConfig, claim: Claim, p: Plan)
    requires p in ClaimPlans(config, claim)
    ensures |claim.reservedFor| == 1 && DeviceOf(claim, p.d)
    ensures p.d.containerDir == ContainerDir(ContainerRoot(config), PodClaimName(claim), p.d.device.request)
  {
    PlanSource(config, claim, Parse(claim.allocation.value.configs).value, claim.allocation.value.results, p);
    PlansBridge(config, claim);
  }

  // ---------------------------------------------------------------------------
  // Prepare, then unprepare
  // ---------------------------------------------------------------------------

  lemma SameStores(w: World, w': World)
    requires forall r :: Exists(w, r) <==> Exists(w', r)
    requires forall n :: n in w.ports && n in w'.ports ==> w.ports[n] == w'.ports[n]
    requires forall u :: u in w.specs && u in w'.specs ==> w.specs[u] == w'.specs[u]
    ensures w.ports == w'.ports && w.dirs == w'.dirs && w.specs == w'.specs
  {
    forall n ensures n in w.ports <==> n in w'.ports {
      assert n in w.ports ==> Exists(w, PortRes(w.ports[n].bridge, n));
      assert n in w'.ports ==> Exists(w', PortRes(w'.ports[n].bridge, n));
    }
    forall x ensures x in w.dirs <==> x in w'.dirs {
      assert Exists(w, DirRes(x)) <==> Exists(w', DirRes(x));
    }
    forall u ensures u in w.specs <==> u in w'.specs {
      assert Exists(w, SpecRes(u)) <==> Exists(w', SpecRes(u));
    }
  }

  /** Adding fresh resources and cleaning exactly those up again restores the stores. */
  lemma AddThenClean(w: World, p: World, x: World, c: World, uid: Uid, ds: seq<PreparedDevice>)
    requires Added(w, p, uid, ds) && forall r :: r in AllResources(ds) ==> !Exists(w, r)
    requires x.ports == p.ports && x.dirs == p.dirs && x.specs == p.specs
    requires Cleaned(x, c, AllResources(ds)) && c.leaked !! AllResources(ds)
    ensures c.ports == w.ports && c.dirs == w.dirs && c.specs == w.specs
  {
    forall r ensures Exists(w, r) <==> Exists(c, r) {
      assert Exists(x, r) <==> Exists(p, r);
    }
    forall n | n in w.ports && n in c.ports ensures w.ports[n] == c.ports[n] {
      assert x.ports[n] == w.ports[n];
    }
    forall u | u in w.specs && u in c.specs ensures w.specs[u] == c.specs[u] {
      assert Exists(w, SpecRes(u));
      assert SpecRes(u) !in AllResources(ds) && u != uid by {
        assert ds[0] in ds && SpecRes(uid) in ResourcesOf(ds[0]);
      }
    }
    SameStores(w, c);
  }

  /** A newly prepared claim adds its resources, is stored, and leaves the rest alone. */
  lemma PrepareHalf(f: Faults, w: World, claim: Claim)
    requires Calm(f, w) && claim.uid !in w.store
    requires PrepareOne(f, w, claim).answer.PrepareAnswered?
    ensures var mid, ds := PrepareOne(f, w, claim).w, PrepareOne(f, w, claim).answer.devices;
            && Calm(f, mid) && mid.store == w.store[claim.uid := ds]
            && Added(w, mid.(store := w.store, origin := w.origin), claim.uid, ds)
            && AllResources(ds) == ClaimResources(w.config, claim)
  {
    var p := PrepareClaim(f, Tick(w), claim);
    PreparedResources(f, Tick(w), claim);
    CalmPrepare(f, Tick(w), claim);
    var m := SuccessfulPrepareInstalls(f, Tick(w), claim);
    SavedHalf(f, w, claim, p);
  }

  lemma SavedHalf(f: Faults, w: World, claim: Claim, p: Prepared)
    requires p.devices.Some? && Calm(f, p.w) && Added(Tick(w), p.w, claim.uid, p.devices.value)
    ensures var o := SavePrepared(f, claim, p);
            && o.answer == PrepareAnswered(p.devices.value)
            && Calm(f, o.w) && o.w.store == w.store[claim.uid := p.devices.value]
            && Added(w, o.w.(store := w.store, origin := w.origin), claim.uid, p.devices.value)
  {
    AddedFromTick(w, p.w, SavePrepared(f, claim, p).w, claim.uid, p.devices.value);
  }

  lemma UnprepareHalf(f: Faults, w: World, mid: World, uid: Uid, ds: seq<PreparedDevice>)
    requires Calm(f, mid) && uid !in w.store && mid.store == w.store[uid := ds]
    requires Added(w, mid.(store := w.store, origin := w.origin), uid, ds)
    requires forall r :: r in AllResources(ds) ==> !Exists(w, r)
    ensures var end := UnprepareOne(f, mid, uid);
            && end.answer == Unprepared
            && end.w.ports == w.ports && end.w.dirs == w.dirs && end.w.specs == w.specs && end.w.store == w.store
  {
    var c := CalmUnprepare(f, mid, uid);
    AddThenClean(w, mid.(store := w.store, origin := w.origin), mid, c, uid, ds);
    assert mid.store - {uid} == w.store;
  }

  /** With no failing call an unprepare cleans everything up, `c` being the world after the cleanup. */
  lemma CalmUnprepare(f: Faults, w: World, uid: Uid) returns (c: World)
    requires Calm(f, w) && uid in w.store && w.store[uid] != []
    ensures Cleaned(w, c, AllResources(w.store[uid])) && c.leaked !! AllResources(w.store[uid])
    ensures var o := UnprepareOne(f, w, uid);
            && o.answer == Unprepared
            && o.w.ports == c.ports && o.w.dirs == c.dirs && o.w.specs == c.specs && o.w.store == w.store - {uid}
  {
    var ds := w.store[uid];
    CalmCleanup(f, Tick(w), ds);
    c := UnprepareAll(f, Tick(w), ds).w;
    UnprepareAllCleans(f, Tick(w), ds);
    CleanedFromTick(w, c, AllResources(ds));
  }

  /** Round trip with frame: for a claim none of whose resources exists yet, a prepare that stores it keeps every other
      resource as it was, and the unprepare after it restores all four stores exactly. */
  lemma PrepareThenUnprepare(f: Faults, w: World, claim: Claim)
    requires Calm(f, w) && claim.uid !in w.store
    requires forall r :: r in ClaimResources(w.config, claim) ==> !Exists(w, r)
    requires PrepareOne(f, w, claim).answer.PrepareAnswered?
    ensures var mid, ds := PrepareOne(f, w, claim).w, PrepareOne(f, w, claim).answer.devices;
            && mid.store == w.store[claim.uid := ds]
            && Added(w, mid.(store := w.store, origin := w.origin), claim.uid, ds)
            && var end := UnprepareOne(f, mid, claim.uid);
               && end.answer == Unprepared
               && end.w.ports == w.ports && end.w.dirs == w.dirs && end.w.specs == w.specs && end.w.store == w.store
  {
    PrepareHalf(f, w, claim);
    UnprepareHalf(f, w, PrepareOne(f, w, claim).w, claim.uid, PrepareOne(f, w, claim).answer.devices);
  }

  lemma AddedFromTick(w: World, p: World, mid: World, uid: Uid, ds: seq<PreparedDevice>)
    requires Added(Tick(w), p, uid, ds)
    requires mid == p.(store := mid.store, origin := mid.origin, calls := mid.calls)
    ensures Added(w, mid.(store := w.store, origin := w.origin), uid, ds)
  {
    var m := mid.(store := w.store, origin := w.origin);
    forall r ensures Exists(m, r) <==> Exists(w, r) || r in AllResources(ds) {
      assert (Exists(m, r) <==> Exists(p, r)) && (Exists(Tick(w), r) <==> Exists(w, r));
    }
  }

  lemma CalmPrepare(f: Faults, w: World, claim: Claim)
    requires Calm(f, w) && PrepareClaim(f, w, claim).devices.Some?
    ensures Calm(f, PrepareClaim(f, w, claim).w)
  {
    PrepareSucceedsExactly(f, w, claim);
  }
}
