/** Nothing the driver creates is ever lost track of, and nothing it did not create is ever taken away from OVS. */
module NoLeaks {
  import opened Kube
  import opened Stores
  import opened Lifecycle
  import opened Handlers

  /** Accounting against a base world that holds what is not the driver's:
      every resource is foreign, stored, or recorded as a failed cleanup; foreign ports are untouched. */
  ghost predicate Accounted(base: World, w: World) {
    && (forall r :: Exists(w, r) ==> Exists(base, r) || r in w.leaked || r in StoreResources(w.store))
    && (forall n :: n in base.ports ==> n in w.ports && w.ports[n] == base.ports[n])
    && (forall u, d :: u in w.store && d in w.store[u] ==> d.portName !in base.ports)
    && (forall u :: u in w.store ==> w.store[u] != [])
  }

  lemma RollbackAccounted(base: World, w: World, w': World, R: set<Resource>)
    requires Accounted(base, w) && RolledBack(w, w', R)
    ensures Accounted(base, w')
  {
    forall r | Exists(w', r) ensures Exists(base, r) || r in w'.leaked || r in StoreResources(w'.store) {
      if !Exists(w, r) {
        assert r in R;
      }
    }
  }

  /** Cleaning the resources D of devices whose port names are not foreign; entry `uid` may go with them. */
  lemma CleanupAccounted(base: World, w: World, w': World, ds: seq<PreparedDevice>)
    requires forall n :: n in base.ports ==> n in w.ports && w.ports[n] == base.ports[n]
    requires forall d :: d in ds ==> d.portName !in base.ports
    requires Cleaned(w, w', AllResources(ds))
    requires forall r :: Exists(w, r) && r !in AllResources(ds) ==>
               Exists(base, r) || r in w.leaked || r in StoreResources(w.store)
    ensures forall r :: Exists(w', r) ==>
              Exists(base, r) || r in w'.leaked || (r in StoreResources(w'.store) && r !in AllResources(ds))
    ensures forall n :: n in base.ports ==> n in w'.ports && w'.ports[n] == base.ports[n]
  {
    forall n | n in base.ports ensures n in w'.ports && w'.ports[n] == base.ports[n] {
      var r := PortRes(w.ports[n].bridge, n);
      assert Exists(w, r);
      assert r !in AllResources(ds);
      assert Exists(w', r);
    }
  }

  lemma PrepareOneAccounted(f: Faults, base: World, w: World, claim: Claim)
    requires Accounted(base, w)
    ensures Accounted(base, PrepareOne(f, w, claim).w)
  {
    var w1 := Tick(w);
    SameResources(base, w, w1);
    var p := PrepareClaim(f, w1, claim);
    if StoreGet(f, w, claim.uid).devices == Some([]) {
      if p.devices.None? {
        FailedPrepareRollsBack(f, w1, claim);
        RollbackAccounted(base, w1, p.w, ClaimResources(w1.config, claim));
      } else {
        var ds := p.devices.value;
        PreparedResources(f, w1, claim);
        var saved := StoreSet(f, p.w, claim, ds);
        if saved.ok {
          StoredAccounted(base, w1, p.w, saved.w, claim.uid, ds);
        } else {
          UnprepareAllCleans(f, saved.w, ds);
          UnsavedAccounted(base, w1, p.w, saved.w, UnprepareAll(f, saved.w, ds).w, claim.uid, ds);
        }
      }
    }
  }

  lemma SameResources(base: World, w: World, w': World)
    requires Accounted(base, w)
    requires w'.ports == w.ports && w'.dirs == w.dirs && w'.specs == w.specs
    requires w'.store == w.store && w'.leaked == w.leaked
    ensures Accounted(base, w')
  {
    assert forall r :: Exists(w', r) <==> Exists(w, r);
  }

  lemma StoredAccounted(base: World, w: World, p: World, w': World, uid: Uid, ds: seq<PreparedDevice>)
    requires Accounted(base, w) && uid !in w.store && Added(w, p, uid, ds)
    requires w' == p.(store := p.store[uid := ds], origin := w'.origin, calls := w'.calls)
    ensures Accounted(base, w')
  {
    forall r | Exists(w', r) ensures Exists(base, r) || r in w'.leaked || r in StoreResources(w'.store) {
      assert Exists(p, r);
      if r in AllResources(ds) {
        assert uid in w'.store && w'.store[uid] == ds;
      } else if r in StoreResources(w.store) {
        var u :| u in w.store && r in AllResources(w.store[u]);
        assert u in w'.store && w'.store[u] == w.store[u];
      }
    }
  }

  lemma UnsavedAccounted(base: World, w: World, p: World, x: World, w': World, uid: Uid, ds: seq<PreparedDevice>)
    requires Accounted(base, w) && Added(w, p, uid, ds)
    requires x == Tick(p) && Cleaned(x, w', AllResources(ds))
    ensures Accounted(base, w')
  {
    assert forall r :: Exists(x, r) <==> Exists(p, r);
    CleanupAccounted(base, x, w', ds);
  }

  lemma UnprepareOneAccounted(f: Faults, base: World, w: World, uid: Uid)
    requires Accounted(base, w)
    ensures Accounted(base, UnprepareOne(f, w, uid).w)
  {
    var u := UnprepareOneEffect(f, w, uid);
    var o := UnprepareOne(f, w, uid);
    if o.answer == UnprepareReadError || o.answer == NothingStored {
      SameResources(base, w, o.w);
    } else {
      CleanupAccounted(base, w, u, w.store[uid]);
      if o.answer == Unprepared {
        EntryRemovedAccounted(base, u, o.w, uid);
      } else {
        SameResources(base, u, o.w);
      }
    }
  }

  lemma EntryRemovedAccounted(base: World, w: World, w': World, uid: Uid)
    requires uid in w.store
    requires Accounted(base, w)
    requires forall r :: Exists(w, r) ==>
              Exists(base, r) || r in w.leaked || (r in StoreResources(w.store) && r !in AllResources(w.store[uid]))
    requires w' == w.(store := w.store - {uid}, origin := w'.origin, broken := w'.broken, calls := w'.calls)
    ensures Accounted(base, w')
  {
    forall r | Exists(w', r) ensures Exists(base, r) || r in w'.leaked || r in StoreResources(w'.store) {
      assert Exists(w, r);
      if r in StoreResources(w.store) && r !in AllResources(w.store[uid]) {
        var v :| v in w.store && r in AllResources(w.store[v]);
        assert v in w'.store && w'.store[v] == w.store[v];
      }
    }
  }

  lemma {:induction false} PrepareBatchAccounted(f: Faults, base: World, w: World, claims: seq<Claim>,
                                                 results: map<Uid, PrepareResult>, notices: seq<Claim>)
    requires Accounted(base, w)
    ensures Accounted(base, PrepareBatch(f, w, claims, results, notices).w)
    decreases claims
  {
    if claims != [] {
      PrepareOneAccounted(f, base, w, claims[0]);
      var o := PrepareOne(f, w, claims[0]);
      if !o.answer.PrepareAnswered? {
        BatchHalts(f, w, claims, results, notices);
      } else {
        BatchStep(f, w, claims, results, notices, o);
        PrepareBatchAccounted(f, base, o.w, claims[1..], results[claims[0].uid := Report(o.answer.devices)],
                              notices + NoticeList(o));
      }
    }
  }

  lemma {:induction false} UnprepareBatchAccounted(f: Faults, base: World, w: World, uids: seq<Uid>,
                                                   results: map<Uid, bool>)
    requires Accounted(base, w)
    ensures Accounted(base, UnprepareBatch(f, w, uids, results).w)
    decreases uids
  {
    if uids != [] {
      UnprepareOneAccounted(f, base, w, uids[0]);
      var o := UnprepareOne(f, w, uids[0]);
      UnprepareBatchStep(f, w, uids, results, o);
      if Continues(o.answer) {
        UnprepareBatchAccounted(f, base, o.w, uids[1..], results[uids[0] := o.answer != CleanupFailed]);
      }
    }
  }

  /** No leaks over whole runs, for every failure pattern: what exists beyond the base is stored or on record as a
      failed cleanup, and every foreign port is still there unchanged. */
  lemma {:induction false} NoLeaksInAnyRun(f: Faults, base: World, w: World, ops: seq<Op>)
    requires Accounted(base, w)
    ensures Accounted(base, Run(f, w, ops))
    decreases ops
  {
    if ops != [] {
      match ops[0] {
        case PrepareOp(claims) => PrepareBatchAccounted(f, base, w, claims, map[], []);
        case UnprepareOp(uids) => UnprepareBatchAccounted(f, base, w, uids, map[]);
        case ConfigureOp(config) =>
          assert forall r :: Exists(w.(config := config), r) <==> Exists(w, r);
      }
      NoLeaksInAnyRun(f, base, Apply(f, w, ops[0]), ops[1..]);
    }
  }

  /** A node that starts with an empty claim store accounts for itself. */
  lemma FreshNodeAccounted(w: World)
    requires w.store == map[]
    ensures Accounted(w, w)
  {
  }
}
