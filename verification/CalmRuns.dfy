/** Runs in which no call fails: nothing is left on record, and the stores hold exactly what the stored claims need. */
module CalmRuns {
  import opened Kube
  import opened Stores
  import opened Lifecycle
  import opened Handlers
  import opened Batches
  import opened Retries
  import opened NoLeaks
  import opened Backing

  /** From w to w' nothing was added to the record or to the broken claims, and still no call fails. */
  ghost predicate StaysCalm(f: Faults, w: World, w': World) {
    Calm(f, w') && w'.leaked <= w.leaked && w'.broken <= w.broken
  }

  lemma CalmCleanupStays(f: Faults, w: World, ds: seq<PreparedDevice>)
    requires Calm(f, w)
    ensures StaysCalm(f, w, UnprepareAll(f, w, ds).w)
  {
    CalmCleanup(f, w, ds);
    UnprepareAllFrame(f, w, ds);
  }

  lemma {:induction false} CalmInstallStays(f: Faults, w: World, ps: seq<Plan>)
    requires Calm(f, w)
    ensures StaysCalm(f, w, InstallAll(f, w, ps).w)
    decreases ps
  {
    if ps != [] {
      CalmInstallOne(f, w, ps[0]);
      if Install(f, w, ps[0]).ok {
        CalmInstallStays(f, Install(f, w, ps[0]).w, ps[1..]);
      }
    }
  }

  lemma CalmInstallOne(f: Faults, w: World, p: Plan)
    requires Calm(f, w)
    ensures StaysCalm(f, w, Install(f, w, p).w)
  {
  }

  lemma CalmPrepareClaim(f: Faults, w: World, claim: Claim)
    requires Calm(f, w)
    ensures StaysCalm(f, w, PrepareClaim(f, w, claim).w)
  {
    if Preparable(claim) {
      var ps := ClaimPlans(w.config, claim);
      var o := InstallAll(f, w, ps);
      CalmInstallStays(f, w, ps);
      if !o.ok {
        CalmCleanupStays(f, o.w, Devices(ps[..o.count]));
      }
    }
  }

  lemma CalmPrepareOne(f: Faults, w: World, claim: Claim)
    requires Calm(f, w)
    ensures StaysCalm(f, w, PrepareOne(f, w, claim).w)
  {
    CalmPrepareClaim(f, Tick(w), claim);
  }

  lemma CalmUnprepareOne(f: Faults, w: World, uid: Uid)
    requires Calm(f, w)
    ensures StaysCalm(f, w, UnprepareOne(f, w, uid).w)
  {
    if uid in w.store && w.store[uid] != [] {
      CleanAttemptReleases(f, w, uid);
      var u := UnprepareOneEffect(f, w, uid);
      CalmCleanupStays(f, Tick(w), w.store[uid]);
    }
  }

  lemma {:induction false} CalmPrepareBatch(f: Faults, w: World, claims: seq<Claim>,
                                            results: map<Uid, PrepareResult>, notices: seq<Claim>)
    requires Calm(f, w)
    ensures StaysCalm(f, w, PrepareBatch(f, w, claims, results, notices).w)
    decreases claims
  {
    if claims != [] {
      var o := PrepareOne(f, w, claims[0]);
      CalmPrepareOne(f, w, claims[0]);
      if o.answer.PrepareAnswered? {
        BatchStep(f, w, claims, results, notices, o);
        CalmPrepareBatch(f, o.w, claims[1..], results[claims[0].uid := Report(o.answer.devices)],
                         notices + NoticeList(o));
      } else {
        BatchHalts(f, w, claims, results, notices);
      }
    }
  }

  lemma {:induction false} CalmUnprepareBatch(f: Faults, w: World, uids: seq<Uid>, results: map<Uid, bool>)
    requires Calm(f, w)
    ensures StaysCalm(f, w, UnprepareBatch(f, w, uids, results).w)
    decreases uids
  {
    if uids != [] {
      var o := UnprepareOne(f, w, uids[0]);
      CalmUnprepareOne(f, w, uids[0]);
      UnprepareBatchStep(f, w, uids, results, o);
      if Continues(o.answer) {
        CalmUnprepareBatch(f, o.w, uids[1..], results[uids[0] := o.answer != CleanupFailed]);
      }
    }
  }

  /** Without failing calls nothing is ever put on record, and no claim is ever broken. */
  lemma {:induction false} CalmRunStays(f: Faults, w: World, ops: seq<Op>)
    requires Calm(f, w)
    ensures StaysCalm(f, w, Run(f, w, ops))
    decreases ops
  {
    if ops != [] {
      match ops[0] {
        case PrepareOp(claims) => CalmPrepareBatch(f, w, claims, map[], []);
        case UnprepareOp(uids) => CalmUnprepareBatch(f, w, uids, map[]);
        case ConfigureOp(config) =>
      }
      CalmRunStays(f, Apply(f, w, ops[0]), ops[1..]);
    }
  }

  /** In every run of fresh claims without failing calls, refused prepares included, what exists beyond the start is
      exactly what the stored claims need. */
  lemma CalmRunExact(f: Faults, start: World, ops: seq<Op>, r: Resource)
    requires Calm(f, start) && RunFresh(f, start, ops)
    requires start.store == map[] && start.leaked == {} && start.broken == {}
    ensures var w := Run(f, start, ops);
            && (Exists(w, r) && !Exists(start, r) ==> r in StoreResources(w.store))
            && (r in StoreResources(w.store) ==> Exists(w, r))
  {
    CalmRunStays(f, start, ops);
    ReachableStates(f, start, ops);
    ExactAccounts(start, Run(f, start, ops), r);
  }
}
