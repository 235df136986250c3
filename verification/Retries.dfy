/** Unprepare can always be retried. */
module Retries {
  import opened Kube
  import opened Stores
  import opened Lifecycle
  import opened Handlers
  import opened Batches

  ghost predicate Stored(w: World, u: Uid, ds: seq<PreparedDevice>) {
    u in w.store && w.store[u] == ds
  }

  /** The entry is gone together with every port and directory of its devices. */
  ghost predicate Released(w: World, u: Uid, ds: seq<PreparedDevice>) {
    u !in w.store && Gone(w, ds)
  }

  lemma UnprepareOneRetry(f: Faults, w: World, uid: Uid, u: Uid, ds: seq<PreparedDevice>)
    ensures var o := UnprepareOne(f, w, uid);
            && (Released(w, u, ds) ==> Released(o.w, u, ds))
            && (Stored(w, u, ds) && ds != [] ==>
                  if uid == u && o.answer == Unprepared then Released(o.w, u, ds) else Stored(o.w, u, ds))
            && (Stored(w, u, ds) && ds != [] && uid == u ==> o.answer != NothingStored)
            && (Released(w, u, ds) && uid == u ==> o.answer == NothingStored || o.answer == UnprepareReadError)
  {
    var c := UnprepareOneEffect(f, w, uid);
    var o := UnprepareOne(f, w, uid);
    assert forall r :: Exists(o.w, r) ==> Exists(w, r) by {
      if o.answer == CleanupFailed || o.answer == EntryDeleteError || o.answer == Unprepared {
        assert forall r :: Exists(o.w, r) <==> Exists(c, r);
      } else {
        assert forall r :: Exists(o.w, r) <==> Exists(w, r);
      }
    }
    if o.answer == Unprepared && uid == u && Stored(w, u, ds) {
      forall d | d in ds ensures !Exists(o.w, PortOf(d)) && !Exists(o.w, DirOf(d)) {
        assert !Exists(c, PortOf(d)) && !Exists(c, DirOf(d));
      }
    }
  }

  /** One batch: the entry is intact, or gone with all its ports and directories; a nil result means gone. */
  lemma {:induction false} UnprepareBatchRetry(f: Faults, w: World, uids: seq<Uid>, results: map<Uid, bool>,
                                               u: Uid, ds: seq<PreparedDevice>)
    requires ds != [] && (Stored(w, u, ds) || Released(w, u, ds))
    requires Stored(w, u, ds) && u in results ==> !results[u]
    ensures var o := UnprepareBatch(f, w, uids, results);
            && (Stored(o.w, u, ds) || Released(o.w, u, ds))
            && (Released(w, u, ds) ==> Released(o.w, u, ds))
            && (o.results.Some? && u in o.results.value && o.results.value[u] && Stored(w, u, ds) ==>
                  Released(o.w, u, ds))
    decreases uids
  {
    if uids != [] {
      UnprepareOneRetry(f, w, uids[0], u, ds);
      var o := UnprepareOne(f, w, uids[0]);
      UnprepareBatchStep(f, w, uids, results, o);
      if Continues(o.answer) {
        UnprepareBatchRetry(f, o.w, uids[1..], results[uids[0] := o.answer != CleanupFailed], u, ds);
      }
    }
  }

  lemma {:induction false} PrepareBatchKeepsEntry(f: Faults, w: World, claims: seq<Claim>,
                                                  results: map<Uid, PrepareResult>, notices: seq<Claim>,
                                                  u: Uid, ds: seq<PreparedDevice>)
    requires ds != [] && Stored(w, u, ds)
    ensures Stored(PrepareBatch(f, w, claims, results, notices).w, u, ds)
    decreases claims
  {
    if claims != [] {
      PrepareOneStore(f, w, claims[0]);
      var o := PrepareOne(f, w, claims[0]);
      if o.answer.PrepareAnswered? {
        BatchStep(f, w, claims, results, notices, o);
        PrepareBatchKeepsEntry(f, o.w, claims[1..], results[claims[0].uid := Report(o.answer.devices)],
                               notices + NoticeList(o), u, ds);
      }
    }
  }

  /** One operation keeps an entry unchanged, or is an unprepare that releases it completely. */
  lemma EntryStep(f: Faults, w: World, op: Op, u: Uid, ds: seq<PreparedDevice>)
    requires ds != [] && Stored(w, u, ds)
    ensures var w' := Apply(f, w, op); Stored(w', u, ds) || (op.UnprepareOp? && Released(w', u, ds))
  {
    match op {
      case PrepareOp(claims) => PrepareBatchKeepsEntry(f, w, claims, map[], [], u, ds);
      case UnprepareOp(uids) => UnprepareBatchRetry(f, w, uids, map[], u, ds);
      case ConfigureOp(config) =>
    }
  }

  /** Over any run an entry survives unchanged until an unprepare releases it completely: k is that point. */
  lemma EntrySurvivesUntilReleased(f: Faults, w: World, ops: seq<Op>, u: Uid, ds: seq<PreparedDevice>) returns (k: nat)
    requires ds != [] && Stored(w, u, ds)
    ensures k <= |ops|
    ensures forall i :: 0 <= i < k ==> Stored(Run(f, w, ops[..i]), u, ds)
    ensures Stored(Run(f, w, ops[..k]), u, ds) ==> k == |ops|
    ensures !Stored(Run(f, w, ops[..k]), u, ds) ==>
              Released(Run(f, w, ops[..k]), u, ds) && k > 0 && ops[k - 1].UnprepareOp?
  {
    k := 0;
    while k < |ops| && Stored(Run(f, w, ops[..k]), u, ds)
      invariant k <= |ops|
      invariant forall i :: 0 <= i < k ==> Stored(Run(f, w, ops[..i]), u, ds)
      invariant Stored(Run(f, w, ops[..k]), u, ds)
          || (Released(Run(f, w, ops[..k]), u, ds) && k > 0 && ops[k - 1].UnprepareOp?)
    {
      RunSnoc(f, w, ops, k);
      EntryStep(f, Run(f, w, ops[..k]), ops[k], u, ds);
      k := k + 1;
    }
  }

  lemma {:induction false} RunSnoc(f: Faults, w: World, ops: seq<Op>, k: nat)
    requires k < |ops|
    ensures Run(f, w, ops[..k + 1]) == Apply(f, Run(f, w, ops[..k]), ops[k])
    decreases k
  {
    if k == 0 {
      assert ops[..1][1..] == [];
    } else {
      RunSnoc(f, Apply(f, w, ops[0]), ops[1..], k - 1);
      assert ops[..k + 1][1..] == ops[1..][..k] && ops[..k][1..] == ops[1..][..k - 1];
    }
  }

  // ---------------------------------------------------------------------------
  // Calls that all succeed
  // ---------------------------------------------------------------------------

  /** No call from here on fails. */
  ghost predicate Calm(f: Faults, w: World) {
    forall i :: w.calls <= i < |f| ==> !f[i]
  }

  lemma CalmDevice(f: Faults, w: World, d: PreparedDevice)
    requires Calm(f, w)
    ensures var o := UnprepareDevice(f, w, d);
            o.ok && Calm(f, o.w) && o.w.leaked == w.leaked - ResourcesOf(d) && o.w.calls == w.calls + 3
  {
  }

  lemma {:induction false} CalmCleanup(f: Faults, w: World, ds: seq<PreparedDevice>)
    requires Calm(f, w)
    ensures var o := UnprepareAll(f, w, ds);
            o.ok && Calm(f, o.w) && o.w.leaked == w.leaked - AllResources(ds) && o.w.calls == w.calls + 3 * |ds|
    decreases ds
  {
    if ds != [] {
      CalmDevice(f, w, ds[0]);
      CalmCleanup(f, UnprepareDevice(f, w, ds[0]).w, ds[1..]);
      assert AllResources(ds) == ResourcesOf(ds[0]) + AllResources(ds[1..]);
    }
  }

  // ---------------------------------------------------------------------------
  // Success, call by call
  // ---------------------------------------------------------------------------

  /** The port deletion and the directory removal for the i-th device of a cleanup succeed; each device takes three
      calls, the first being the removal of the CDI spec. */
  ghost predicate DeviceReleased(f: Faults, first: nat, i: nat) {
    !FailsAt(f, first + 3 * i + 1) && !FailsAt(f, first + 3 * i + 2)
  }

  ghost predicate AllReleased(f: Faults, first: nat, count: nat) {
    forall i: nat :: i < count ==> DeviceReleased(f, first, i)
  }

  /** A cleanup succeeds exactly when none of its port deletions and directory removals fails, whatever its spec
      removals do and whatever is already gone. */
  lemma {:induction false} CleanupSucceedsExactly(f: Faults, w: World, ds: seq<PreparedDevice>)
    ensures UnprepareAll(f, w, ds).ok <==> AllReleased(f, w.calls, |ds|)
    ensures UnprepareAll(f, w, ds).w.calls == w.calls + 3 * |ds|
    decreases ds
  {
    if ds != [] {
      var first := UnprepareDevice(f, w, ds[0]);
      assert first.w.calls == w.calls + 3;
      assert first.ok <==> DeviceReleased(f, w.calls, 0);
      CleanupSucceedsExactly(f, first.w, ds[1..]);
      ReleasedCons(f, w.calls, |ds| - 1);
    }
  }

  lemma ReleasedCons(f: Faults, first: nat, count: nat)
    ensures AllReleased(f, first, count + 1) <==> DeviceReleased(f, first, 0) && AllReleased(f, first + 3, count)
  {
    var next := first + 3;
    if AllReleased(f, first, count + 1) {
      forall i: nat | i < count ensures DeviceReleased(f, next, i) {
        assert DeviceReleased(f, first, i + 1);
      }
    }
    if DeviceReleased(f, first, 0) && AllReleased(f, next, count) {
      forall i: nat | i < count + 1 ensures DeviceReleased(f, first, i) {
        assert i > 0 ==> DeviceReleased(f, next, i - 1);
      }
    }
  }

  /** How an unprepare of a stored claim ends, by the calls that fail: the read is the first, the cleanup calls follow,
      and the deletion of the entry is the last. */
  lemma UnprepareAnswersExactly(f: Faults, w: World, uid: Uid)
    requires uid in w.store && w.store[uid] != []
    ensures var answer, n, first := UnprepareOne(f, w, uid).answer, |w.store[uid]|, w.calls + 1;
            && (answer == UnprepareReadError <==> FailsAt(f, w.calls))
            && (answer == CleanupFailed <==> !FailsAt(f, w.calls) && !AllReleased(f, first, n))
            && (answer == EntryDeleteError <==>
                  !FailsAt(f, w.calls) && AllReleased(f, first, n) && FailsAt(f, first + 3 * n))
            && (answer == Unprepared <==>
                  !FailsAt(f, w.calls) && AllReleased(f, first, n) && !FailsAt(f, first + 3 * n))
  {
    if !Fails(f, w) {
      CleanupSucceedsExactly(f, Tick(w), w.store[uid]);
      UnprepareOneTries(f, w, uid);
    }
  }

  /** Unpreparing a claim that is not stored changes nothing, and is no error unless the read fails. */
  lemma NothingToUnprepare(f: Faults, w: World, uid: Uid)
    requires uid !in w.store
    ensures UnprepareOne(f, w, uid) == UnpreparedOne(Tick(w),
                                                     if FailsAt(f, w.calls) then UnprepareReadError else NothingStored)
  {
  }

  /** An attempt whose calls all succeed releases the claim, whatever earlier attempts left behind. */
  lemma CleanAttemptReleases(f: Faults, w: World, u: Uid)
    requires Calm(f, w) && u in w.store && w.store[u] != []
    ensures UnprepareOne(f, w, u).answer == Unprepared && Released(UnprepareOne(f, w, u).w, u, w.store[u])
  {
    CalmCleanup(f, Tick(w), w.store[u]);
    UnprepareOneRetry(f, w, u, u, w.store[u]);
  }

  /** Why backing needs its condition: for every stored claim there is a single failing call, the deletion of its entry,
      after which a prepare still reports the claim ready although none of its ports or directories exists. */
  lemma CachedAnswerCanBeUnbacked(w: World, claim: Claim) returns (f: Faults)
    requires claim.uid in w.store && w.store[claim.uid] != []
    ensures var after := UnprepareOne(f, w, claim.uid);
            && after.answer == EntryDeleteError
            && PrepareOne(f, after.w, claim).answer == PrepareAnswered(w.store[claim.uid])
            && Gone(PrepareOne(f, after.w, claim).w, w.store[claim.uid])
  {
    var ds := w.store[claim.uid];
    var n := w.calls + 1 + 3 * |ds|;
    f := seq(n + 1, i => i == n);
    FaultAfterCleanup(f, Tick(w), ds, n);
    DeleteFailsAfterCleanup(f, w, claim.uid, n);
    CachedThough(f, UnprepareOne(f, w, claim.uid).w, claim, ds);
  }

  lemma CachedThough(f: Faults, w: World, claim: Claim, ds: seq<PreparedDevice>)
    requires Stored(w, claim.uid, ds) && ds != [] && Gone(w, ds) && !Fails(f, w)
    ensures PrepareOne(f, w, claim).answer == PrepareAnswered(ds) && Gone(PrepareOne(f, w, claim).w, ds)
  {
    StoredClaimIsCached(f, w, claim);
  }

  /** A cleanup that ends right before the failing call leaves the entry with nothing behind it. */
  lemma DeleteFailsAfterCleanup(f: Faults, w: World, uid: Uid, n: nat)
    requires uid in w.store && w.store[uid] != [] && !Fails(f, w)
    requires n < |f| && f[n]
    requires var o := UnprepareAll(f, Tick(w), w.store[uid]); o.ok && o.w.calls == n
    ensures var after := UnprepareOne(f, w, uid);
            && after.answer == EntryDeleteError && after.w.calls == n + 1
            && Stored(after.w, uid, w.store[uid]) && Gone(after.w, w.store[uid])
  {
    StoredCleanup(f, w, uid);
    UnprepareOneTries(f, w, uid);
    var cleanup := UnprepareAll(f, Tick(w), w.store[uid]);
    FinishUnprepareEffect(f, w, uid, w.calls + 1, cleanup);
    GoneStays(cleanup.w, UnprepareOne(f, w, uid).w, w.store[uid]);
  }

  lemma GoneStays(w: World, w': World, ds: seq<PreparedDevice>)
    requires Gone(w, ds) && w'.ports == w.ports && w'.dirs == w.dirs
    ensures Gone(w', ds)
  {
  }

  /** Cleanup calls that end before the only fault succeed. */
  lemma {:induction false} FaultAfterCleanup(f: Faults, w: World, ds: seq<PreparedDevice>, n: nat)
    requires w.calls + 3 * |ds| <= n && (forall i :: 0 <= i < |f| && i != n ==> !f[i])
    ensures var o := UnprepareAll(f, w, ds); o.ok && o.w.calls == w.calls + 3 * |ds|
    decreases ds
  {
    if ds != [] {
      var o := UnprepareDevice(f, w, ds[0]);
      assert o.ok && o.w.calls == w.calls + 3;
      FaultAfterCleanup(f, o.w, ds[1..], n);
    }
  }
}
