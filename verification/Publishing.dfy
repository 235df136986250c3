/** From a prepared claim to its published status: the list built while preparing meets the write protocol. */
module Publishing {
  import opened Kube
  import opened PortConfigs
  import opened StatusList
  import opened Stores
  import opened Lifecycle
  import opened Handlers
  import opened Batches
  import opened Retries
  import opened StatusWriter

  /** The client's copy of the claim, read at a version. */
  function CopyOf(version: nat, claim: Claim): ClaimObject {
    ClaimObject(version, claim.uid, ClaimStatus(claim.allocation, claim.reservedFor, claim.devices))
  }

  /** Preparing changes only this driver's entries, so the claim handed to the status writer is still in sync with the
      version it was read at. */
  lemma PreparedClaimInSync(f: Faults, w: World, claim: Claim, s: Server, version: nat)
    requires InSync(s, CopyOf(version, claim))
    ensures InSync(s, CopyOf(version, PrepareClaim(f, w, claim).claim))
  {
    PrepareKeepsOtherStatuses(f, w, claim);
  }

  /** After a successful prepare, the status list shows for every key of the plans the entry of its last plan. */
  lemma PreparedStatusComplete(f: Faults, w: World, claim: Claim, key: StatusKey)
    requires PrepareClaim(f, w, claim).devices.Some?
    requires HasKey(Statuses(ClaimPlans(w.config, claim)), key)
    ensures var last := LastUpdate(Statuses(ClaimPlans(w.config, claim)), key);
            && last.Some? && last.value.driver == DRIVER_NAME
            && Lookup(PrepareClaim(f, w, claim).claim.devices, key) == last
  {
    var ps := ClaimPlans(w.config, claim);
    var updates := Statuses(ps);
    assert ps[..|ps|] == ps;
    UpsertAllIsKeyedMap(claim.devices, updates, key);
    LastUpdateFound(updates, key);
    StatusesDriver(w.config, claim, |ps|);
  }

  lemma {:induction false} LastUpdateFound(updates: seq<DeviceStatus>, key: StatusKey)
    ensures LastUpdate(updates, key).Some? ==> LastUpdate(updates, key).value in updates
    ensures HasKey(updates, key) ==> LastUpdate(updates, key).Some?
  {
    if updates != [] {
      var n := |updates| - 1;
      LastUpdateFound(updates[..n], key);
      HasKeyPrefix(updates, n, key);
      assert updates[n..] == [updates[n]];
    }
  }

  // ---------------------------------------------------------------------------
  // What is handed to the status writer
  // ---------------------------------------------------------------------------

  /** The status key of an allocation result. */
  function ResultKey(r: AllocationResult): StatusKey {
    StatusKey(r.driver, r.pool, r.device, if r.shareId.Some? then r.shareId.value else "")
  }

  /** The i-th result is the last with its key. */
  ghost predicate LastOfKey(results: seq<AllocationResult>, i: int) {
    0 <= i < |results| && forall j :: i < j < |results| ==> ResultKey(results[j]) != ResultKey(results[i])
  }

  /** The status entry is that of the result, and shows the device that was prepared for it. */
  predicate Shows(e: DeviceStatus, result: AllocationResult, d: PreparedDevice) {
    && e.driver == DRIVER_NAME && e.pool == result.pool && e.device == result.device && e.shareId == result.shareId
    && e.data.PortData?
    && e.data.hostDir == d.hostDir && e.data.containerDir == d.containerDir
    && e.data.hostSocket == d.hostSocket && e.data.containerSocket == d.containerSocket
    && e.data.bridge == d.bridge && e.data.cdiIds == [d.device.cdiId] && e.data.config == d.portConfig
  }

  /** c is the claim with its status list brought up to date for the devices ds: under every key of this driver's
      results it shows the last of them, under every other key what was there, and the others' entries in order. */
  ghost predicate NoticeFor(claim: Claim, c: Claim, ds: seq<PreparedDevice>) {
    && c == claim.(devices := c.devices)
    && Others(c.devices, DRIVER_NAME) == Others(claim.devices, DRIVER_NAME)
    && claim.allocation.Some?
    && var own := OwnResults(claim.allocation.value.results);
    && |ds| == |own|
    && (forall i :: LastOfKey(own, i) ==> EntryShown(c.devices, own[i], ds[i]))
    && (forall key :: (forall r :: r in own ==> ResultKey(r) != key) ==>
          Lookup(c.devices, key) == Lookup(claim.devices, key))
  }

  ghost predicate EntryShown(list: seq<DeviceStatus>, result: AllocationResult, d: PreparedDevice) {
    Lookup(list, ResultKey(result)).Some? && Shows(Lookup(list, ResultKey(result)).value, result, d)
  }

  lemma {:induction false} OwnDriver(results: seq<AllocationResult>, i: nat)
    requires i < |OwnResults(results)|
    ensures OwnResults(results)[i].driver == DRIVER_NAME
  {
    var own := results[0].driver == DRIVER_NAME;
    if !own {
      OwnDriver(results[1..], i);
    } else if i > 0 {
      OwnDriver(results[1..], i - 1);
    }
  }

  lemma PlannedStatusShows(config: NodeConfig, claim: Claim, i: nat)
    requires Preparable(claim) && i < |OwnResults(claim.allocation.value.results)|
    ensures var ps, own := ClaimPlans(config, claim), OwnResults(claim.allocation.value.results);
            |ps| == |own| && KeyOf(ps[i].status) == ResultKey(own[i]) && Shows(ps[i].status, own[i], ps[i].d)
  {
    PlanOfOwn(config, claim, Parse(claim.allocation.value.configs).value, claim.allocation.value.results, i);
    OwnDriver(claim.allocation.value.results, i);
  }

  lemma PlannedNotice(config: NodeConfig, claim: Claim, c: Claim)
    requires Preparable(claim) && ClaimPlans(config, claim) != []
    requires c == claim.(devices := UpsertAll(claim.devices, Statuses(ClaimPlans(config, claim))))
    requires Others(c.devices, DRIVER_NAME) == Others(claim.devices, DRIVER_NAME)
    ensures NoticeFor(claim, c, Devices(ClaimPlans(config, claim)))
  {
    var ps, own := ClaimPlans(config, claim), OwnResults(claim.allocation.value.results);
    var updates, ds := Statuses(ps), Devices(ps);
    PlanOfOwn(config, claim, Parse(claim.allocation.value.configs).value, claim.allocation.value.results, 0);
    assert UpdatesShow(updates, own, ds) by {
      forall i | 0 <= i < |own| ensures UpdateShows(updates[i], own[i], ds[i]) {
        PlannedStatusShows(config, claim, i);
      }
    }
    forall i | LastOfKey(own, i) ensures EntryShown(c.devices, own[i], ds[i]) {
      ListShows(claim.devices, updates, own, ds, i);
    }
    forall key | forall r :: r in own ==> ResultKey(r) != key
      ensures Lookup(c.devices, key) == Lookup(claim.devices, key)
    {
      ListKeeps(claim.devices, updates, own, ds, key);
    }
  }

  predicate UpdateShows(e: DeviceStatus, result: AllocationResult, d: PreparedDevice) {
    KeyOf(e) == ResultKey(result) && Shows(e, result, d)
  }

  ghost predicate UpdatesShow(updates: seq<DeviceStatus>, own: seq<AllocationResult>, ds: seq<PreparedDevice>) {
    |updates| == |own| == |ds| && forall i :: 0 <= i < |own| ==> UpdateShows(updates[i], own[i], ds[i])
  }

  lemma ListShows(list: seq<DeviceStatus>, updates: seq<DeviceStatus>, own: seq<AllocationResult>,
                  ds: seq<PreparedDevice>, i: nat)
    requires UpdatesShow(updates, own, ds) && LastOfKey(own, i)
    ensures EntryShown(UpsertAll(list, updates), own[i], ds[i])
  {
    assert UpdateShows(updates[i], own[i], ds[i]);
    forall j | i < j < |updates| ensures KeyOf(updates[j]) != KeyOf(updates[i]) {
      assert UpdateShows(updates[j], own[j], ds[j]);
    }
    LastUpdateAt(updates, i);
    UpsertAllIsKeyedMap(list, updates, ResultKey(own[i]));
  }

  lemma ListKeeps(list: seq<DeviceStatus>, updates: seq<DeviceStatus>, own: seq<AllocationResult>,
                  ds: seq<PreparedDevice>, key: StatusKey)
    requires UpdatesShow(updates, own, ds) && forall r :: r in own ==> ResultKey(r) != key
    ensures Lookup(UpsertAll(list, updates), key) == Lookup(list, key)
  {
    forall i | 0 <= i < |updates| ensures KeyOf(updates[i]) != key {
      assert UpdateShows(updates[i], own[i], ds[i]) && own[i] in own;
    }
    NoUpdateFor(updates, key);
    UpsertAllIsKeyedMap(list, updates, key);
  }

  /** The handler hands on exactly the claims it newly stored, each with its status list showing the stored devices. */
  lemma PreparedNotice(f: Faults, w: World, claim: Claim)
    requires PrepareOne(f, w, claim).notice.Some?
    ensures var o := PrepareOne(f, w, claim);
            && o.answer.PrepareAnswered? && claim.uid in o.w.store && o.w.store[claim.uid] == o.answer.devices
            && NoticeFor(claim, o.notice.value, o.answer.devices)
  {
    PrepareOneStore(f, w, claim);
    PrepareKeepsOtherStatuses(f, Tick(w), claim);
    var p := PrepareClaim(f, Tick(w), claim);
    var m := SuccessfulPrepareInstalls(f, Tick(w), claim);
    var ps := ClaimPlans(w.config, claim);
    assert ps[..|ps|] == ps;
    PlannedNotice(w.config, claim, p.claim);
    SavedNotice(f, claim, p);
  }

  lemma SavedNotice(f: Faults, claim: Claim, p: Prepared)
    ensures var o := SavePrepared(f, claim, p);
            o.notice.Some? ==>
              p.devices.Some? && o.notice == Some(p.claim) && o.answer == PrepareAnswered(p.devices.value)
  {
  }

  /** The notice is for one of the claims, and shows what the store holds for it. */
  ghost predicate Announced(claims: seq<Claim>, w: World, c: Claim) {
    c.uid in w.store && exists claim :: claim in claims && NoticeFor(claim, c, w.store[c.uid])
  }

  /** The notices are for different claims, all of them stored. */
  ghost predicate OnePerClaim(w: World, notices: seq<Claim>) {
    && (forall c :: c in notices ==> c.uid in w.store && w.store[c.uid] != [])
    && (forall i, j :: 0 <= i < j < |notices| ==> notices[i].uid != notices[j].uid)
  }

  lemma OnePerClaimStep(f: Faults, w: World, claim: Claim, notices: seq<Claim>)
    requires OnePerClaim(w, notices) && PrepareOne(f, w, claim).answer.PrepareAnswered?
    ensures OnePerClaim(PrepareOne(f, w, claim).w, notices + NoticeList(PrepareOne(f, w, claim)))
  {
    PrepareOneStore(f, w, claim);
    var o := PrepareOne(f, w, claim);
    if o.notice.Some? {
      PreparedNotice(f, w, claim);
      assert forall i :: 0 <= i < |notices| ==> notices[i] in notices && notices[i].uid != claim.uid;
    }
  }

  /** A batch hands on every claim at most once. */
  lemma {:induction false} BatchNoticesOnce(f: Faults, w: World, claims: seq<Claim>,
                                            results: map<Uid, PrepareResult>, notices: seq<Claim>)
    requires OnePerClaim(w, notices)
    ensures OnePerClaim(PrepareBatch(f, w, claims, results, notices).w,
                        PrepareBatch(f, w, claims, results, notices).notices)
    decreases claims
  {
    if claims != [] {
      var o := PrepareOne(f, w, claims[0]);
      if o.answer.PrepareAnswered? {
        BatchStep(f, w, claims, results, notices, o);
        OnePerClaimStep(f, w, claims[0], notices);
        BatchNoticesOnce(f, o.w, claims[1..], results[claims[0].uid := Report(o.answer.devices)],
                         notices + NoticeList(o));
      } else {
        PrepareOneStore(f, w, claims[0]);
        BatchHalts(f, w, claims, results, notices);
      }
    }
  }

  /** Over a batch, every notice is for one of its claims and shows what the store holds in the end; and every claim
      that the batch stored is among them. */
  lemma {:induction false} BatchNotices(f: Faults, w: World, claims: seq<Claim>,
                                        results: map<Uid, PrepareResult>, notices: seq<Claim>)
    ensures var out := PrepareBatch(f, w, claims, results, notices);
            && (forall c :: c in notices ==> c in out.notices)
            && (forall c :: c in out.notices ==> c in notices || Announced(claims, out.w, c))
            && (forall u :: u in out.w.store && u !in w.store ==> exists c :: c in out.notices && c.uid == u)
    decreases claims
  {
    if claims != [] {
      var o := PrepareOne(f, w, claims[0]);
      PrepareOneStore(f, w, claims[0]);
      if o.answer.PrepareAnswered? {
        var results', notices' := results[claims[0].uid := Report(o.answer.devices)], notices + NoticeList(o);
        BatchStep(f, w, claims, results, notices, o);
        BatchNotices(f, o.w, claims[1..], results', notices');
        PrepareBatchKeepsEntry(f, o.w, claims[1..], results', notices', claims[0].uid, o.answer.devices);
        if o.notice.Some? {
          PreparedNotice(f, w, claims[0]);
          assert o.notice.value in notices' && claims[0] in claims;
        }
        AnnouncedCons(claims, PrepareBatch(f, w, claims, results, notices).w);
        StoredOnlyOne(f, w, claims[0]);
      } else {
        BatchHalts(f, w, claims, results, notices);
      }
    }
  }

  lemma AnnouncedCons(claims: seq<Claim>, w: World)
    requires claims != []
    ensures forall c :: Announced(claims[1..], w, c) ==> Announced(claims, w, c)
  {
  }

  /** A prepare adds no entry but the claim's own. */
  lemma StoredOnlyOne(f: Faults, w: World, claim: Claim)
    ensures forall u :: u in PrepareOne(f, w, claim).w.store ==> u in w.store || u == claim.uid
  {
    PrepareClaimFrame(f, Tick(w), claim);
    SavePreparedStore(f, claim, PrepareClaim(f, Tick(w), claim));
  }

  /** End to end: when the status update for a notice of a batch succeeds, the API server holds, for every key of this
      driver's results of that claim, an entry that shows the stored device of the last such result; and all that is not
      this driver's stands as right before that write. */
  lemma PreparedStatusPublished(f: Faults, w: World, claims: seq<Claim>, c: Claim, s: Server, version: nat,
                                turns: seq<Turn>)
    requires c in PrepareBatch(f, w, claims, map[], []).notices
    requires forall claim :: claim in claims && claim.uid == c.uid ==> InSync(s, CopyOf(version, claim))
    requires PublishClaim(s, CopyOf(version, c), turns).ok
    ensures var o, w' := PublishClaim(s, CopyOf(version, c), turns), PrepareBatch(f, w, claims, map[], []).w;
            && c.uid in w'.store && c.allocation.Some? && o.s.obj.Some? && o.s.obj.value.uid == c.uid
            && AllPublished(o.s.obj.value.status, OwnResults(c.allocation.value.results), w'.store[c.uid])
            && o.writes != [] && o.writes[|o.writes| - 1].pre.obj.Some?
            && SameForeign(o.s.obj.value.status, o.writes[|o.writes| - 1].pre.obj.value.status)
  {
    BatchNotices(f, w, claims, map[], []);
    var w' := PrepareBatch(f, w, claims, map[], []).w;
    var claim :| claim in claims && NoticeFor(claim, c, w'.store[c.uid]);
    NoticePublished(claim, c, w'.store[c.uid], s, version, turns);
  }

  /** Some entry of the status shows the device of the result. */
  ghost predicate IsPublished(status: ClaimStatus, result: AllocationResult, d: PreparedDevice) {
    exists e :: e in status.devices && Shows(e, result, d)
  }

  /** For every key of the results, the status shows the device of the last result with it. */
  ghost predicate AllPublished(status: ClaimStatus, own: seq<AllocationResult>, ds: seq<PreparedDevice>) {
    |ds| == |own| && forall i :: LastOfKey(own, i) ==> IsPublished(status, own[i], ds[i])
  }

  lemma NoticePublished(claim: Claim, c: Claim, ds: seq<PreparedDevice>, s: Server, version: nat, turns: seq<Turn>)
    requires NoticeFor(claim, c, ds) && InSync(s, CopyOf(version, claim))
    requires PublishClaim(s, CopyOf(version, c), turns).ok
    ensures var o, own := PublishClaim(s, CopyOf(version, c), turns), OwnResults(c.allocation.value.results);
            && o.s.obj.Some? && o.s.obj.value.uid == c.uid
            && AllPublished(o.s.obj.value.status, own, ds)
            && o.writes != [] && o.writes[|o.writes| - 1].pre.obj.Some?
            && SameForeign(o.s.obj.value.status, o.writes[|o.writes| - 1].pre.obj.value.status)
  {
    var own := OwnResults(c.allocation.value.results);
    NoLostUpdates(s, CopyOf(version, c), turns);
    forall i | LastOfKey(own, i)
      ensures IsPublished(PublishClaim(s, CopyOf(version, c), turns).s.obj.value.status, own[i], ds[i])
    {
      assert EntryShown(c.devices, own[i], ds[i]);
      PublishedEntry(s, CopyOf(version, c), turns, Lookup(c.devices, ResultKey(own[i])).value);
    }
  }

  /** A successful update publishes every entry of this driver that the claim carried. */
  lemma PublishedEntry(s: Server, copy: ClaimObject, turns: seq<Turn>, entry: DeviceStatus)
    requires InSync(s, copy) && PublishClaim(s, copy, turns).ok
    requires entry in copy.status.devices && entry.driver == DRIVER_NAME
    ensures var o := PublishClaim(s, copy, turns);
            && o.s.obj.Some? && o.s.obj.value.uid == copy.uid && entry in o.s.obj.value.status.devices
            && o.writes != [] && o.writes[|o.writes| - 1].pre.obj.Some?
            && SameForeign(o.s.obj.value.status, o.writes[|o.writes| - 1].pre.obj.value.status)
  {
    NoLostUpdates(s, copy, turns);
    KeepMembers(copy.status.devices, DRIVER_NAME, true);
    KeepMembers(PublishClaim(s, copy, turns).s.obj.value.status.devices, DRIVER_NAME, true);
  }
}
