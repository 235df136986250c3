/** The kubelet-facing handlers of the driver, claim by claim, in batches and over whole runs. */
module Handlers {
  import opened Kube
  import opened Stores
  import opened Lifecycle

  // ---------------------------------------------------------------------------
  // One claim
  // ---------------------------------------------------------------------------

  datatype PrepareAnswer = StoreReadError | PrepareRefused | PrepareAnswered(devices: seq<PreparedDevice>)

  /** `notice` is the claim handed to the status writer, if any. */
  datatype PreparedOne = PreparedOne(w: World, answer: PrepareAnswer, notice: Option<Claim>)

  /** What follows a prepare of the devices: store them, or take them back. */
  function SavePrepared(f: Faults, claim: Claim, p: Prepared): PreparedOne {
    if p.devices.None? then PreparedOne(p.w, PrepareRefused, None)
    else
      var saved := StoreSet(f, p.w, claim, p.devices.value);
      if saved.ok then PreparedOne(saved.w, PrepareAnswered(p.devices.value), Some(p.claim))
      else PreparedOne(UnprepareAll(f, saved.w, p.devices.value).w, PrepareRefused, None)
  }

  /** The loop body of PrepareResourceClaims. */
  function PrepareOne(f: Faults, w: World, claim: Claim): PreparedOne {
    var read := StoreGet(f, w, claim.uid);
    if read.devices.None? then PreparedOne(read.w, StoreReadError, None)
    else if |read.devices.value| > 0 then PreparedOne(read.w, PrepareAnswered(read.devices.value), None)
    else SavePrepared(f, claim, PrepareClaim(f, read.w, claim))
  }

  datatype UnprepareAnswer = UnprepareReadError | NothingStored | CleanupFailed | EntryDeleteError | Unprepared

  datatype UnpreparedOne = UnpreparedOne(w: World, answer: UnprepareAnswer)

  /** The claims marked as broken once an attempt on `uid` made its cleanup calls, the first being number `first`. */
  ghost function Marked(f: Faults, uid: Uid, first: nat, w: World): set<Uid> {
    if AnySucceeds(f, first, w.calls) then w.broken + {uid} else w.broken
  }

  /** What follows the cleanup of a stored claim, whose calls started at number `first`: drop its entry, or keep it for
      a retry. */
  ghost function FinishUnprepare(f: Faults, uid: Uid, first: nat, u: Outcome): UnpreparedOne {
    if !u.ok then UnpreparedOne(u.w.(broken := Marked(f, uid, first, u.w)), CleanupFailed)
    else
      var deleted := StoreDelete(f, u.w, uid);
      if deleted.ok then UnpreparedOne(deleted.w.(broken := deleted.w.broken - {uid}), Unprepared)
      else UnpreparedOne(deleted.w.(broken := deleted.w.broken + {uid}), EntryDeleteError)
  }

  /** The loop body of UnprepareResourceClaims. */
  ghost function UnprepareOne(f: Faults, w: World, uid: Uid): UnpreparedOne {
    var read := StoreGet(f, w, uid);
    if read.devices.None? then UnpreparedOne(read.w, UnprepareReadError)
    else if |read.devices.value| == 0 then UnpreparedOne(read.w, NothingStored)
    else FinishUnprepare(f, uid, read.w.calls, UnprepareAll(f, read.w, read.devices.value))
  }

  /** The cleanup calls of an unprepare took w to u. */
  ghost predicate CleanedStored(f: Faults, w: World, u: World, uid: Uid) {
    && uid in w.store && w.store[uid] != []
    && u == UnprepareAll(f, Tick(w), w.store[uid]).w
    && Cleaned(w, u, AllResources(w.store[uid]))
  }

  /** None of the devices' ports or directories is left. */
  ghost predicate Gone(w: World, ds: seq<PreparedDevice>) {
    forall d :: d in ds ==> !Exists(w, PortOf(d)) && !Exists(w, DirOf(d))
  }

  /** The ends of an unprepare: nothing was tried, the entry stays for a retry, or the entry is gone with every port and
      directory of its devices.  `u` is the world after the cleanup calls. */
  lemma UnprepareOneEffect(f: Faults, w: World, uid: Uid) returns (u: World)
    ensures var o := UnprepareOne(f, w, uid);
            match o.answer
            case UnprepareReadError => o.w == Tick(w)
            case NothingStored => o.w == Tick(w) && (uid !in w.store || w.store[uid] == [])
            case CleanupFailed =>
              CleanedStored(f, w, u, uid) && o.w == u.(broken := Marked(f, uid, w.calls + 1, u))
            case EntryDeleteError =>
              && CleanedStored(f, w, u, uid) && Gone(u, w.store[uid])
              && o.w == u.(broken := w.broken + {uid}, calls := u.calls + 1)
            case Unprepared =>
              && CleanedStored(f, w, u, uid) && Gone(u, w.store[uid])
              && o.w == u.(store := w.store - {uid}, origin := w.origin - {uid},
                           broken := w.broken - {uid}, calls := u.calls + 1)
  {
    u := Tick(w);
    if uid in w.store && w.store[uid] != [] && !Fails(f, w) {
      var cleanup := UnprepareAll(f, Tick(w), w.store[uid]);
      u := cleanup.w;
      StoredCleanup(f, w, uid);
      FinishUnprepareEffect(f, w, uid, w.calls + 1, cleanup);
      UnprepareOneTries(f, w, uid);
    }
  }

  /** What an unprepare of a stored claim comes to once its entry is read. */
  lemma UnprepareOneTries(f: Faults, w: World, uid: Uid)
    requires uid in w.store && w.store[uid] != [] && !Fails(f, w)
    ensures UnprepareOne(f, w, uid) == FinishUnprepare(f, uid, w.calls + 1, UnprepareAll(f, Tick(w), w.store[uid]))
  {
  }

  lemma FinishUnprepareEffect(f: Faults, w: World, uid: Uid, first: nat, u: Outcome)
    requires u.w.store == w.store && u.w.origin == w.origin && u.w.broken == w.broken
    ensures var o := FinishUnprepare(f, uid, first, u);
            && (!u.ok ==> o == UnpreparedOne(u.w.(broken := Marked(f, uid, first, u.w)), CleanupFailed))
            && (u.ok ==> o.answer.EntryDeleteError? || o.answer.Unprepared?)
            && (o.answer.EntryDeleteError? ==> o.w == u.w.(broken := w.broken + {uid}, calls := u.w.calls + 1))
            && (o.answer.Unprepared? ==>
                  o.w == u.w.(store := w.store - {uid}, origin := w.origin - {uid},
                              broken := w.broken - {uid}, calls := u.w.calls + 1))
  {
  }

  lemma StoredCleanup(f: Faults, w: World, uid: Uid)
    requires uid in w.store
    ensures var o := UnprepareAll(f, Tick(w), w.store[uid]);
            && Cleaned(w, o.w, AllResources(w.store[uid]))
            && (o.ok ==> Gone(o.w, w.store[uid]))
  {
    UnprepareAllCleans(f, Tick(w), w.store[uid]);
    CleanedFromTick(w, UnprepareAll(f, Tick(w), w.store[uid]).w, AllResources(w.store[uid]));
  }

  lemma CleanedFromTick(w: World, w': World, R: set<Resource>)
    requires Cleaned(Tick(w), w', R)
    ensures Cleaned(w, w', R)
  {
    assert forall r :: Exists(Tick(w), r) <==> Exists(w, r);
  }

  // ---------------------------------------------------------------------------
  // Batches
  // ---------------------------------------------------------------------------

  datatype PrepareResult = Ready(devices: seq<KubeletDevice>) | PrepareError

  /** preparedDevicesToResult */
  function Report(ds: seq<PreparedDevice>): (r: PrepareResult)
    ensures r.Ready? && |r.devices| == |ds|
    ensures forall i :: 0 <= i < |ds| ==> r.devices[i] == ds[i].device
  {
    Ready(seq(|ds|, i requires 0 <= i < |ds| => ds[i].device))
  }

  function NoticeList(o: PreparedOne): seq<Claim> {
    if o.notice.Some? then [o.notice.value] else []
  }

  /** `results` is None when the handler returns no result map. */
  datatype PreparedBatch = PreparedBatch(w: World, results: Option<map<Uid, PrepareResult>>, failed: bool,
                                         notices: seq<Claim>)

  /** PrepareResourceClaims on the remaining claims, with what was gathered so far. */
  function PrepareBatch(f: Faults, w: World, claims: seq<Claim>, results: map<Uid, PrepareResult>,
                        notices: seq<Claim>): PreparedBatch
    decreases claims
  {
    if claims == [] then PreparedBatch(w, Some(results), false, notices)
    else
      var o := PrepareOne(f, w, claims[0]);
      match o.answer
      case StoreReadError => PreparedBatch(o.w, None, true, notices)
      case PrepareRefused => PreparedBatch(o.w, Some(results[claims[0].uid := PrepareError]), true, notices)
      case PrepareAnswered(ds) =>
        PrepareBatch(f, o.w, claims[1..], results[claims[0].uid := Report(ds)], notices + NoticeList(o))
  }

  lemma BatchStep(f: Faults, w: World, claims: seq<Claim>, results: map<Uid, PrepareResult>, notices: seq<Claim>,
                  o: PreparedOne)
    requires claims != [] && o == PrepareOne(f, w, claims[0]) && o.answer.PrepareAnswered?
    ensures PrepareBatch(f, w, claims, results, notices)
         == PrepareBatch(f, o.w, claims[1..], results[claims[0].uid := Report(o.answer.devices)],
                         notices + NoticeList(o))
  {
  }

  lemma BatchHalts(f: Faults, w: World, claims: seq<Claim>, results: map<Uid, PrepareResult>, notices: seq<Claim>)
    requires claims != [] && !PrepareOne(f, w, claims[0]).answer.PrepareAnswered?
    ensures var out, o := PrepareBatch(f, w, claims, results, notices), PrepareOne(f, w, claims[0]);
            && out.w == o.w && out.failed && out.notices == notices
            && out.results == if o.answer.StoreReadError? then None else Some(results[claims[0].uid := PrepareError])
  {
  }

  datatype UnpreparedBatch = UnpreparedBatch(w: World, results: Option<map<Uid, bool>>)

  /** UnprepareResourceClaims on the remaining claims; a result is true when its error is nil. */
  ghost function UnprepareBatch(f: Faults, w: World, uids: seq<Uid>, results: map<Uid, bool>): UnpreparedBatch
    decreases uids
  {
    if uids == [] then UnpreparedBatch(w, Some(results))
    else
      var o := UnprepareOne(f, w, uids[0]);
      match o.answer
      case UnprepareReadError => UnpreparedBatch(o.w, None)
      case EntryDeleteError => UnpreparedBatch(o.w, None)
      case CleanupFailed => UnprepareBatch(f, o.w, uids[1..], results[uids[0] := false])
      case NothingStored => UnprepareBatch(f, o.w, uids[1..], results[uids[0] := true])
      case Unprepared => UnprepareBatch(f, o.w, uids[1..], results[uids[0] := true])
  }

  /** The batch goes on after this answer. */
  predicate Continues(a: UnprepareAnswer) {
    a != UnprepareReadError && a != EntryDeleteError
  }

  lemma UnprepareBatchStep(f: Faults, w: World, uids: seq<Uid>, results: map<Uid, bool>, o: UnpreparedOne)
    requires uids != [] && o == UnprepareOne(f, w, uids[0])
    ensures UnprepareBatch(f, w, uids, results)
         == if Continues(o.answer) then UnprepareBatch(f, o.w, uids[1..], results[uids[0] := o.answer != CleanupFailed])
            else UnpreparedBatch(o.w, None)
  {
  }

  // ---------------------------------------------------------------------------
  // Runs
  // ---------------------------------------------------------------------------

  datatype Op =
    | PrepareOp(claims: seq<Claim>)
    | UnprepareOp(uids: seq<Uid>)
    | ConfigureOp(config: NodeConfig)

  ghost function Apply(f: Faults, w: World, op: Op): World {
    match op
    case PrepareOp(claims) => PrepareBatch(f, w, claims, map[], []).w
    case UnprepareOp(uids) => UnprepareBatch(f, w, uids, map[]).w
    case ConfigureOp(config) => w.(config := config)
  }

  ghost function Run(f: Faults, w: World, ops: seq<Op>): World
    decreases ops
  {
    if ops == [] then w else Run(f, Apply(f, w, ops[0]), ops[1..])
  }
}
