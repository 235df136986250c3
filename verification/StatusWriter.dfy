/** The claim-status write protocol: optimistic concurrency against an API server that other writers share. */
module StatusWriter {
  import opened Kube
  import opened StatusList

  // ---------------------------------------------------------------------------
  // The API server
  // ---------------------------------------------------------------------------

  /** The status of a claim, which one status write replaces as a whole. */
  datatype ClaimStatus = ClaimStatus(
    allocation: Option<Allocation>, reservedFor: seq<Consumer>, devices: seq<DeviceStatus>)

  /** One stored version of the claim object, or the copy a client holds. */
  datatype ClaimObject = ClaimObject(version: nat, uid: Uid, status: ClaimStatus)

  /** The object under the claim's name; versions below `next` have been used. */
  datatype Server = Server(obj: Option<ClaimObject>, next: nat)

  /** What other writers do to the object. */
  datatype OtherWrite = Rewrite(status: ClaimStatus) | Remove | Recreate(uid: Uid, status: ClaimStatus)

  function Commit(s: Server, uid: Uid, status: ClaimStatus): Server {
    Server(Some(ClaimObject(s.next, uid, status)), s.next + 1)
  }

  function ApplyOther(s: Server, a: OtherWrite): Server {
    match a
    case Rewrite(status) => if s.obj.Some? then Commit(s, s.obj.value.uid, status) else s
    case Remove => s.(obj := None)
    case Recreate(uid, status) => Commit(s, uid, status)
  }

  function ApplyOthers(s: Server, acts: seq<OtherWrite>): Server
    decreases acts
  {
    if acts == [] then s else ApplyOthers(ApplyOther(s, acts[0]), acts[1..])
  }

  datatype ErrorKind = ConflictError | PermanentError | TransientError

  /** How a call goes: handled normally, refused with an error and no effect, or handled with the reply lost. */
  datatype Mode = Handled | RefusedWith(kind: ErrorKind) | ReplyLost

  datatype Reply = Accepted | Rejected(kind: ErrorKind)

  /** The copy is current: same UID and same version. */
  predicate Current(s: Server, copy: ClaimObject) {
    s.obj.Some? && s.obj.value.uid == copy.uid && s.obj.value.version == copy.version
  }

  function UpdateStatus(s: Server, copy: ClaimObject, mode: Mode): (Server, Reply) {
    if mode.RefusedWith? then (s, Rejected(mode.kind))
    else
      var s' := if Current(s, copy) then Commit(s, copy.uid, copy.status) else s;
      if mode.ReplyLost? then (s', Rejected(TransientError))
      else if s.obj.None? then (s', Rejected(PermanentError))
      else if Current(s, copy) then (s', Accepted)
      else (s', Rejected(ConflictError))
  }

  datatype Fetch = Fetched(obj: ClaimObject) | FetchError(kind: ErrorKind)

  function GetClaim(s: Server, mode: Mode): Fetch {
    match mode
    case RefusedWith(kind) => FetchError(kind)
    case ReplyLost => FetchError(TransientError)
    case Handled => if s.obj.Some? then Fetched(s.obj.value) else FetchError(PermanentError)
  }

  // ---------------------------------------------------------------------------
  // The client
  // ---------------------------------------------------------------------------

  const MAX_ATTEMPTS := 5

  /** The environment of one attempt: a cancelled context, other writes before the update and before the refetch, and
      how the two calls go. */
  datatype Turn = Turn(cancelled: bool, before: seq<OtherWrite>, update: Mode, between: seq<OtherWrite>, fetch: Mode)

  datatype Verdict = Succeeded | GaveUp | TryAgain

  /** One status write: what was sent, the server around it, the reply, what was fetched after a conflict, and the
      verdict of its attempt. */
  datatype Write = Write(
    copy: ClaimObject, pre: Server, post: Server, reply: Reply, refetch: Option<Fetch>, verdict: Verdict)

  datatype Attempt = Attempt(s: Server, copy: ClaimObject, write: Write)

  /** The latest object with this driver's entries replaced by the owned ones. */
  function Merged(latest: ClaimObject, owned: seq<DeviceStatus>): ClaimObject {
    latest.(status := latest.status.(devices := Others(latest.status.devices, DRIVER_NAME) + owned))
  }

  /** The condition function of the backoff loop. */
  function TryUpdate(s: Server, copy: ClaimObject, owned: seq<DeviceStatus>, uid: Uid, t: Turn): Attempt {
    var s0 := ApplyOthers(s, t.before);
    var (s1, reply) := UpdateStatus(s0, copy, t.update);
    if reply.Accepted? then Attempt(s1, copy, Write(copy, s0, s1, reply, None, Succeeded))
    else
      match reply.kind
      case PermanentError => Attempt(s1, copy, Write(copy, s0, s1, reply, None, GaveUp))
      case TransientError => Attempt(s1, copy, Write(copy, s0, s1, reply, None, TryAgain))
      case ConflictError =>
        var s2 := ApplyOthers(s1, t.between);
        var answer := GetClaim(s2, t.fetch);
        match answer
        case FetchError(kind) =>
          var verdict := if kind == PermanentError then GaveUp else TryAgain;
          Attempt(s2, copy, Write(copy, s0, s1, reply, Some(answer), verdict))
        case Fetched(latest) =>
          if latest.uid != uid then Attempt(s2, copy, Write(copy, s0, s1, reply, Some(answer), GaveUp))
          else Attempt(s2, Merged(latest, owned), Write(copy, s0, s1, reply, Some(answer), TryAgain))
  }

  datatype Published = Published(s: Server, ok: bool, writes: seq<Write>)

  /** The backoff loop with `steps` attempts left after the writes `made`, one per turn of the environment; an
      environment that runs out of turns is a cancelled context. */
  function Publish(steps: nat, s: Server, copy: ClaimObject, owned: seq<DeviceStatus>, uid: Uid, turns: seq<Turn>,
                   made: seq<Write>): Published
    decreases steps
  {
    if steps == 0 || |made| >= |turns| || turns[|made|].cancelled then Published(s, false, made)
    else
      var a := TryUpdate(s, copy, owned, uid, turns[|made|]);
      var made' := made + [a.write];
      if a.write.verdict == TryAgain then Publish(steps - 1, a.s, a.copy, owned, uid, turns, made')
      else Published(a.s, a.write.verdict == Succeeded, made')
  }

  /** updateClaimStatus on a claim, from the start. */
  function PublishClaim(s: Server, claim: ClaimObject, turns: seq<Turn>): Published {
    Publish(MAX_ATTEMPTS, s, claim, Own(claim.status.devices, DRIVER_NAME), claim.uid, turns, [])
  }

  /** The shared object and the calls on it. */
  class ApiServer {
    var obj: Option<ClaimObject>
    var next: nat
    ghost var writes: seq<Write>

    ghost function View(): Server
      reads this
    {
      Server(obj, next)
    }

    constructor (obj: Option<ClaimObject>, next: nat)
      ensures View() == Server(obj, next) && writes == []
    {
      this.obj, this.next, this.writes := obj, next, [];
    }

    method OtherWriters(acts: seq<OtherWrite>)
      modifies this`obj, this`next
      ensures View() == ApplyOthers(old(View()), acts)
    {
      assert acts[0..] == acts;
      for i := 0 to |acts|
        invariant ApplyOthers(View(), acts[i..]) == ApplyOthers(old(View()), acts)
      {
        assert acts[i..][1..] == acts[i + 1..];
        match acts[i] {
          case Rewrite(status) =>
            if obj.Some? {
              obj, next := Some(ClaimObject(next, obj.value.uid, status)), next + 1;
            }
          case Remove => obj := None;
          case Recreate(uid, status) => obj, next := Some(ClaimObject(next, uid, status)), next + 1;
        }
      }
    }

    method Update(copy: ClaimObject, mode: Mode) returns (reply: Reply)
      modifies this`obj, this`next
      ensures (View(), reply) == UpdateStatus(old(View()), copy, mode)
    {
      if mode.RefusedWith? {
        return Rejected(mode.kind);
      }
      var missing := obj.None?;
      var current := obj.Some? && obj.value.uid == copy.uid && obj.value.version == copy.version;
      if current {
        obj, next := Some(ClaimObject(next, copy.uid, copy.status)), next + 1;
      }
      if mode.ReplyLost? {
        return Rejected(TransientError);
      }
      reply := if missing then Rejected(PermanentError) else if current then Accepted else Rejected(ConflictError);
    }

    method Get(mode: Mode) returns (answer: Fetch)
      ensures answer == GetClaim(View(), mode)
    {
      answer := match mode
        case RefusedWith(kind) => FetchError(kind)
        case ReplyLost => FetchError(TransientError)
        case Handled => if obj.Some? then Fetched(obj.value) else FetchError(PermanentError);
    }

    /** updateClaimStatus */
    method UpdateClaimStatus(claim: ClaimObject, turns: seq<Turn>) returns (ok: bool)
      modifies this
      ensures old(writes) <= writes
      ensures Published(View(), ok, writes[|old(writes)|..]) == PublishClaim(old(View()), claim, turns)
    {
      var owned := FilterDevicesByDriver(claim.status.devices, DRIVER_NAME);
      var originalUid := claim.uid;
      var copy, steps, i := claim, MAX_ATTEMPTS, 0;
      ghost var made: seq<Write> := [];
      while steps > 0 && i < |turns| && !turns[i].cancelled
        invariant i == |made| && 0 <= steps
        invariant writes == old(writes) + made
        invariant Publish(steps, View(), copy, owned, originalUid, turns, made)
               == PublishClaim(old(View()), claim, turns)
        decreases steps
      {
        ghost var write := TryUpdate(View(), copy, owned, originalUid, turns[i]).write;
        var verdict: Verdict;
        verdict, copy := AttemptUpdate(copy, owned, originalUid, turns[i]);
        made := made + [write];
        if verdict != TryAgain {
          return verdict == Succeeded;
        }
        steps, i := steps - 1, i + 1;
      }
      return false;
    }

    method AttemptUpdate(copy: ClaimObject, owned: seq<DeviceStatus>, originalUid: Uid, t: Turn)
      returns (verdict: Verdict, copy': ClaimObject)
      modifies this
      ensures var a := TryUpdate(old(View()), copy, owned, originalUid, t);
              View() == a.s && copy' == a.copy && verdict == a.write.verdict && writes == old(writes) + [a.write]
    {
      copy' := copy;
      ghost var a := TryUpdate(View(), copy, owned, originalUid, t);
      writes := writes + [a.write];
      OtherWriters(t.before);
      var reply := Update(copy, t.update);
      if reply.Accepted? {
        return Succeeded, copy';
      }
      if reply.kind == ConflictError {
        OtherWriters(t.between);
        var answer := Get(t.fetch);
        if answer.FetchError? {
          return if answer.kind == PermanentError then GaveUp else TryAgain, copy';
        }
        var latest := answer.obj;
        if latest.uid != originalUid {
          return GaveUp, copy';
        }
        var merged := MergeDeviceStatus(latest.status.devices, owned, DRIVER_NAME);
        copy' := latest.(status := latest.status.(devices := merged));
      } else if reply.kind == PermanentError {
        return GaveUp, copy';
      }
      return TryAgain, copy';
    }
  }

  // ---------------------------------------------------------------------------
  // No lost updates
  // ---------------------------------------------------------------------------

  /** Two statuses agree on all that is not this driver's: the allocation, the consumers and the other drivers' entries
      in order. */
  ghost predicate SameForeign(a: ClaimStatus, b: ClaimStatus) {
    && a.allocation == b.allocation && a.reservedFor == b.reservedFor
    && Others(a.devices, DRIVER_NAME) == Others(b.devices, DRIVER_NAME)
  }

  /** The client's copy was read from the server: while it is current it shows what is not this driver's as committed,
      and its version will never be used again. */
  ghost predicate InSync(s: Server, copy: ClaimObject) {
    && copy.version < s.next
    && (s.obj.Some? ==> s.obj.value.version < s.next)
    && (Current(s, copy) ==> SameForeign(s.obj.value.status, copy.status))
  }

  /** The copy is a write candidate: the original UID and exactly the owned entries for this driver. */
  ghost predicate Candidate(copy: ClaimObject, owned: seq<DeviceStatus>, uid: Uid) {
    copy.uid == uid && Own(copy.status.devices, DRIVER_NAME) == owned
  }

  /** What every single write does to the server, whatever reply came back: nothing, or a commit that replaces only this
      driver's entries. */
  ghost predicate LosesNothing(w: Write, owned: seq<DeviceStatus>, uid: Uid) {
    || w.post == w.pre
    || (&& w.pre.obj.Some? && w.post.obj.Some?
        && w.pre.obj.value.uid == uid && w.post.obj.value.uid == uid
        && SameForeign(w.post.obj.value.status, w.pre.obj.value.status)
        && Own(w.post.obj.value.status.devices, DRIVER_NAME) == owned)
  }

  lemma {:induction false} OthersKeepSync(s: Server, copy: ClaimObject, acts: seq<OtherWrite>)
    requires InSync(s, copy)
    ensures InSync(ApplyOthers(s, acts), copy)
    decreases acts
  {
    if acts != [] {
      OthersKeepSync(ApplyOther(s, acts[0]), copy, acts[1..]);
    }
  }

  lemma UpdateKeepsSync(s: Server, copy: ClaimObject, mode: Mode)
    requires InSync(s, copy)
    ensures var (s', reply) := UpdateStatus(s, copy, mode);
            && InSync(s', copy)
            && (reply.Accepted? ==> s' != s)
            && (s' != s ==>
                  && Current(s, copy) && s'.obj == Some(ClaimObject(s.next, copy.uid, copy.status))
                  && SameForeign(copy.status, s.obj.value.status))
  {
  }

  lemma RefetchInSync(s: Server, owned: seq<DeviceStatus>)
    requires s.obj.Some? && s.obj.value.version < s.next
    requires forall d :: d in owned ==> d.driver == DRIVER_NAME
    ensures var merged := Merged(s.obj.value, owned);
            InSync(s, merged) && Candidate(merged, owned, s.obj.value.uid)
  {
    MergeSeparates(s.obj.value.status.devices, owned, DRIVER_NAME);
  }

  lemma AttemptKeepsSync(s: Server, copy: ClaimObject, owned: seq<DeviceStatus>, uid: Uid, t: Turn)
    requires InSync(s, copy) && Candidate(copy, owned, uid)
    requires forall d :: d in owned ==> d.driver == DRIVER_NAME
    ensures var a := TryUpdate(s, copy, owned, uid, t);
            && InSync(a.s, a.copy) && Candidate(a.copy, owned, uid)
            && a.write.copy == copy && LosesNothing(a.write, owned, uid)
            && (a.write.reply.Accepted? ==> a.write.post != a.write.pre && a.write.post == a.s)
  {
    var s0 := ApplyOthers(s, t.before);
    OthersKeepSync(s, copy, t.before);
    var (s1, reply) := UpdateStatus(s0, copy, t.update);
    UpdateKeepsSync(s0, copy, t.update);
    if reply == Rejected(ConflictError) {
      OthersKeepSync(s1, copy, t.between);
      var s2 := ApplyOthers(s1, t.between);
      if s2.obj.Some? {
        RefetchInSync(s2, owned);
      }
    }
  }

  // ---------------------------------------------------------------------------
  // Retry discipline
  // ---------------------------------------------------------------------------

  /** Another write may follow this one: it was not accepted, no error was permanent, and what was fetched after a
      conflict is still the claim of the original UID. */
  predicate Retryable(w: Write, uid: Uid) {
    w.reply.Rejected? &&
    match w.reply.kind
    case PermanentError => false
    case TransientError => true
    case ConflictError =>
      w.refetch.Some? &&
      match w.refetch.value
      case FetchError(kind) => kind != PermanentError
      case Fetched(latest) => latest.uid == uid
  }

  /** What the write after this one sends: the fetched object merged with the owned entries, else the same again. */
  function NextCopy(w: Write, owned: seq<DeviceStatus>): ClaimObject {
    if w.refetch.Some? && w.refetch.value.Fetched? then Merged(w.refetch.value.obj, owned) else w.copy
  }

  /** The verdict of an attempt, by its replies. */
  lemma VerdictExact(s: Server, copy: ClaimObject, owned: seq<DeviceStatus>, uid: Uid, t: Turn)
    ensures var a := TryUpdate(s, copy, owned, uid, t);
            && (a.write.verdict == Succeeded <==> a.write.reply.Accepted?)
            && (a.write.verdict == TryAgain <==> Retryable(a.write, uid))
            && (a.write.verdict == TryAgain ==> a.copy == NextCopy(a.write, owned))
  {
  }

  /** The discipline of a run of writes: each carries the original UID and the owned entries and loses nothing; none
      follows an accepted one, a permanent error or a replaced claim; and each sends what the one before it left to
      send. */
  ghost predicate Disciplined(writes: seq<Write>, owned: seq<DeviceStatus>, uid: Uid) {
    && (forall i :: 0 <= i < |writes| ==> Candidate(writes[i].copy, owned, uid) && LosesNothing(writes[i], owned, uid))
    && (forall i :: 0 <= i < |writes| - 1 ==> Retryable(writes[i], uid))
    && (forall i :: 0 <= i < |writes| - 1 ==> Continued(writes, i, owned))
  }

  /** Write i is followed by what it left to send. */
  ghost predicate Continued(writes: seq<Write>, i: nat, owned: seq<DeviceStatus>)
    requires i < |writes| - 1
  {
    writes[i + 1].copy == NextCopy(writes[i], owned)
  }

  /** All writes so far may be followed by another, which will send `copy`. */
  ghost predicate Pending(made: seq<Write>, copy: ClaimObject, owned: seq<DeviceStatus>, uid: Uid) {
    && Disciplined(made, owned, uid)
    && (made != [] ==> Retryable(made[|made| - 1], uid) && copy == NextCopy(made[|made| - 1], owned))
  }

  /** A disciplined run is a success exactly when its last write was accepted, and then the server is as that write left
      it. */
  ghost predicate GoodRun(o: Published, owned: seq<DeviceStatus>, uid: Uid) {
    && Disciplined(o.writes, owned, uid)
    && (o.ok <==> o.writes != [] && o.writes[|o.writes| - 1].reply.Accepted?)
    && (o.ok ==> var last := o.writes[|o.writes| - 1]; last.post == o.s && last.post != last.pre)
  }

  /** One more write. */
  lemma DisciplinedSnoc(made: seq<Write>, w: Write, owned: seq<DeviceStatus>, uid: Uid)
    requires Pending(made, w.copy, owned, uid)
    requires Candidate(w.copy, owned, uid) && LosesNothing(w, owned, uid)
    ensures Disciplined(made + [w], owned, uid)
    ensures Retryable(w, uid) ==> Pending(made + [w], NextCopy(w, owned), owned, uid)
  {
    var writes := made + [w];
    forall i | 0 <= i < |writes| - 1 ensures Continued(writes, i, owned) {
      assert i < |made| - 1 ==> Continued(made, i, owned);
    }
  }

  /** A run that ends with a final write. */
  lemma LastWriteGood(made: seq<Write>, w: Write, s: Server, owned: seq<DeviceStatus>, uid: Uid)
    requires Disciplined(made + [w], owned, uid)
    requires w.verdict == Succeeded <==> w.reply.Accepted?
    requires w.reply.Accepted? ==> w.post != w.pre && w.post == s
    ensures GoodRun(Published(s, w.verdict == Succeeded, made + [w]), owned, uid)
  {
  }

  /** The retry discipline, against any environment. */
  lemma {:induction false} PublishDisciplined(steps: nat, s: Server, copy: ClaimObject, owned: seq<DeviceStatus>,
                                              uid: Uid, turns: seq<Turn>, made: seq<Write>)
    requires InSync(s, copy) && Candidate(copy, owned, uid)
    requires forall d :: d in owned ==> d.driver == DRIVER_NAME
    requires Pending(made, copy, owned, uid)
    ensures GoodRun(Publish(steps, s, copy, owned, uid, turns, made), owned, uid)
    decreases steps
  {
    if steps != 0 && |made| < |turns| && !turns[|made|].cancelled {
      var a := TryUpdate(s, copy, owned, uid, turns[|made|]);
      AttemptKeepsSync(s, copy, owned, uid, turns[|made|]);
      VerdictExact(s, copy, owned, uid, turns[|made|]);
      DisciplinedSnoc(made, a.write, owned, uid);
      if a.write.verdict != TryAgain {
        LastWriteGood(made, a.write, a.s, owned, uid);
      } else {
        PublishDisciplined(steps - 1, a.s, a.copy, owned, uid, turns, made + [a.write]);
      }
    }
  }

  /** Why the loop ended without success: the steps ran out, the context was cancelled, or the last write was final. */
  ghost predicate Ended(o: Published, uid: Uid, turns: seq<Turn>, limit: nat) {
    || |o.writes| == limit
    || |o.writes| >= |turns|
    || turns[|o.writes|].cancelled
    || (o.writes != [] && !Retryable(o.writes[|o.writes| - 1], uid))
  }

  lemma {:induction false} PublishBounded(steps: nat, s: Server, copy: ClaimObject, owned: seq<DeviceStatus>, uid: Uid,
                                          turns: seq<Turn>, made: seq<Write>)
    ensures var o := Publish(steps, s, copy, owned, uid, turns, made);
            |o.writes| <= |made| + steps && (o.ok || Ended(o, uid, turns, |made| + steps))
    decreases steps
  {
    if steps != 0 && |made| < |turns| && !turns[|made|].cancelled {
      var a := TryUpdate(s, copy, owned, uid, turns[|made|]);
      VerdictExact(s, copy, owned, uid, turns[|made|]);
      if a.write.verdict == TryAgain {
        PublishBounded(steps - 1, a.s, a.copy, owned, uid, turns, made + [a.write]);
      }
    }
  }

  /** A write that the server handles normally while its copy is current. */
  predicate Undisturbed(w: Write, t: Turn) {
    t.update == Handled && Current(w.pre, w.copy)
  }

  /** The environment's turns are taken in order, and an undisturbed write is accepted. */
  lemma {:induction false} UndisturbedAccepted(steps: nat, s: Server, copy: ClaimObject, owned: seq<DeviceStatus>,
                                               uid: Uid, turns: seq<Turn>, made: seq<Write>)
    requires forall i :: 0 <= i < |made| && i < |turns| && Undisturbed(made[i], turns[i]) ==> made[i].reply.Accepted?
    ensures var writes := Publish(steps, s, copy, owned, uid, turns, made).writes;
            forall i :: 0 <= i < |writes| && i < |turns| && Undisturbed(writes[i], turns[i]) ==>
              writes[i].reply.Accepted?
    decreases steps
  {
    if steps != 0 && |made| < |turns| && !turns[|made|].cancelled {
      var a := TryUpdate(s, copy, owned, uid, turns[|made|]);
      if a.write.verdict == TryAgain {
        UndisturbedAccepted(steps - 1, a.s, a.copy, owned, uid, turns, made + [a.write]);
      }
    }
  }

  /** After a conflict, a retry on the refetched claim of the original UID is undisturbed unless others write again. */
  lemma RefetchedIsCurrent(s: Server, copy: ClaimObject, owned: seq<DeviceStatus>, uid: Uid, t: Turn, t': Turn)
    requires var a := TryUpdate(s, copy, owned, uid, t); a.write.refetch.Some? && a.write.verdict == TryAgain
    requires TryUpdate(s, copy, owned, uid, t).write.refetch.value.Fetched? && t'.before == [] && t'.update == Handled
    ensures var a := TryUpdate(s, copy, owned, uid, t); TryUpdate(a.s, a.copy, owned, uid, t').write.reply.Accepted?
  {
  }

  /** No lost updates: whatever other writers do between any two steps, at most five writes are made, and none is given
      up early; an undisturbed write is accepted; and after a successful update the server holds the claim of the
      original UID with exactly the entries snapshotted for this driver, and the allocation, the consumers and every
      other driver's entries as they stood immediately before that write. */
  lemma NoLostUpdates(s: Server, claim: ClaimObject, turns: seq<Turn>)
    requires InSync(s, claim)
    ensures var owned := Own(claim.status.devices, DRIVER_NAME);
            var o := PublishClaim(s, claim, turns);
            && |o.writes| <= 5
            && Disciplined(o.writes, owned, claim.uid)
            && (!o.ok ==> Ended(o, claim.uid, turns, 5))
            && (forall i :: 0 <= i < |o.writes| && i < |turns| && Undisturbed(o.writes[i], turns[i]) ==> o.ok)
            && (o.ok ==>
                  && o.writes != [] && o.s.obj.Some? && o.s.obj.value.uid == claim.uid
                  && Own(o.s.obj.value.status.devices, DRIVER_NAME) == owned
                  && var before := o.writes[|o.writes| - 1].pre.obj;
                  && before.Some?
                  && SameForeign(o.s.obj.value.status, before.value.status))
  {
    KeepMembers(claim.status.devices, DRIVER_NAME, true);
    PublishDisciplined(MAX_ATTEMPTS, s, claim, Own(claim.status.devices, DRIVER_NAME), claim.uid, turns, []);
    PublishBounded(MAX_ATTEMPTS, s, claim, Own(claim.status.devices, DRIVER_NAME), claim.uid, turns, []);
    UndisturbedAccepted(MAX_ATTEMPTS, s, claim, Own(claim.status.devices, DRIVER_NAME), claim.uid, turns, []);
  }
}
