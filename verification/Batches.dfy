/** What a caller of the two handlers can rely on: batches, retries and the round trip. */
module Batches {
  import opened Kube
  import opened Stores
  import opened Lifecycle
  import opened Handlers

  // ---------------------------------------------------------------------------
  // Prepare batches
  // ---------------------------------------------------------------------------

  /** A stored or repeated claim is answered from the store: no effect, and no status write. */
  lemma StoredClaimIsCached(f: Faults, w: World, claim: Claim)
    requires claim.uid in w.store && w.store[claim.uid] != []
    ensures var o := PrepareOne(f, w, claim);
            && o.w == Tick(w) && o.notice == None
            && (FailsAt(f, w.calls) ==> o.answer == StoreReadError)
            && (!FailsAt(f, w.calls) ==> o.answer == PrepareAnswered(w.store[claim.uid]))
  {
  }

  /** A prepare never changes a stored entry, and its answer is exactly what is stored afterwards. */
  lemma PrepareOneStore(f: Faults, w: World, claim: Claim)
    ensures var o := PrepareOne(f, w, claim);
            && (forall u :: u in w.store && w.store[u] != [] ==> u in o.w.store && o.w.store[u] == w.store[u])
            && (o.answer.PrepareAnswered? ==>
                  && claim.uid in o.w.store && o.w.store[claim.uid] == o.answer.devices && o.answer.devices != []
                  && (o.notice.Some? <==> claim.uid !in w.store || w.store[claim.uid] == []))
            && (!o.answer.PrepareAnswered? ==> o.w.store == w.store && o.notice == None)
  {
    PrepareClaimFrame(f, Tick(w), claim);
    SavePreparedStore(f, claim, PrepareClaim(f, Tick(w), claim));
  }

  lemma SavePreparedStore(f: Faults, claim: Claim, p: Prepared)
    requires p.devices.Some? ==> p.devices.value != []
    ensures var o := SavePrepared(f, claim, p);
            if o.answer.PrepareAnswered? then
              && o.w.store == p.w.store[claim.uid := o.answer.devices] && o.answer.devices != [] && o.notice.Some?
            else o.w.store == p.w.store && o.notice == None
  {
    if p.devices.Some? {
      UnprepareAllFrame(f, Tick(p.w), p.devices.value);
    }
  }

  /** One-claim batches in order, up to the first failure. */
  function Singles(f: Faults, w: World, claims: seq<Claim>): PreparedBatch
    decreases claims
  {
    if claims == [] then PreparedBatch(w, Some(map[]), false, [])
    else
      var one := PrepareBatch(f, w, [claims[0]], map[], []);
      if one.failed then one
      else
        var rest := Singles(f, one.w, claims[1..]);
        PreparedBatch(rest.w,
                      if rest.results.Some? && one.results.Some? then Some(one.results.value + rest.results.value)
                      else None,
                      rest.failed, one.notices + rest.notices)
  }

  /** `batch` is `singles` on top of what was gathered before. */
  ghost predicate Extends(batch: PreparedBatch, singles: PreparedBatch, results: map<Uid, PrepareResult>,
                          notices: seq<Claim>) {
    && batch.w == singles.w
    && batch.failed == singles.failed
    && batch.notices == notices + singles.notices
    && batch.results == (if singles.results.Some? then Some(results + singles.results.value) else None)
  }

  /** One more claim in front. */
  function Prepend(uid: Uid, r: PrepareResult, n: seq<Claim>, rest: PreparedBatch): PreparedBatch {
    PreparedBatch(rest.w, if rest.results.Some? then Some(map[uid := r] + rest.results.value) else None, rest.failed,
                  n + rest.notices)
  }

  lemma ExtendsPrepend(batch: PreparedBatch, rest: PreparedBatch, results: map<Uid, PrepareResult>, notices: seq<Claim>,
                       uid: Uid, r: PrepareResult, n: seq<Claim>)
    requires Extends(batch, rest, results[uid := r], notices + n)
    ensures Extends(batch, Prepend(uid, r, n, rest), results, notices)
  {
    assert notices + n + rest.notices == notices + (n + rest.notices);
    if rest.results.Some? {
      MergeOne(results, uid, r, rest.results.value);
    }
  }

  lemma SinglesStep(f: Faults, w: World, claims: seq<Claim>, o: PreparedOne)
    requires claims != [] && o == PrepareOne(f, w, claims[0])
    ensures o.answer.PrepareAnswered? ==>
              Singles(f, w, claims) == Prepend(claims[0].uid, Report(o.answer.devices), NoticeList(o),
                                               Singles(f, o.w, claims[1..]))
    ensures !o.answer.PrepareAnswered? ==> Singles(f, w, claims) == PrepareBatch(f, w, [claims[0]], map[], [])
  {
    SingleBatch(f, w, claims[0], o);
  }

  /** A batch has the effect, the results and the status writes of its claims taken one at a time. */
  lemma {:induction false} BatchIsSingles(f: Faults, w: World, claims: seq<Claim>,
                                          results: map<Uid, PrepareResult>, notices: seq<Claim>)
    ensures Extends(PrepareBatch(f, w, claims, results, notices), Singles(f, w, claims), results, notices)
    decreases claims
  {
    if claims == [] {
      assert results + map[] == results && notices + [] == notices;
    } else {
      var o := PrepareOne(f, w, claims[0]);
      SinglesStep(f, w, claims, o);
      if o.answer.PrepareAnswered? {
        var r, n := Report(o.answer.devices), NoticeList(o);
        BatchStep(f, w, claims, results, notices, o);
        BatchIsSingles(f, o.w, claims[1..], results[claims[0].uid := r], notices + n);
        ExtendsPrepend(PrepareBatch(f, w, claims, results, notices), Singles(f, o.w, claims[1..]), results, notices,
                       claims[0].uid, r, n);
      } else {
        StoppedExtends(f, w, claims, results, notices, o);
      }
    }
  }

  lemma StoppedExtends(f: Faults, w: World, claims: seq<Claim>, results: map<Uid, PrepareResult>, notices: seq<Claim>,
                       o: PreparedOne)
    requires claims != [] && o == PrepareOne(f, w, claims[0]) && !o.answer.PrepareAnswered?
    ensures Extends(PrepareBatch(f, w, claims, results, notices), PrepareBatch(f, w, [claims[0]], map[], []), results,
                    notices)
  {
    SingleBatch(f, w, claims[0], o);
    assert notices + [] == notices;
    assert results[claims[0].uid := PrepareError] == results + map[claims[0].uid := PrepareError];
  }

  lemma MergeOne(results: map<Uid, PrepareResult>, uid: Uid, r: PrepareResult, rest: map<Uid, PrepareResult>)
    ensures results[uid := r] + rest == results + (map[uid := r] + rest)
  {
  }

  lemma SingleBatch(f: Faults, w: World, c: Claim, o: PreparedOne)
    requires o == PrepareOne(f, w, c)
    ensures PrepareBatch(f, w, [c], map[], [])
         == match o.answer
            case StoreReadError => PreparedBatch(o.w, None, true, [])
            case PrepareRefused => PreparedBatch(o.w, Some(map[c.uid := PrepareError]), true, [])
            case PrepareAnswered(ds) => PreparedBatch(o.w, Some(map[c.uid := Report(ds)]), false, NoticeList(o))
  {
    assert [c][1..] == [];
    if o.answer.PrepareAnswered? {
      BatchStep(f, w, [c], map[], [], o);
    }
  }

  function UidsOf(claims: seq<Claim>): (uids: set<Uid>)
  {
    set c | c in claims :: c.uid
  }

  /** Every Ready result reports what is stored. */
  ghost predicate ResultsStored(w: World, results: map<Uid, PrepareResult>) {
    forall u :: u in results && results[u].Ready? ==>
      u in w.store && w.store[u] != [] && results[u] == Report(w.store[u])
  }

  /** A returned result map covers exactly the first k claims, reports stored devices, and holds an error for at most
      the last of them, where the batch stopped. */
  ghost predicate Processed(out: PreparedBatch, claims: seq<Claim>, before: set<Uid>, k: nat) {
    out.results.Some? ==>
      var results := out.results.value;
      && k <= |claims|
      && results.Keys == before + UidsOf(claims[..k])
      && ResultsStored(out.w, results)
      && (!out.failed ==> k == |claims|)
      && (out.failed ==> k > 0 && claims[k - 1].uid in results && results[claims[k - 1].uid] == PrepareError)
      && (forall u :: u in results && results[u] == PrepareError ==> out.failed && u == claims[k - 1].uid)
  }

  lemma {:induction false} BatchResults(f: Faults, w: World, claims: seq<Claim>,
                                        results: map<Uid, PrepareResult>, notices: seq<Claim>) returns (k: nat)
    requires ResultsStored(w, results) && forall u :: u in results ==> results[u].Ready?
    ensures Processed(PrepareBatch(f, w, claims, results, notices), claims, results.Keys, k)
    decreases claims
  {
    if claims == [] {
      ProcessedNone(w, results, notices);
      k := 0;
    } else if !PrepareOne(f, w, claims[0]).answer.PrepareAnswered? {
      BatchStops(f, w, claims, results, notices);
      k := 1;
    } else {
      var o := PrepareOne(f, w, claims[0]);
      AnsweredStored(f, w, claims[0], results, o);
      k := BatchResults(f, o.w, claims[1..], results[claims[0].uid := Report(o.answer.devices)],
                        notices + NoticeList(o));
      ProcessedStep(f, w, claims, results, notices, o, k);
      k := k + 1;
    }
  }

  lemma AnsweredStored(f: Faults, w: World, claim: Claim, results: map<Uid, PrepareResult>, o: PreparedOne)
    requires o == PrepareOne(f, w, claim) && o.answer.PrepareAnswered? && ResultsStored(w, results)
    ensures ResultsStored(o.w, results[claim.uid := Report(o.answer.devices)])
  {
    PrepareOneStore(f, w, claim);
    AnswerStored(w, o.w, claim.uid, o.answer.devices, results);
  }

  lemma ProcessedStep(f: Faults, w: World, claims: seq<Claim>, results: map<Uid, PrepareResult>, notices: seq<Claim>,
                      o: PreparedOne, k: nat)
    requires claims != [] && o == PrepareOne(f, w, claims[0]) && o.answer.PrepareAnswered?
    requires var results' := results[claims[0].uid := Report(o.answer.devices)];
             Processed(PrepareBatch(f, o.w, claims[1..], results', notices + NoticeList(o)), claims[1..],
                       results'.Keys, k)
    ensures Processed(PrepareBatch(f, w, claims, results, notices), claims, results.Keys, k + 1)
  {
    BatchStep(f, w, claims, results, notices, o);
    ProcessedCons(PrepareBatch(f, w, claims, results, notices), claims, results.Keys, k);
  }

  lemma ProcessedNone(w: World, results: map<Uid, PrepareResult>, notices: seq<Claim>)
    requires ResultsStored(w, results) && forall u :: u in results ==> results[u].Ready?
    ensures Processed(PreparedBatch(w, Some(results), false, notices), [], results.Keys, 0)
  {
  }

  lemma AnswerStored(w: World, w': World, uid: Uid, ds: seq<PreparedDevice>, results: map<Uid, PrepareResult>)
    requires ResultsStored(w, results)
    requires forall u :: u in w.store && w.store[u] != [] ==> u in w'.store && w'.store[u] == w.store[u]
    requires uid in w'.store && w'.store[uid] == ds && ds != []
    ensures ResultsStored(w', results[uid := Report(ds)])
  {
  }

  lemma BatchStops(f: Faults, w: World, claims: seq<Claim>, results: map<Uid, PrepareResult>, notices: seq<Claim>)
    requires ResultsStored(w, results) && forall u :: u in results ==> results[u].Ready?
    requires claims != [] && !PrepareOne(f, w, claims[0]).answer.PrepareAnswered?
    ensures Processed(PrepareBatch(f, w, claims, results, notices), claims, results.Keys, 1)
  {
    PrepareOneStore(f, w, claims[0]);
    assert claims[..1] == [claims[0]];
  }

  lemma ProcessedCons(out: PreparedBatch, claims: seq<Claim>, before: set<Uid>, k: nat)
    requires claims != [] && Processed(out, claims[1..], before + {claims[0].uid}, k)
    ensures Processed(out, claims, before, k + 1)
  {
    UidsCons(claims, k);
  }

  lemma UidsCons(claims: seq<Claim>, k: nat)
    requires claims != []
    ensures k < |claims| ==> UidsOf(claims[..k + 1]) == {claims[0].uid} + UidsOf(claims[1..][..k])
  {
    if k < |claims| {
      assert claims[..k + 1] == [claims[0]] + claims[1..][..k];
    }
  }

  // ---------------------------------------------------------------------------
  // Where a batch stops
  // ---------------------------------------------------------------------------

  /** One-claim calls from w answer the first k claims with their devices; there the batch ends as `out`: either no
      claim is left, or the next one is not answered, which is an error, with a result map for the claims so far unless
      it was the claim store that could not be read. */
  ghost predicate EndsAfter(f: Faults, w: World, claims: seq<Claim>, out: PreparedBatch, k: nat)
    decreases k
  {
    if claims == [] then k == 0 && out.w == w && !out.failed && out.results.Some?
    else
      var o := PrepareOne(f, w, claims[0]);
      if k > 0 then o.answer.PrepareAnswered? && EndsAfter(f, o.w, claims[1..], out, k - 1)
      else
        && !o.answer.PrepareAnswered? && out.w == o.w && out.failed
        && out.results.Some? == o.answer.PrepareRefused?
        && (out.results.Some? ==>
              claims[0].uid in out.results.value && out.results.value[claims[0].uid] == PrepareError)
  }

  lemma {:induction false} BatchStopsExactly(f: Faults, w: World, claims: seq<Claim>,
                                             results: map<Uid, PrepareResult>, notices: seq<Claim>) returns (k: nat)
    ensures EndsAfter(f, w, claims, PrepareBatch(f, w, claims, results, notices), k)
    decreases claims
  {
    k := 0;
    if claims != [] {
      var o := PrepareOne(f, w, claims[0]);
      if o.answer.PrepareAnswered? {
        BatchStep(f, w, claims, results, notices, o);
        k := BatchStopsExactly(f, o.w, claims[1..], results[claims[0].uid := Report(o.answer.devices)],
                               notices + NoticeList(o));
        k := k + 1;
      } else {
        BatchHalts(f, w, claims, results, notices);
      }
    }
  }

  /** One-claim calls from w get past the first k claims, a failed cleanup included; there the batch ends as `out`: with
      results if no claim is left, and without any if an entry could not be read or deleted. */
  ghost predicate UnprepareEndsAfter(f: Faults, w: World, uids: seq<Uid>, out: UnpreparedBatch, k: nat)
    decreases k
  {
    if uids == [] then k == 0 && out.w == w && out.results.Some?
    else
      var o := UnprepareOne(f, w, uids[0]);
      var stops := o.answer == UnprepareReadError || o.answer == EntryDeleteError;
      if k > 0 then !stops && UnprepareEndsAfter(f, o.w, uids[1..], out, k - 1)
      else stops && out.w == o.w && out.results == None
  }

  lemma {:induction false} UnprepareBatchExactly(f: Faults, w: World, uids: seq<Uid>, results: map<Uid, bool>)
    returns (k: nat)
    ensures UnprepareEndsAfter(f, w, uids, UnprepareBatch(f, w, uids, results), k)
    decreases uids
  {
    k := 0;
    if uids != [] {
      var o := UnprepareOne(f, w, uids[0]);
      UnprepareBatchStep(f, w, uids, results, o);
      if Continues(o.answer) {
        k := UnprepareBatchExactly(f, o.w, uids[1..], results[uids[0] := o.answer != CleanupFailed]);
        k := k + 1;
      }
    }
  }

  /** A batch that returns results has one for every claim listed, and leaves earlier ones alone. */
  lemma {:induction false} UnprepareResultKeys(f: Faults, w: World, uids: seq<Uid>, results: map<Uid, bool>)
    requires UnprepareBatch(f, w, uids, results).results.Some?
    ensures var out := UnprepareBatch(f, w, uids, results).results.value;
            && (forall u :: u in out <==> u in results || u in uids)
            && (forall u :: u in results && u !in uids ==> out[u] == results[u])
    decreases uids
  {
    if uids != [] {
      var o := UnprepareOne(f, w, uids[0]);
      UnprepareBatchStep(f, w, uids, results, o);
      UnprepareResultKeys(f, o.w, uids[1..], results[uids[0] := o.answer != CleanupFailed]);
      assert uids == [uids[0]] + uids[1..];
    }
  }

  ghost function UnpreparedAfter(f: Faults, w: World, uids: seq<Uid>, k: nat): World
    requires k <= |uids|
    decreases k
  {
    if k == 0 then w else UnpreparedAfter(f, UnprepareOne(f, w, uids[0]).w, uids[1..], k - 1)
  }

  /** A claim's result is nil exactly when its cleanup did not fail; if it is listed twice, the last attempt counts. */
  lemma {:induction false} UnprepareResultExactly(f: Faults, w: World, uids: seq<Uid>, results: map<Uid, bool>, i: nat)
    requires UnprepareBatch(f, w, uids, results).results.Some?
    requires i < |uids| && forall j :: i < j < |uids| ==> uids[j] != uids[i]
    ensures var out := UnprepareBatch(f, w, uids, results).results.value;
            && uids[i] in out
            && (out[uids[i]] <==> UnprepareOne(f, UnpreparedAfter(f, w, uids, i), uids[i]).answer != CleanupFailed)
    decreases uids
  {
    var o, rest := UnprepareOne(f, w, uids[0]), uids[1..];
    var results' := results[uids[0] := o.answer != CleanupFailed];
    UnprepareBatchStep(f, w, uids, results, o);
    if i > 0 {
      UnprepareResultExactly(f, o.w, rest, results', i - 1);
    } else {
      UnprepareResultKeys(f, o.w, rest, results');
      assert uids[0] !in rest;
    }
  }
}
