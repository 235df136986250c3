/** ResourceClaim.status.devices as a keyed list shared by several drivers. */
module StatusList {
  import opened Kube

  datatype StatusKey = StatusKey(driver: string, pool: string, device: string, shareId: string)

  /** keyOf: an absent share ID and an empty one are the same key. */
  function KeyOf(s: DeviceStatus): StatusKey {
    StatusKey(s.driver, s.pool, s.device, if s.shareId.Some? then s.shareId.value else "")
  }

  /** Two entries share a key exactly when driver, pool, device and share ID agree, no share ID being as good as an
      empty one. */
  lemma KeyExact(a: DeviceStatus, b: DeviceStatus)
    ensures KeyOf(a) == KeyOf(b)
       <==> && a.driver == b.driver && a.pool == b.pool && a.device == b.device
            && (|| a.shareId == b.shareId
                || (a.shareId == None && b.shareId == Some(""))
                || (a.shareId == Some("") && b.shareId == None))
  {
  }

  /** Position of the first entry with this key, or the length of the list. */
  function FirstIndex(list: seq<DeviceStatus>, key: StatusKey): (i: nat)
    ensures i <= |list|
    ensures i < |list| ==> KeyOf(list[i]) == key
    ensures forall j :: 0 <= j < i ==> KeyOf(list[j]) != key
  {
    if list == [] then 0
    else if KeyOf(list[0]) == key then 0
    else 1 + FirstIndex(list[1..], key)
  }

  function Upsert(list: seq<DeviceStatus>, s: DeviceStatus): seq<DeviceStatus> {
    var i := FirstIndex(list, KeyOf(s));
    if i < |list| then list[i := s] else list + [s]
  }

  /** upsertDeviceStatus */
  method UpsertDeviceStatus(list: seq<DeviceStatus>, status: DeviceStatus) returns (result: seq<DeviceStatus>)
    ensures result == Upsert(list, status)
  {
    var key := KeyOf(status);
    for i := 0 to |list|
      invariant forall j :: 0 <= j < i ==> KeyOf(list[j]) != key
    {
      if KeyOf(list[i]) == key {
        return list[i := status];
      }
    }
    return list + [status];
  }

  /** The upserts of one prepare, in order. */
  function UpsertAll(list: seq<DeviceStatus>, updates: seq<DeviceStatus>): seq<DeviceStatus> {
    if updates == [] then list
    else Upsert(UpsertAll(list, updates[..|updates| - 1]), updates[|updates| - 1])
  }

  ghost predicate DistinctKeys(list: seq<DeviceStatus>) {
    forall i, j :: 0 <= i < j < |list| ==> KeyOf(list[i]) != KeyOf(list[j])
  }

  ghost predicate HasKey(list: seq<DeviceStatus>, key: StatusKey) {
    exists i :: 0 <= i < |list| && KeyOf(list[i]) == key
  }

  /** The entry a reader of the list finds under a key. */
  function Lookup(list: seq<DeviceStatus>, key: StatusKey): Option<DeviceStatus> {
    var i := FirstIndex(list, key);
    if i < |list| then Some(list[i]) else None
  }

  /** The last update for a key: the reference the fold is compared with. */
  function LastUpdate(updates: seq<DeviceStatus>, key: StatusKey): Option<DeviceStatus> {
    if updates == [] then None
    else
      var n := |updates| - 1;
      if KeyOf(updates[n]) == key then Some(updates[n]) else LastUpdate(updates[..n], key)
  }

  lemma FirstIndexUnique(list: seq<DeviceStatus>, key: StatusKey, i: nat)
    requires i < |list| && KeyOf(list[i]) == key
    requires forall j :: 0 <= j < i ==> KeyOf(list[j]) != key
    ensures FirstIndex(list, key) == i
  {
  }

  lemma LookupAfterUpsert(list: seq<DeviceStatus>, s: DeviceStatus, key: StatusKey)
    ensures Lookup(Upsert(list, s), key) == if key == KeyOf(s) then Some(s) else Lookup(list, key)
  {
    var i := FirstIndex(list, KeyOf(s));
    var list' := Upsert(list, s);
    if key == KeyOf(s) {
      FirstIndexUnique(list', key, i);
    } else {
      var k := FirstIndex(list, key);
      if k < |list| {
        FirstIndexUnique(list', key, k);
      }
    }
  }

  /** Keyed-map law of the whole fold: the last update of a key wins, untouched keys keep their entry. */
  lemma {:induction false} UpsertAllIsKeyedMap(list: seq<DeviceStatus>, updates: seq<DeviceStatus>, key: StatusKey)
    ensures Lookup(UpsertAll(list, updates), key)
         == if LastUpdate(updates, key).Some? then LastUpdate(updates, key) else Lookup(list, key)
  {
    if updates != [] {
      var n := |updates| - 1;
      UpsertAllIsKeyedMap(list, updates[..n], key);
      LookupAfterUpsert(UpsertAll(list, updates[..n]), updates[n], key);
    }
  }

  /** An update that no later one shares its key with is the last of its key. */
  lemma {:induction false} LastUpdateAt(updates: seq<DeviceStatus>, i: nat)
    requires i < |updates| && forall j :: i < j < |updates| ==> KeyOf(updates[j]) != KeyOf(updates[i])
    ensures LastUpdate(updates, KeyOf(updates[i])) == Some(updates[i])
  {
    var n := |updates| - 1;
    if i < n {
      LastUpdateAt(updates[..n], i);
      assert KeyOf(updates[n]) != KeyOf(updates[i]);
    }
  }

  lemma {:induction false} NoUpdateFor(updates: seq<DeviceStatus>, key: StatusKey)
    requires forall i :: 0 <= i < |updates| ==> KeyOf(updates[i]) != key
    ensures LastUpdate(updates, key) == None
  {
    if updates != [] {
      NoUpdateFor(updates[..|updates| - 1], key);
    }
  }

  lemma HasKeyPrefix(updates: seq<DeviceStatus>, n: nat, key: StatusKey)
    requires n < |updates|
    ensures HasKey(updates, key) <==> HasKey(updates[..n], key) || HasKey(updates[n..], key)
    ensures HasKey(updates, KeyOf(updates[n]))
  {
    if i :| 0 <= i < |updates| && KeyOf(updates[i]) == key {
      assert if i < n then KeyOf(updates[..n][i]) == key else KeyOf(updates[n..][i - n]) == key;
    }
    if HasKey(updates[..n], key) {
      var i :| 0 <= i < n && KeyOf(updates[..n][i]) == key;
      assert KeyOf(updates[i]) == key;
    }
    if HasKey(updates[n..], key) {
      var i :| 0 <= i < |updates| - n && KeyOf(updates[n..][i]) == key;
      assert KeyOf(updates[n + i]) == key;
    }
  }

  lemma {:induction false} UpsertAllKeepsDistinct(list: seq<DeviceStatus>, updates: seq<DeviceStatus>)
    requires DistinctKeys(list)
    ensures DistinctKeys(UpsertAll(list, updates))
  {
    if updates != [] {
      UpsertAllKeepsDistinct(list, updates[..|updates| - 1]);
    }
  }

  /** No entry moves, and entries under keys that are not updated stay identical. */
  lemma {:induction false} UpsertAllKeepsPositions(list: seq<DeviceStatus>, updates: seq<DeviceStatus>)
    ensures var list' := UpsertAll(list, updates);
            && |list| <= |list'|
            && (forall i :: 0 <= i < |list| ==> KeyOf(list'[i]) == KeyOf(list[i]))
            && (forall i :: 0 <= i < |list| && !HasKey(updates, KeyOf(list[i])) ==> list'[i] == list[i])
  {
    if updates != [] {
      var n := |updates| - 1;
      UpsertAllKeepsPositions(list, updates[..n]);
      var mid, list' := UpsertAll(list, updates[..n]), UpsertAll(list, updates);
      var k := FirstIndex(mid, KeyOf(updates[n]));
      forall i | 0 <= i < |list| && !HasKey(updates, KeyOf(list[i])) ensures list'[i] == list[i] {
        HasKeyPrefix(updates, n, KeyOf(list[i]));
        assert i != k;
      }
    }
  }

  /** Appended entries answer an update, under a key the list did not have. */
  lemma {:induction false} UpsertAllAppendsUpdates(list: seq<DeviceStatus>, updates: seq<DeviceStatus>, i: nat)
    requires |list| <= i < |UpsertAll(list, updates)|
    ensures var key := KeyOf(UpsertAll(list, updates)[i]); HasKey(updates, key) && !HasKey(list, key)
  {
    if updates != [] {
      var n := |updates| - 1;
      var mid := UpsertAll(list, updates[..n]);
      UpsertAllKeepsPositions(list, updates[..n]);
      HasKeyPrefix(updates, n, KeyOf(UpsertAll(list, updates)[i]));
      if i < |mid| {
        UpsertAllAppendsUpdates(list, updates[..n], i);
      } else {
        assert forall j :: 0 <= j < |list| ==> KeyOf(list[j]) == KeyOf(mid[j]);
      }
    }
  }

  // ---------------------------------------------------------------------------
  // One driver's entries and everybody else's
  // ---------------------------------------------------------------------------

  /** The entries of `driver` (same) or of every other driver (!same), in order. */
  function Keep(list: seq<DeviceStatus>, driver: string, same: bool): (kept: seq<DeviceStatus>)
  {
    if list == [] then []
    else
      var n := |list| - 1;
      Keep(list[..n], driver, same) + if (list[n].driver == driver) == same then [list[n]] else []
  }

  function Own(list: seq<DeviceStatus>, driver: string): (own: seq<DeviceStatus>) {
    Keep(list, driver, true)
  }

  function Others(list: seq<DeviceStatus>, driver: string): (others: seq<DeviceStatus>) {
    Keep(list, driver, false)
  }

  /** filterDevicesByDriver */
  method FilterDevicesByDriver(devices: seq<DeviceStatus>, driver: string) returns (filtered: seq<DeviceStatus>)
    ensures filtered == Own(devices, driver)
  {
    filtered := [];
    for i := 0 to |devices|
      invariant filtered == Own(devices[..i], driver)
    {
      assert devices[..i + 1][..i] == devices[..i];
      if devices[i].driver == driver {
        filtered := filtered + [devices[i]];
      }
    }
    assert devices[..|devices|] == devices;
  }

  /** mergeDeviceStatus */
  method MergeDeviceStatus(target: seq<DeviceStatus>, owned: seq<DeviceStatus>, driver: string)
    returns (merged: seq<DeviceStatus>)
    ensures merged == Others(target, driver) + owned
  {
    merged := [];
    for i := 0 to |target|
      invariant merged == Others(target[..i], driver)
    {
      assert target[..i + 1][..i] == target[..i];
      if target[i].driver != driver {
        merged := merged + [target[i]];
      }
    }
    assert target[..|target|] == target;
    merged := merged + owned;
  }

  lemma {:induction false} KeepMembers(list: seq<DeviceStatus>, driver: string, same: bool)
    ensures forall s :: s in Keep(list, driver, same) <==> s in list && (s.driver == driver) == same
  {
    if list != [] {
      var n := |list| - 1;
      KeepMembers(list[..n], driver, same);
      assert list == list[..n] + [list[n]];
    }
  }

  lemma {:induction false} KeepConcat(a: seq<DeviceStatus>, b: seq<DeviceStatus>, driver: string, same: bool)
    ensures Keep(a + b, driver, same) == Keep(a, driver, same) + Keep(b, driver, same)
  {
    if b == [] {
      assert a + b == a;
    } else {
      var n := |b| - 1;
      KeepConcat(a, b[..n], driver, same);
      var ab, m := a + b, |a + b| - 1;
      assert ab[..m] == a + b[..n] && ab[m] == b[n];
    }
  }

  lemma {:induction false} KeepUniform(list: seq<DeviceStatus>, driver: string, same: bool)
    requires forall s :: s in list ==> (s.driver == driver) == same
    ensures Keep(list, driver, same) == list && Keep(list, driver, !same) == []
  {
    if list != [] {
      var n := |list| - 1;
      KeepUniform(list[..n], driver, same);
    }
  }

  /** A merge keeps every other driver's entries in order and holds exactly the owned entries for this driver. */
  lemma MergeSeparates(target: seq<DeviceStatus>, owned: seq<DeviceStatus>, driver: string)
    requires forall s :: s in owned ==> s.driver == driver
    ensures Others(Others(target, driver) + owned, driver) == Others(target, driver)
    ensures Own(Others(target, driver) + owned, driver) == owned
  {
    KeepConcat(Others(target, driver), owned, driver, false);
    KeepConcat(Others(target, driver), owned, driver, true);
    KeepMembers(target, driver, false);
    KeepUniform(Others(target, driver), driver, false);
    KeepUniform(owned, driver, true);
  }

  /** Upserting entries of one driver never disturbs the others' entries or their order. */
  lemma UpsertKeepsOthers(list: seq<DeviceStatus>, s: DeviceStatus)
    ensures Others(Upsert(list, s), s.driver) == Others(list, s.driver)
  {
    var i := FirstIndex(list, KeyOf(s));
    if i < |list| {
      var a, x, b := list[..i], list[i], list[i + 1..];
      assert list == a + ([x] + b) && list[i := s] == a + ([s] + b);
      OthersAround(a, x, b, s.driver);
      OthersAround(a, s, b, s.driver);
    } else {
      KeepConcat(list, [s], s.driver, false);
      KeepUniform([s], s.driver, true);
    }
  }

  lemma OthersAround(a: seq<DeviceStatus>, x: DeviceStatus, b: seq<DeviceStatus>, driver: string)
    requires x.driver == driver
    ensures Others(a + ([x] + b), driver) == Others(a, driver) + Others(b, driver)
  {
    KeepConcat(a, [x] + b, driver, false);
    KeepConcat([x], b, driver, false);
    KeepUniform([x], driver, true);
  }

  lemma {:induction false} UpsertAllKeepsOthers(list: seq<DeviceStatus>, updates: seq<DeviceStatus>, driver: string)
    requires forall s :: s in updates ==> s.driver == driver
    ensures Others(UpsertAll(list, updates), driver) == Others(list, driver)
  {
    if updates != [] {
      var n := |updates| - 1;
      UpsertAllKeepsOthers(list, updates[..n], driver);
      UpsertKeepsOthers(UpsertAll(list, updates[..n]), updates[n]);
    }
  }
}
