/** The four stores a node holds for its claims, and the external calls that change them.

    Every external call may fail.  The failures of a run are a sequence `faults`: call number i fails
    when faults[i] holds, and calls past its end succeed, so each finite run meets every failure pattern
    for some `faults`.  `calls` counts the calls made so far.

    `leaked`, `broken` and `origin` are history: the resources whose latest cleanup call failed, the stored
    claims of which an unprepare that kept the entry removed something, and the claim each stored entry was
    prepared from. */
module Stores {
  import opened Kube

  type Faults = seq<bool>

  datatype PortParams = PortParams(
    claimUid: Uid, claimName: string, namespace: string, podName: string,
    vlan: Option<int>, ingressRate: nat, ingressBurst: nat, mtu: int)

  datatype PortRow = PortRow(bridge: string, socket: string, params: PortParams)

  datatype CdiDevice = CdiDevice(name: string, hostPath: string, containerPath: string)

  datatype Metadata = Metadata(vhostUserPath: string, mtu: int, rate: Option<nat>, burst: Option<nat>)

  /** The device as reported to the kubelet. */
  datatype KubeletDevice = KubeletDevice(
    request: PathName, pool: string, device: string, cdiId: string, metadata: Metadata)

  datatype PreparedDevice = PreparedDevice(
    device: KubeletDevice,
    claimUid: Uid, claimName: string, namespace: string,
    bridge: string, portName: string,
    hostDir: string, containerDir: string,
    hostSocket: string, containerSocket: string,
    portConfig: PortConfig)

  datatype Resource =
    | PortRes(bridge: string, name: string)
    | DirRes(path: string)
    | SpecRes(uid: Uid)

  /** What the two custom resources configure: the container root path, and the bridges by name. */
  datatype NodeConfig = NodeConfig(vhostRoot: Option<string>, allocatable: map<string, AllocatableDevice>)

  datatype World = World(
    ports: map<string, PortRow>,
    dirs: set<string>,
    specs: map<Uid, seq<CdiDevice>>,
    store: map<Uid, seq<PreparedDevice>>,
    config: NodeConfig,
    calls: nat,
    leaked: set<Resource>,
    broken: set<Uid>,
    origin: map<Uid, Claim>)

  predicate FailsAt(f: Faults, i: nat) {
    i < |f| && f[i]
  }

  /** The next call fails. */
  predicate Fails(f: Faults, w: World) {
    FailsAt(f, w.calls)
  }

  /** No call from number `first` up to `end` fails. */
  ghost predicate NoneFails(f: Faults, first: nat, end: nat) {
    forall i: nat :: first <= i < end ==> !FailsAt(f, i)
  }

  /** Some call from number `first` up to `end` succeeds. */
  ghost predicate AnySucceeds(f: Faults, first: nat, end: nat) {
    exists i: nat :: first <= i < end && !FailsAt(f, i)
  }

  function Tick(w: World): World {
    w.(calls := w.calls + 1)
  }

  datatype Outcome = Outcome(w: World, ok: bool)

  /** RemoveSocketDir: removing an absent directory succeeds. */
  function RemoveDir(f: Faults, w: World, path: string): Outcome {
    if Fails(f, w) then
      Outcome(Tick(w).(leaked := w.leaked + {DirRes(path)}), false)
    else
      Outcome(Tick(w).(dirs := w.dirs - {path}, leaked := w.leaked - {DirRes(path)}), true)
  }

  /** CreateSocketDir: make the directory, then set its permissions; a failed second step removes it again
      and drops the removal error. */
  function CreateDir(f: Faults, w: World, path: string): Outcome {
    if Fails(f, w) then Outcome(Tick(w), false)
    else
      var made := Tick(w).(dirs := w.dirs + {path});
      if Fails(f, made) then Outcome(RemoveDir(f, Tick(made), path).w, false)
      else Outcome(Tick(made), true)
  }

  /** CreatePort: one all-or-nothing transaction; port names are unique in OVS. */
  function CreatePort(f: Faults, w: World, name: string, row: PortRow): Outcome {
    if Fails(f, w) || name in w.ports then Outcome(Tick(w), false)
    else Outcome(Tick(w).(ports := w.ports[name := row]), true)
  }

  datatype DeleteAnswer = Deleted | PortNotFound | DeleteFailed

  datatype DeleteOutcome = DeleteOutcome(w: World, answer: DeleteAnswer)

  /** DeletePort: the port row is found by name and taken out of the named bridge only. */
  function DeletePort(f: Faults, w: World, bridge: string, name: string): DeleteOutcome {
    var r := PortRes(bridge, name);
    if Fails(f, w) then
      DeleteOutcome(Tick(w).(leaked := w.leaked + {r}), DeleteFailed)
    else
      var w' := Tick(w).(leaked := w.leaked - {r});
      if name !in w.ports then DeleteOutcome(w', PortNotFound)
      else if w.ports[name].bridge == bridge then DeleteOutcome(w'.(ports := w.ports - {name}), Deleted)
      else DeleteOutcome(w', Deleted)
  }

  /** CreateClaimSpecFile, once the devices of the spec are known. */
  function WriteSpec(f: Faults, w: World, uid: Uid, devices: seq<CdiDevice>): Outcome {
    if Fails(f, w) then Outcome(Tick(w), false)
    else Outcome(Tick(w).(specs := w.specs[uid := devices]), true)
  }

  /** DeleteClaimSpecFile: removing an absent spec succeeds. */
  function DeleteSpec(f: Faults, w: World, uid: Uid): Outcome {
    if Fails(f, w) then
      Outcome(Tick(w).(leaked := w.leaked + {SpecRes(uid)}), false)
    else
      Outcome(Tick(w).(specs := w.specs - {uid}, leaked := w.leaked - {SpecRes(uid)}), true)
  }

  datatype ReadOutcome = ReadOutcome(w: World, devices: Option<seq<PreparedDevice>>)

  /** claimStore.Get: None is a read error, an absent entry reads as the empty list. */
  function StoreGet(f: Faults, w: World, uid: Uid): ReadOutcome {
    if Fails(f, w) then ReadOutcome(Tick(w), None)
    else ReadOutcome(Tick(w), Some(if uid in w.store then w.store[uid] else []))
  }

  /** claimStore.Set of a prepared claim. */
  function StoreSet(f: Faults, w: World, claim: Claim, devices: seq<PreparedDevice>): Outcome {
    if Fails(f, w) then Outcome(Tick(w), false)
    else Outcome(Tick(w).(store := w.store[claim.uid := devices], origin := w.origin[claim.uid := claim]), true)
  }

  /** claimStore.Delete */
  function StoreDelete(f: Faults, w: World, uid: Uid): Outcome {
    if Fails(f, w) then Outcome(Tick(w), false)
    else Outcome(Tick(w).(store := w.store - {uid}, origin := w.origin - {uid}), true)
  }

  // ---------------------------------------------------------------------------
  // Resources
  // ---------------------------------------------------------------------------

  predicate Exists(w: World, r: Resource) {
    match r
    case PortRes(bridge, name) => name in w.ports && w.ports[name].bridge == bridge
    case DirRes(path) => path in w.dirs
    case SpecRes(uid) => uid in w.specs
  }

  function PortOf(d: PreparedDevice): Resource {
    PortRes(d.bridge, d.portName)
  }

  function DirOf(d: PreparedDevice): Resource {
    DirRes(d.hostDir)
  }

  function SpecOf(d: PreparedDevice): Resource {
    SpecRes(d.claimUid)
  }

  function ResourcesOf(d: PreparedDevice): set<Resource> {
    {PortOf(d), DirOf(d), SpecOf(d)}
  }

  function AllResources(ds: seq<PreparedDevice>): (all: set<Resource>)
    ensures forall r :: r in all <==> exists d :: d in ds && r in ResourcesOf(d)
  {
    set d, r | d in ds && r in ResourcesOf(d) :: r
  }

  function StoreResources(store: map<Uid, seq<PreparedDevice>>): (all: set<Resource>)
    ensures forall r :: r in all <==> exists u :: u in store && r in AllResources(store[u])
  {
    set u, r | u in store && r in AllResources(store[u]) :: r
  }
}
