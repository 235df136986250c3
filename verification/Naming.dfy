/** The names and paths the driver derives, and when two of them can coincide. */
module Naming {
  import opened Kube

  const HOST_ROOT: string := "/var/run/ovsdpdk"
  const DEFAULT_CONTAINER_ROOT: string := "/var/run/ovsdpdk"
  const VHOST_SOCKET: PathName := "vhost.sock"
  const TOPOLOGY_PREFIX: string := DRIVER_NAME + "/"
  const CDI_KIND: string := DRIVER_NAME + "/vhost-user"
  const DEVICE_PLUGIN_DIR: string := "/var/lib/kubelet/device-plugins"

  /** filepath.Join onto a clean directory other than "/". */
  function Join(dir: string, elem: PathName): (path: string)
  {
    dir + "/" + elem
  }

  function PodClaimName(claim: Claim): (name: PathName)
    ensures claim.podClaimAnnotation != "" ==> name == claim.podClaimAnnotation
    ensures claim.podClaimAnnotation == "" ==> name == claim.name
  {
    if claim.podClaimAnnotation == "" then claim.name else claim.podClaimAnnotation
  }

  function Prefix8(uid: Uid): (p: string)
    ensures |p| == 8
  {
    HexDigits(uid)[..8]
  }

  function OvsPortName(uid: Uid, request: string): (name: string)
  {
    Prefix8(uid) + "-" + request
  }

  /** The last element of a socket directory. */
  function SocketDirName(podUid: PathElement, podClaim: PathElement, request: PathElement): (name: PathName)
  {
    var name := podUid + "_" + podClaim + "_" + request;
    assert name[|podUid|] == '_';
    name
  }

  function SocketDir(podUid: PathElement, podClaim: PathElement, request: PathElement): (dir: string)
  {
    Join(HOST_ROOT, SocketDirName(podUid, podClaim, request))
  }

  function ContainerDir(root: string, podClaim: PathName, request: PathName): (dir: string)
  {
    Join(Join(root, podClaim), request)
  }

  /** The part of a CDI device name that varies within a claim. */
  function ComposedName(device: string, request: string): (name: string)
  {
    device + "-" + request
  }

  /** The unqualified CDI device name. */
  function CdiName(uid: Uid, device: string, request: string): (name: string)
  {
    uid + "-" + ComposedName(device, request)
  }

  function QualifiedName(name: string): (id: string)
  {
    CDI_KIND + "=" + name
  }

  function DeviceId(uid: Uid, device: string, request: string): (id: string)
  {
    QualifiedName(CdiName(uid, device, request))
  }

  function ResourceName(suffix: string): (resource: string)
  {
    TOPOLOGY_PREFIX + suffix
  }

  function AfterLastSlash(s: string): (suffix: string)
    ensures '/' !in suffix
  {
    if s == "" || s[|s| - 1] == '/' then "" else AfterLastSlash(s[..|s| - 1]) + [s[|s| - 1]]
  }

  function PluginSocketPath(resource: string): (path: string)
  {
    var file := AfterLastSlash(resource) + ".sock";
    assert file[|file| - 1] == 'k';
    Join(DEVICE_PLUGIN_DIR, file)
  }

  lemma {:induction false} HexDigitsConcat(a: string, b: string)
    ensures HexDigits(a + b) == HexDigits(a) + HexDigits(b)
  {
    if a == "" {
      assert a + b == b;
    } else {
      assert (a + b)[0] == a[0] && (a + b)[1..] == a[1..] + b;
      HexDigitsConcat(a[1..], b);
    }
  }

  lemma {:induction false} DashFreeUid(a: string)
    requires '-' !in a
    ensures HexDigits(a) == a
  {
    if a != "" {
      assert a[0] in a && a == [a[0]] + a[1..];
      DashFreeUid(a[1..]);
    }
  }

  /** The digits of a UID are its groups without the dashes between them. */
  lemma DashesDropped(group: string, rest: string)
    requires '-' !in group
    ensures HexDigits(group) == group && HexDigits(group + "-" + rest) == group + HexDigits(rest)
  {
    DashFreeUid(group);
    HexDigitsConcat(group, "-" + rest);
    assert group + "-" + rest == group + ("-" + rest);
    assert ("-" + rest)[1..] == rest;
  }

  /** The derived names as text: what OVS and the file system get to see. */
  lemma NamesSpelledOut(uid: Uid, pod: PathElement, podClaim: PathName, request: PathName, root: string)
    ensures OvsPortName(uid, request) == HexDigits(uid)[..8] + "-" + request
    ensures SocketDir(pod, podClaim, request) == "/var/run/ovsdpdk/" + (pod + "_" + podClaim + "_" + request)
    ensures ContainerDir(root, podClaim, request) == root + "/" + podClaim + "/" + request
  {
  }

  /** What the container runtime gets to see. */
  lemma DeviceIdSpelledOut(uid: Uid, device: string, request: PathName)
    ensures DeviceId(uid, device, request)
         == "ovsdpdk.k8snetworkplumbingwg.io/vhost-user=" + (uid + "-" + (device + "-" + request))
  {
    assert CDI_KIND + "=" == "ovsdpdk.k8snetworkplumbingwg.io/vhost-user=";
  }

  /** What the kubelet gets to see. */
  lemma PluginSocketSpelledOut(suffix: string)
    requires '/' !in suffix
    ensures PluginSocketPath(ResourceName(suffix)) == "/var/lib/kubelet/device-plugins/" + (suffix + ".sock")
  {
    assert ResourceName(suffix) == DRIVER_NAME + "/" + suffix;
    AfterLastSlashOf(DRIVER_NAME, suffix);
    SlashFreeWhole(suffix);
  }

  // ---------------------------------------------------------------------------
  // Injectivity
  // ---------------------------------------------------------------------------

  /** Two strings that agree up to a separator absent from both heads agree piecewise. */
  lemma SplitAtSeparator(a: string, b: string, a': string, b': string, c: char)
    requires c !in a && c !in a'
    requires a + [c] + b == a' + [c] + b'
    ensures a == a' && b == b'
  {
    var s, s' := a + [c] + b, a' + [c] + b';
    assert s[|a|] == c && forall i | 0 <= i < |a'| :: s'[i] == a'[i];
    assert s'[|a'|] == c && forall i | 0 <= i < |a| :: s[i] == a[i];
    assert |a| == |a'|;
    assert s[..|a|] == a && s'[..|a|] == a';
    assert s[|a| + 1..] == b && s'[|a| + 1..] == b';
  }

  /** A common head can be dropped. */
  lemma DropHead(h: string, a: string, a': string)
    requires h + a == h + a'
    ensures a == a'
  {
    assert (h + a)[|h|..] == a && (h + a')[|h|..] == a';
  }

  /** Port names coincide exactly on equal eight-digit prefixes and equal requests. */
  lemma PortNameInjective(uid: Uid, request: string, uid': Uid, request': string)
    ensures OvsPortName(uid, request) == OvsPortName(uid', request')
       <==> Prefix8(uid) == Prefix8(uid') && request == request'
  {
    var n, n' := OvsPortName(uid, request), OvsPortName(uid', request');
    assert n[..8] == Prefix8(uid) && n'[..8] == Prefix8(uid');
    assert n[9..] == request && n'[9..] == request';
  }

  /** Socket directories coincide exactly on equal pods, pod claims and requests. */
  lemma SocketDirInjective(pod: PathElement, podClaim: PathElement, request: PathElement,
                           pod': PathElement, podClaim': PathElement, request': PathElement)
    requires '_' !in pod && '_' !in podClaim && '_' !in pod' && '_' !in podClaim'
    ensures SocketDir(pod, podClaim, request) == SocketDir(pod', podClaim', request')
       <==> pod == pod' && podClaim == podClaim' && request == request'
  {
    var tail, tail' := podClaim + ['_'] + request, podClaim' + ['_'] + request';
    var full, full' := SocketDirName(pod, podClaim, request), SocketDirName(pod', podClaim', request');
    if SocketDir(pod, podClaim, request) == SocketDir(pod', podClaim', request') {
      DropHead(HOST_ROOT + "/", full, full');
      assert full == pod + ['_'] + tail && full' == pod' + ['_'] + tail';
      SplitAtSeparator(pod, tail, pod', tail', '_');
      SplitAtSeparator(podClaim, request, podClaim', request', '_');
    }
  }

  /** Every text that holds c splits at its first c. */
  lemma {:induction false} FirstSplit(s: string, c: char) returns (head: string, tail: string)
    requires c in s
    ensures c !in head && s == head + [c] + tail
  {
    if s[0] == c {
      return "", s[1..];
    }
    head, tail := FirstSplit(s[1..], c);
    head := [s[0]] + head;
  }

  /** Why the underscore condition is exact: a pod, pod claim and request share their directory with a different triple
      that keeps to the condition if and only if they break it. */
  lemma UnderscoreCollision(pod: PathElement, podClaim: PathElement, request: PathElement)
    ensures (exists pod': PathElement, podClaim': PathElement, request': PathElement ::
               && SocketDir(pod', podClaim', request') == SocketDir(pod, podClaim, request)
               && '_' !in pod' && '_' !in podClaim'
               && !(pod' == pod && podClaim' == podClaim && request' == request))
       <==> '_' in pod || '_' in podClaim
  {
    if '_' in pod {
      var other := PodCollision(pod, podClaim, request);
    } else if '_' in podClaim {
      var c, d := FirstSplit(podClaim, '_');
      var request' := d + "_" + request;
      assert SocketDirName(pod, podClaim, request) == SocketDirName(pod, c, request');
      assert SocketDir(pod, c, request') == SocketDir(pod, podClaim, request);
    } else {
      forall pod': PathElement, podClaim': PathElement, request': PathElement
        | SocketDir(pod', podClaim', request') == SocketDir(pod, podClaim, request) && '_' !in pod' && '_' !in podClaim'
        ensures pod' == pod && podClaim' == podClaim && request' == request
      {
        SocketDirInjective(pod', podClaim', request', pod, podClaim, request);
      }
    }
  }

  lemma PodCollision(pod: PathElement, podClaim: PathElement, request: PathElement)
      returns (other: (PathElement, PathElement, PathElement))
    requires '_' in pod
    ensures '_' !in other.0 && '_' !in other.1
    ensures SocketDir(other.0, other.1, other.2) == SocketDir(pod, podClaim, request)
  {
    var a, b := FirstSplit(pod, '_');
    var rest := b + "_" + podClaim + "_" + request;
    assert rest[|b|] == '_';
    var c, d := FirstSplit(rest, '_');
    assert '/' !in rest;
    assert '/' !in a && '/' !in c && '/' !in d;
    assert SocketDirName(pod, podClaim, request) == a + "_" + rest;
    assert SocketDirName(a, c, d) == a + "_" + rest;
    other := (a, c, d);
  }

  /** Two mount points in a container coincide exactly for the same pod claim and request. */
  lemma ContainerDirInjective(root: string, podClaim: PathName, request: PathName, podClaim': PathName,
                              request': PathName)
    ensures ContainerDir(root, podClaim, request) == ContainerDir(root, podClaim', request')
       <==> podClaim == podClaim' && request == request'
  {
    var tail, tail' := podClaim + ['/'] + request, podClaim' + ['/'] + request';
    if ContainerDir(root, podClaim, request) == ContainerDir(root, podClaim', request') {
      assert ContainerDir(root, podClaim, request) == (root + "/") + tail;
      assert ContainerDir(root, podClaim', request') == (root + "/") + tail';
      DropHead(root + "/", tail, tail');
      SplitAtSeparator(podClaim, request, podClaim', request', '/');
    }
  }

  /** Within one claim the three derived names differ exactly when the requests do, underscores or not. */
  lemma OneClaimNames(uid: Uid, pod: PathElement, podClaim: PathName, root: string, r: PathName, t: PathName)
    ensures OvsPortName(uid, r) == OvsPortName(uid, t) <==> r == t
    ensures SocketDir(pod, podClaim, r) == SocketDir(pod, podClaim, t) <==> r == t
    ensures ContainerDir(root, podClaim, r) == ContainerDir(root, podClaim, t) <==> r == t
  {
    PortNameInjective(uid, r, uid, t);
    ContainerDirInjective(root, podClaim, r, podClaim, t);
    var head := HOST_ROOT + "/" + pod + "_" + podClaim + "_";
    assert SocketDir(pod, podClaim, r) == head + r && SocketDir(pod, podClaim, t) == head + t;
    assert (head + r)[|head|..] == r && (head + t)[|head|..] == t;
  }

  // ---------------------------------------------------------------------------
  // CDI names
  // ---------------------------------------------------------------------------

  /** CDI names of one claim coincide exactly when their composed parts do. */
  lemma CdiNamesOfClaim(uid: Uid, device: string, request: string, device': string, request': string)
    ensures CdiName(uid, device, request) == CdiName(uid, device', request')
       <==> ComposedName(device, request) == ComposedName(device', request')
  {
    if CdiName(uid, device, request) == CdiName(uid, device', request') {
      DropHead(uid + "-", ComposedName(device, request), ComposedName(device', request'));
    }
  }

  /** (device, request) and (device', request') are one text cut at two different dashes, x being what is between. */
  ghost predicate CutTwice(device: string, request: string, device': string, request': string) {
    exists x: string :: device' == ComposedName(device, x) && request == ComposedName(x, request')
  }

  /** CDI names of one claim coincide exactly for equal pairs and for one text cut at two dashes. */
  lemma DashCollision(uid: Uid, device: string, request: string, device': string, request': string)
    ensures CdiName(uid, device, request) == CdiName(uid, device', request')
       <==> || (device == device' && request == request')
            || CutTwice(device, request, device', request')
            || CutTwice(device', request', device, request)
  {
    CdiNamesOfClaim(uid, device, request, device', request');
    if ComposedName(device, request) == ComposedName(device', request') {
      if |device| <= |device'| {
        CutFurther(device, request, device', request');
      } else {
        CutFurther(device', request', device, request);
      }
    }
    if x: string :| device' == ComposedName(device, x) && request == ComposedName(x, request') {
      assert ComposedName(device, request) == ComposedName(device', request');
    }
    if x: string :| device == ComposedName(device', x) && request' == ComposedName(x, request) {
      assert ComposedName(device, request) == ComposedName(device', request');
    }
  }

  lemma CutFurther(device: string, request: string, device': string, request': string)
    requires ComposedName(device, request) == ComposedName(device', request') && |device| <= |device'|
    ensures (device == device' && request == request') || CutTwice(device, request, device', request')
  {
    var s, n, n' := ComposedName(device, request), |device|, |device'|;
    assert s[..n] == device && s[n + 1..] == request && s[n] == '-';
    assert s[..n'] == device' && s[n' + 1..] == request' && s[n'] == '-';
    if n < n' {
      var x := s[n + 1..n'];
      assert device' == ComposedName(device, x) && request == ComposedName(x, request');
    }
  }

  /** Dashes are on both sides of real names, so different requests can share a CDI name. */
  lemma DashCollisionExample(uid: Uid)
    ensures CdiName(uid, "br-ex", "net") == CdiName(uid, "br", "ex-net")
  {
    assert "br-ex" == ComposedName("br", "ex") && "ex-net" == ComposedName("ex", "net");
    DashCollision(uid, "br", "ex-net", "br-ex", "net");
  }

  /** When no bridge name, or no request name, holds a dash, the CDI name tells the pairs of a claim apart. */
  lemma CdiNameInjective(uid: Uid, device: string, request: string, device': string, request': string)
    requires ('-' !in device && '-' !in device') || ('-' !in request && '-' !in request')
    ensures CdiName(uid, device, request) == CdiName(uid, device', request')
       <==> device == device' && request == request'
  {
    DashCollision(uid, device, request, device', request');
  }

  // ---------------------------------------------------------------------------
  // Plugin sockets
  // ---------------------------------------------------------------------------

  lemma {:induction false} AfterLastSlashOf(head: string, tail: string)
    ensures AfterLastSlash(head + "/" + tail) == AfterLastSlash(tail)
  {
    var s := head + "/" + tail;
    if tail == "" {
      assert s[|s| - 1] == '/';
    } else {
      var n := |tail| - 1;
      assert s[|s| - 1] == tail[n];
      assert s[..|s| - 1] == head + "/" + tail[..n];
      AfterLastSlashOf(head, tail[..n]);
    }
  }

  lemma {:induction false} SlashFreeWhole(s: string)
    requires '/' !in s
    ensures AfterLastSlash(s) == s
  {
    if s != "" {
      var n := |s| - 1;
      assert s[n] in s && s == s[..n] + [s[n]];
      SlashFreeWhole(s[..n]);
    }
  }

  /** Plugin sockets coincide exactly when the resource names agree after their last slash. */
  lemma PluginSocketShared(resource: string, resource': string)
    ensures PluginSocketPath(resource) == PluginSocketPath(resource')
       <==> AfterLastSlash(resource) == AfterLastSlash(resource')
  {
    var a, a' := AfterLastSlash(resource), AfterLastSlash(resource');
    if PluginSocketPath(resource) == PluginSocketPath(resource') {
      DropHead(DEVICE_PLUGIN_DIR + "/", a + ".sock", a' + ".sock");
      assert |a| == |a'|;
      assert (a + ".sock")[..|a|] == a && (a' + ".sock")[..|a|] == a';
    }
  }

  /** Two topology resources share a socket exactly when their suffixes agree after the last slash. */
  lemma SlashCollision(suffix: string, suffix': string)
    ensures PluginSocketPath(ResourceName(suffix)) == PluginSocketPath(ResourceName(suffix'))
       <==> AfterLastSlash(suffix) == AfterLastSlash(suffix')
  {
    PluginSocketShared(ResourceName(suffix), ResourceName(suffix'));
    assert ResourceName(suffix) == DRIVER_NAME + "/" + suffix;
    assert ResourceName(suffix') == DRIVER_NAME + "/" + suffix';
    AfterLastSlashOf(DRIVER_NAME, suffix);
    AfterLastSlashOf(DRIVER_NAME, suffix');
  }

  /** Slash-free suffixes give one plugin socket per topology resource. */
  lemma PluginSocketInjective(suffix: string, suffix': string)
    requires '/' !in suffix && '/' !in suffix'
    ensures PluginSocketPath(ResourceName(suffix)) == PluginSocketPath(ResourceName(suffix')) <==> suffix == suffix'
  {
    SlashCollision(suffix, suffix');
    SlashFreeWhole(suffix);
    SlashFreeWhole(suffix');
  }
}
