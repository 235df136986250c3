/** Socket directories in a file tree.  The stores keep a set of socket directories; here that view is justified for
    requests without '/', and the parent directory that a subrequest leaves behind is shown. */
module SocketFs {
  import opened Kube
  import opened Naming

  /** A directory as the elements from the root down to it. */
  type Path = seq<string>

  /** The directories of a file system: with each its parents. */
  ghost predicate Tree(fs: set<Path>) {
    forall q, i :: q in fs && 0 <= i <= |q| ==> q[..i] in fs
  }

  function Parents(p: Path): (all: set<Path>)
    ensures forall q :: q in all <==> exists i :: 0 <= i < |p| && q == p[..i]
  {
    set i | 0 <= i < |p| :: p[..i]
  }

  /** os.MkdirAll: the directory with every parent that is missing. */
  function MkdirAll(fs: set<Path>, p: Path): set<Path> {
    fs + Parents(p) + {p}
  }

  /** os.RemoveAll: the directory with everything below it; its parents stay. */
  function RemoveAll(fs: set<Path>, p: Path): set<Path> {
    set q | q in fs && !(p <= q)
  }

  // ---------------------------------------------------------------------------
  // Paths as text
  // ---------------------------------------------------------------------------

  /** Empty elements and "." vanish when a path is cleaned. */
  function Cleaned(elem: string): Path {
    if elem == "" || elem == "." then [] else [elem]
  }

  /** The elements of the cleaned text, for text without "..". */
  function Elements(text: string, begun: string): Path
    decreases text
  {
    if text == "" then Cleaned(begun)
    else if text[0] == '/' then Cleaned(begun) + Elements(text[1..], "")
    else Elements(text[1..], begun + [text[0]])
  }

  function PathOf(text: string): Path {
    Elements(text, "")
  }

  /** The socket directory for a request of any form; a subrequest is named "main/sub". */
  function SocketPath(podUid: PathElement, podClaim: PathElement, request: string): Path {
    PathOf(HOST_ROOT + "/" + (podUid + "_" + podClaim + "_" + request))
  }

  lemma {:induction false} ElementsJoined(a: string, b: string, begun: string)
    ensures Elements(a + "/" + b, begun) == Elements(a, begun) + PathOf(b)
    decreases a
  {
    var s := a + "/" + b;
    if a == "" {
      assert s[0] == '/' && s[1..] == b;
    } else {
      assert s[0] == a[0] && s[1..] == a[1..] + "/" + b;
      if a[0] == '/' {
        ElementsJoined(a[1..], b, "");
        assert Cleaned(begun) + (PathOf(a[1..]) + PathOf(b)) == (Cleaned(begun) + PathOf(a[1..])) + PathOf(b);
      } else {
        ElementsJoined(a[1..], b, begun + [a[0]]);
      }
    }
  }

  lemma {:induction false} ElementsFlat(a: string, begun: string)
    requires '/' !in a
    ensures Elements(a, begun) == Cleaned(begun + a)
    decreases a
  {
    if a == "" {
      assert begun + a == begun;
    } else {
      assert a[0] in a;
      ElementsFlat(a[1..], begun + [a[0]]);
      assert begun + a == begun + [a[0]] + a[1..];
    }
  }

  /** A request without '/' names one directory right under the host root, the one the stores keep. */
  lemma FlatRequestPath(pod: PathElement, podClaim: PathElement, request: PathElement)
    ensures SocketPath(pod, podClaim, request) == PathOf(HOST_ROOT) + [SocketDirName(pod, podClaim, request)]
    ensures PathOf(SocketDir(pod, podClaim, request)) == SocketPath(pod, podClaim, request)
  {
    var name := SocketDirName(pod, podClaim, request);
    ElementsJoined(HOST_ROOT, name, "");
    ElementsFlat(name, "");
    assert "" + name == name;
  }

  /** A subrequest names a directory below another one. */
  lemma SubrequestPath(pod: PathElement, podClaim: PathElement, main: PathName, sub: PathName)
    ensures SocketPath(pod, podClaim, main + "/" + sub)
         == PathOf(HOST_ROOT) + [SocketDirName(pod, podClaim, main)] + [sub]
  {
    var name := SocketDirName(pod, podClaim, main);
    var text := pod + "_" + podClaim + "_" + (main + "/" + sub);
    assert text == name + "/" + sub;
    ElementsJoined(HOST_ROOT, text, "");
    ElementsJoined(name, sub, "");
    ElementsFlat(name, "");
    ElementsFlat(sub, "");
    assert "" + name == name && "" + sub == sub;
    assert PathOf(HOST_ROOT) + ([name] + [sub]) == PathOf(HOST_ROOT) + [name] + [sub];
  }

  // ---------------------------------------------------------------------------
  // Making and removing
  // ---------------------------------------------------------------------------

  /** Making a missing directory and removing it again leaves the parents that were missing too, so it restores the
      tree exactly when the parent was there. */
  lemma MakeThenRemove(fs: set<Path>, p: Path)
    requires Tree(fs) && p !in fs && p != []
    ensures RemoveAll(MkdirAll(fs, p), p) == fs + Parents(p)
    ensures RemoveAll(MkdirAll(fs, p), p) == fs <==> p[..|p| - 1] in fs
    ensures MkdirAll(fs, p) == fs + {p} <==> p[..|p| - 1] in fs
  {
    var parent := p[..|p| - 1];
    assert parent in Parents(p) && parent != p;
    forall q | q in fs + Parents(p) ensures !(p <= q) {
      if q in fs && |p| <= |q| {
        assert q[..|p|] in fs && q[..|p|] != p;
      }
    }
    if parent in fs {
      forall q | q in Parents(p) ensures q in fs {
        var i :| 0 <= i < |p| && q == p[..i];
        assert q == parent[..i];
      }
    }
  }

  /** A request without '/' makes and removes exactly its own directory. */
  lemma FlatRequestRestores(fs: set<Path>, pod: PathElement, podClaim: PathElement, request: PathElement)
    requires Tree(fs) && PathOf(HOST_ROOT) in fs && SocketPath(pod, podClaim, request) !in fs
    ensures var p := SocketPath(pod, podClaim, request);
            MkdirAll(fs, p) == fs + {p} && RemoveAll(MkdirAll(fs, p), p) == fs
  {
    var p := SocketPath(pod, podClaim, request);
    FlatRequestPath(pod, podClaim, request);
    assert p[..|p| - 1] == PathOf(HOST_ROOT);
    MakeThenRemove(fs, p);
  }

  /** A subrequest leaves the directory of its main request behind, unless that was there before. */
  lemma SubrequestLeavesParent(fs: set<Path>, pod: PathElement, podClaim: PathElement, main: PathName, sub: PathName)
    requires Tree(fs) && PathOf(HOST_ROOT) in fs && SocketPath(pod, podClaim, main + "/" + sub) !in fs
    ensures var p, left := SocketPath(pod, podClaim, main + "/" + sub), SocketPath(pod, podClaim, main);
            && RemoveAll(MkdirAll(fs, p), p) == fs + {left}
            && (RemoveAll(MkdirAll(fs, p), p) == fs <==> left in fs)
  {
    var p, left := SocketPath(pod, podClaim, main + "/" + sub), SocketPath(pod, podClaim, main);
    SubrequestPath(pod, podClaim, main, sub);
    FlatRequestPath(pod, podClaim, main);
    MakeThenRemove(fs, p);
    assert p[..|p| - 1] == left;
    forall q | q in Parents(p) ensures q in fs + {left} {
      var i :| 0 <= i < |p| && q == p[..i];
      if i < |p| - 1 {
        assert q == PathOf(HOST_ROOT)[..i];
      }
    }
    assert left in Parents(p);
  }
}
