/** Saving a tree of resources and putting it back
    (internal/asterisk/installer.go). */
module ResourceTree {
  import opened Basics

  /** The components below the root; the root itself is the empty path. */
  type Path = seq<string>

  /** Mode bits beyond the nine permission bits (set-uid, sticky) are `special`. */
  datatype Mode = Mode(permissions: nat, special: nat)

  datatype Node = Dir(mode: Mode) | File(mode: Mode, content: string) | Link(target: string)

  type Tree = map<Path, Node>

  datatype Entry = Entry(path: Path, node: Node)

  /** A walk of a tree: every path once, parents before children. */
  ghost predicate Walk(paths: seq<Path>, t: Tree) {
    && (forall p :: p in paths <==> p in t)
    && Distinct(paths)
    && forall i :: 0 <= i < |paths| && paths[i] != [] ==> exists j :: 0 <= j < i && paths[j] == Front(paths[i])
  }

  /** The entries of a walk. */
  ghost predicate Saved(t: Tree, paths: seq<Path>, entries: seq<Entry>) {
    && |entries| == |paths|
    && forall i :: 0 <= i < |paths| ==> paths[i] in t && entries[i] == Entry(paths[i], t[paths[i]])
  }

  lemma WalkMembers(paths: seq<Path>, t: Tree)
    requires Walk(paths, t)
    ensures forall i :: 0 <= i < |paths| ==> paths[i] in t
    ensures forall p :: p in paths <==> p in t
  {
    forall i | 0 <= i < |paths| ensures paths[i] in t {
      assert paths[i] in paths;
    }
  }

  lemma WalkParent(paths: seq<Path>, t: Tree, i: nat)
    requires Walk(paths, t) && i < |paths| && paths[i] != []
    ensures Front(paths[i]) in paths[..i]
  {
    var j :| 0 <= j < i && paths[j] == Front(paths[i]);
    assert paths[..i][j] == Front(paths[i]);
  }

  /** `SnapshotBundle`: an entry for each path of the walk. */
  method SnapshotBundle(t: Tree, paths: seq<Path>) returns (entries: seq<Entry>)
    requires Walk(paths, t)
    ensures Saved(t, paths, entries)
  {
    hide Walk;
    WalkMembers(paths, t);
    entries := [];
    for i := 0 to |paths|
      invariant |entries| == i && forall k :: 0 <= k < i ==> entries[k] == Entry(paths[k], t[paths[k]])
    {
      entries := entries + [Entry(paths[i], t[paths[i]])];
    }
  }

  function Plain(m: Mode): Mode {
    m.(special := 0)
  }

  /** `mode.Perm()` is all that is restored of a mode. */
  function PlainNode(n: Node): Node {
    match n
    case Dir(mode) => Dir(Plain(mode))
    case File(mode, content) => File(Plain(mode), content)
    case Link(_) => n
  }

  const PARENT_MODE := Mode(0x1E8, 0)

  /** `os.MkdirAll` of a path: missing ancestors are created with the given mode. */
  function MakeDirs(t: Tree, path: Path, mode: Mode): Tree
    decreases |path|
  {
    if path in t then t
    else (if path == [] then t else MakeDirs(t, Front(path), mode))[path := Dir(mode)]
  }

  /** One entry of `RestoreBundle`. */
  function Put(t: Tree, e: Entry): Tree {
    var ready := if e.path == [] then t else MakeDirs(t, Front(e.path), if e.node.Dir? then Plain(e.node.mode) else PARENT_MODE);
    ready[e.path := PlainNode(e.node)]
  }

  function PutAll(t: Tree, entries: seq<Entry>): Tree
    decreases |entries|
  {
    if entries == [] then t else PutAll(Put(t, entries[0]), entries[1..])
  }

  /** `RestoreBundle`: whatever is there is removed first. */
  method RestoreBundle(now: Tree, entries: seq<Entry>) returns (t: Tree)
    ensures t == PutAll(map[], entries)
  {
    t := map[];
    assert entries[0..] == entries;
    for i := 0 to |entries|
      invariant PutAll(t, entries[i..]) == PutAll(map[], entries)
    {
      assert entries[i..][1..] == entries[i + 1..];
      t := Put(t, entries[i]);
    }
  }

  function PlainTree(t: Tree): (r: Tree)
    ensures r.Keys == t.Keys && forall p :: p in t ==> r[p] == PlainNode(t[p])
  {
    map p | p in t :: PlainNode(t[p])
  }

  ghost predicate PlainModes(t: Tree) {
    forall p :: p in t && !t[p].Link? ==> t[p].mode.special == 0
  }

  /** The first `i` paths of a walk, restored. */
  function Prefix(t: Tree, paths: seq<Path>, i: nat): (r: Tree)
    requires i <= |paths| && forall p :: p in paths ==> p in t
    ensures forall p :: p in r <==> p in paths[..i]
    ensures forall p :: p in r ==> r[p] == PlainNode(t[p])
  {
    map p | p in paths[..i] :: PlainNode(t[p])
  }

  /** The next entry finds its parent in place. */
  lemma PutNext(t: Tree, paths: seq<Path>, i: nat)
    requires Walk(paths, t) && i < |paths| && forall p :: p in paths ==> p in t
    ensures Put(Prefix(t, paths, i), Entry(paths[i], t[paths[i]])) == Prefix(t, paths, i + 1)
  {
    hide Walk, PlainNode;
    var now, p := Prefix(t, paths, i), paths[i];
    assert paths[..i + 1] == paths[..i] + [p];
    if p != [] {
      WalkParent(paths, t, i);
    }
    assert forall q :: q in paths[..i + 1] <==> q in paths[..i] || q == p;
  }

  lemma {:induction false} RestorePrefix(t: Tree, paths: seq<Path>, entries: seq<Entry>, i: nat)
    requires Walk(paths, t) && i <= |paths| && Saved(t, paths, entries) && forall p :: p in paths ==> p in t
    ensures PutAll(Prefix(t, paths, i), entries[i..]) == PlainTree(t)
    decreases |paths| - i
  {
    hide Walk, Put, PlainNode;
    WalkMembers(paths, t);
    if i == |paths| {
      assert paths[..i] == paths;
      assert Prefix(t, paths, i) == PlainTree(t);
    } else {
      PutNext(t, paths, i);
      assert entries[i..][0] == entries[i] && entries[i..][1..] == entries[i + 1..];
      RestorePrefix(t, paths, entries, i + 1);
    }
  }

  /** Putting everything back gives the tree with plain modes. */
  lemma RestoreAll(t: Tree, paths: seq<Path>, entries: seq<Entry>)
    requires Walk(paths, t) && Saved(t, paths, entries)
    ensures PutAll(map[], entries) == PlainTree(t)
  {
    hide Walk, PutAll;
    WalkMembers(paths, t);
    RestorePrefix(t, paths, entries, 0);
    assert Prefix(t, paths, 0) == map[];
    assert entries[0..] == entries;
  }

  /** Saving and restoring a tree of files, directories and links is the identity,
      whatever stood there meanwhile, exactly when no mode has bits beyond the
      permissions; only those bits are ever lost. */
  method SaveAndRestore(t: Tree, paths: seq<Path>, meanwhile: Tree) returns (t': Tree)
    requires Walk(paths, t)
    ensures t' == PlainTree(t)
    ensures t' == t <==> PlainModes(t)
  {
    var entries := SnapshotBundle(t, paths);
    t' := RestoreBundle(meanwhile, entries);
    RestoreAll(t, paths, entries);
    PlainExactly(t);
  }

  lemma PlainExactly(t: Tree)
    ensures PlainTree(t) == t <==> PlainModes(t)
  {
    if PlainTree(t) == t {
      forall p | p in t && !t[p].Link? ensures t[p].mode.special == 0 {
        assert PlainTree(t)[p] == PlainNode(t[p]);
      }
    }
    if PlainModes(t) {
      forall p | p in t ensures PlainNode(t[p]) == t[p] {
      }
    }
  }
}
