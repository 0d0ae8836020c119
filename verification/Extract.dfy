/**
 * Unpacking an archive: internal/source/extract.go. The file system is a map from absolute paths, by
 * their parts, to directories and files; permissions are not part of this model. A stream is the list
 * of its entries and whether it then ends cleanly.
 */
module Extraction {
  import opened Basics
  import opened Paths
  import opened Packing

  datatype Node = Dir | File(body: string)

  type Tree = map<Path, Node>

  datatype Limits = Limits(maxFiles: int, maxBytes: int)

  /** Whether the gzip header read, the entries, and whether the tar stream ended rather than broke. */
  datatype Stream = Stream(gzip: bool, entries: seq<Entry>, intact: bool)

  function Parent(p: Path): Path {
    if p == [] then [] else p[..|p| - 1]
  }

  /** Every missing directory on the way, or a refusal at a file. The file system's root is always there. */
  function MkdirAll(t: Tree, p: Path): (Tree, bool) {
    if p == [] then (t, true)
    else
      var (u, ok) := MkdirAll(t, p[..|p| - 1]);
      if !ok then (u, false) else if p in u then (u, u[p].Dir?) else (u[p := Dir], true)
  }

  /** One file, created exclusively, and at most one byte past what remains of the budget. */
  function WriteFile(t: Tree, target: Path, body: string, remaining: int): (Tree, Result<nat, ()>) {
    if remaining <= 0 then (t, Err(()))
    else
      var (u, ok) := MkdirAll(t, Parent(target));
      if !ok || target == [] || target in u then (u, Err(()))
      else if |body| > remaining then (u[target := File(body[..remaining + 1])], Err(()))
      else (u[target := File(body)], Ok(|body|))
  }

  /** One entry: the tree after it, and the bytes it cost. */
  function ExtractOne(t: Tree, root: Path, e: Entry, remaining: int): (Tree, Result<nat, ()>) {
    match SafePath(root, e.name)
    case Err(_) => (t, Err(()))
    case Ok(target) =>
      match e.kind
      case Directory =>
        var (u, ok) := MkdirAll(t, target);
        (u, if ok then Ok(0) else Err(()))
      case Regular => WriteFile(t, target, e.body, remaining)
      case Other => (t, Err(()))
  }

  /** The rest of a stream, after `files` entries. */
  function ExtractFrom(t: Tree, root: Path, entries: seq<Entry>, intact: bool, files: nat, remaining: int,
                       lim: Limits): (Tree, bool)
    decreases |entries|
  {
    if entries == [] then (t, intact)
    else if files + 1 > lim.maxFiles then (t, false)
    else
      var (u, r) := ExtractOne(t, root, entries[0], remaining);
      if r.Err? then (u, false) else ExtractFrom(u, root, entries[1..], intact, files + 1, remaining - r.value, lim)
  }

  function Extracted(t: Tree, root: Path, stream: Stream, lim: Limits): (Tree, bool) {
    if !stream.gzip then (t, false)
    else ExtractFrom(t, root, stream.entries, stream.intact, 0, lim.maxBytes, lim)
  }

  class Workspace {
    var tree: Tree

    constructor (t: Tree)
      ensures tree == t
    {
      tree := t;
    }

    method MakeDirs(p: Path) returns (ok: bool)
      modifies this
      ensures (tree, ok) == MkdirAll(old(tree), p)
    {
      if p == [] {
        return true;
      }
      ok := MakeDirs(p[..|p| - 1]);
      if !ok {
        return false;
      }
      if p in tree {
        return tree[p].Dir?;
      }
      tree := tree[p := Dir];
    }

    method Write(target: Path, body: string, remaining: int) returns (r: Result<nat, ()>)
      modifies this
      ensures (tree, r) == WriteFile(old(tree), target, body, remaining)
    {
      if remaining <= 0 {
        return Err(());
      }
      var ok := MakeDirs(Parent(target));
      if !ok || target == [] || target in tree {
        return Err(());
      }
      var written := if |body| > remaining then body[..remaining + 1] else body;
      tree := tree[target := File(written)];
      if |written| > remaining {
        return Err(());
      }
      r := Ok(|written|);
    }

    /** Checks and writes entry by entry; the first refusal stops the whole extraction. */
    method Extract(root: Path, stream: Stream, lim: Limits) returns (ok: bool)
      modifies this
      ensures (tree, ok) == Extracted(old(tree), root, stream, lim)
    {
      hide SafePath, MkdirAll, WriteFile;
      if !stream.gzip {
        return false;
      }
      var files, remaining := 0, lim.maxBytes;
      for i := 0 to |stream.entries|
        invariant files == i
        invariant ExtractFrom(tree, root, stream.entries[i..], stream.intact, files, remaining, lim)
               == ExtractFrom(old(tree), root, stream.entries, stream.intact, 0, lim.maxBytes, lim)
      {
        var header := stream.entries[i];
        assert stream.entries[i..][1..] == stream.entries[i + 1..];
        files := files + 1;
        if files > lim.maxFiles {
          return false;
        }
        var target := SafePath(root, header.name);
        if target.Err? {
          return false;
        }
        match header.kind {
          case Directory =>
            var made := MakeDirs(target.value);
            if !made {
              return false;
            }
          case Regular =>
            var written := Write(target.value, header.body, remaining);
            if written.Err? {
              return false;
            }
            remaining := remaining - written.value;
          case Other => return false;
        }
      }
      ok := stream.intact;
    }
  }

  // ---- Containment -------------------------------------------------------------------------------

  /** The destination exists, and everything above it. */
  predicate RootReady(t: Tree, root: Path) {
    root != [] && forall n | 0 < n <= |root| :: root[..n] in t && t[root[..n]] == Dir
  }

  /** Everything that was there is there unchanged, and everything new lies under the root. */
  predicate Contained(t: Tree, u: Tree, root: Path) {
    && (forall p | p in t :: p in u && u[p] == t[p])
    && (forall p | p in u && p !in t :: root <= p)
  }

  lemma {:induction false} MkdirContained(t: Tree, root: Path, p: Path)
    requires RootReady(t, root) && root <= p
    ensures Contained(t, MkdirAll(t, p).0, root)
    decreases |p|
  {
    if |p| > |root| {
      MkdirContained(t, root, p[..|p| - 1]);
    } else {
      MkdirAbove(t, root, |root|);
      assert p == root[..|root|];
    }
  }

  lemma {:induction false} MkdirAbove(t: Tree, root: Path, n: nat)
    requires RootReady(t, root) && n <= |root|
    ensures MkdirAll(t, root[..n]) == (t, true)
  {
    if n > 0 {
      MkdirAbove(t, root, n - 1);
      assert root[..n][..n - 1] == root[..n - 1];
    }
  }

  lemma OneContained(t: Tree, root: Path, e: Entry, remaining: int)
    requires RootReady(t, root)
    ensures Contained(t, ExtractOne(t, root, e, remaining).0, root)
    ensures RootReady(ExtractOne(t, root, e, remaining).0, root)
  {
    hide MkdirAll, SafePath;
    SafePathIff(root, e.name);
    if SafePath(root, e.name).Ok? {
      var target := SafePath(root, e.name).value;
      MkdirContained(t, root, target);
      if target != root {
        MkdirContained(t, root, Parent(target));
      } else {
        RootParent(t, root);
      }
    }
  }

  lemma RootParent(t: Tree, root: Path)
    requires RootReady(t, root)
    ensures MkdirAll(t, Parent(root)) == (t, true) && root in t
  {
    MkdirAbove(t, root, |root| - 1);
    assert root[..|root|] == root;
  }

  lemma {:induction false} FromContained(t: Tree, root: Path, entries: seq<Entry>, intact: bool, files: nat,
                                         remaining: int, lim: Limits)
    requires RootReady(t, root)
    ensures Contained(t, ExtractFrom(t, root, entries, intact, files, remaining, lim).0, root)
    decreases |entries|
  {
    hide ExtractOne;
    if entries != [] && files + 1 <= lim.maxFiles {
      OneContained(t, root, entries[0], remaining);
      var (u, r) := ExtractOne(t, root, entries[0], remaining);
      if r.Ok? {
        FromContained(u, root, entries[1..], intact, files + 1, remaining - r.value, lim);
      }
    }
  }

  /**
   * Whatever the archive claims, and whether or not it is refused part way, nothing outside the root
   * is created and nothing that was there is changed.
   */
  lemma NothingEscapes(t: Tree, root: Path, stream: Stream, lim: Limits)
    requires RootReady(t, root)
    ensures Contained(t, Extracted(t, root, stream, lim).0, root)
  {
    if stream.gzip {
      FromContained(t, root, stream.entries, stream.intact, 0, lim.maxBytes, lim);
    }
  }

  // ---- What an accepted archive leaves -----------------------------------------------------------

  function Files(t: Tree): map<Path, string> {
    map p | p in t && t[p].File? :: t[p].body
  }

  function Target(root: Path, e: Entry): Path {
    root + Walk(Split(e.name), false)
  }

  /** The files an archive carries: clean target to body. */
  function Carried(root: Path, entries: seq<Entry>): map<Path, string> {
    if entries == [] then map[]
    else
      var rest := Carried(root, entries[1..]);
      if entries[0].kind == Regular then rest[Target(root, entries[0]) := entries[0].body] else rest
  }

  /** No two regular entries land on one path. */
  predicate EachOnce(root: Path, entries: seq<Entry>) {
    entries == []
    || ((entries[0].kind == Regular ==> Target(root, entries[0]) !in Carried(root, entries[1..]))
       && EachOnce(root, entries[1..]))
  }

  function BodyBytes(entries: seq<Entry>): nat {
    if entries == [] then 0
    else (if entries[0].kind == Regular then |entries[0].body| else 0) + BodyBytes(entries[1..])
  }

  lemma {:induction false} MkdirFiles(t: Tree, p: Path)
    ensures Files(MkdirAll(t, p).0) == Files(t)
  {
    if p != [] {
      MkdirFiles(t, p[..|p| - 1]);
      var u := MkdirAll(t, p[..|p| - 1]).0;
      assert p !in u ==> Files(u[p := Dir]) == Files(u);
    }
  }

  /** An accepted entry adds its own file, under a path nothing had, and nothing else. */
  lemma OneLeaves(t: Tree, root: Path, e: Entry, remaining: int)
    requires root != [] && ExtractOne(t, root, e, remaining).1.Ok?
    ensures var (u, r) := ExtractOne(t, root, e, remaining);
            && SafePath(root, e.name) == Ok(Target(root, e)) && e.kind != Other
            && Files(u) == (if e.kind == Regular then Files(t)[Target(root, e) := e.body] else Files(t))
            && (e.kind == Regular ==> Target(root, e) !in Files(t) && r.value == |e.body| <= remaining && remaining > 0)
            && (e.kind == Directory ==> r.value == 0)
  {
    hide MkdirAll, SafePath;
    SafePathIff(root, e.name);
    var target := SafePath(root, e.name).value;
    MkdirFiles(t, target);
    MkdirFiles(t, Parent(target));
    if e.kind == Regular {
      var m := MkdirAll(t, Parent(target)).0;
      assert Files(m[target := File(e.body)]) == Files(m)[target := e.body];
      assert target !in Files(m);
    }
  }

  /** What an accepted stream leaves, exactly: every file it carries, each once, within both limits. */
  lemma {:induction false} FromLeaves(t: Tree, root: Path, entries: seq<Entry>, intact: bool, files: nat,
                                      remaining: int, lim: Limits)
    requires root != [] && ExtractFrom(t, root, entries, intact, files, remaining, lim).1
    ensures Files(ExtractFrom(t, root, entries, intact, files, remaining, lim).0) == Files(t) + Carried(root, entries)
    ensures forall p | p in Carried(root, entries) :: p !in Files(t)
    ensures entries == [] || files + |entries| <= lim.maxFiles
    ensures BodyBytes(entries) == 0 || BodyBytes(entries) <= remaining
    ensures forall e | e in entries :: SafePath(root, e.name) == Ok(Target(root, e)) && e.kind != Other
    ensures intact && EachOnce(root, entries)
    decreases |entries|
  {
    hide ExtractOne, SafePath, Target;
    if entries != [] {
      var e := entries[0];
      OneLeaves(t, root, e, remaining);
      var (u, r) := ExtractOne(t, root, e, remaining);
      FromLeaves(u, root, entries[1..], intact, files + 1, remaining - r.value, lim);
      assert entries == [e] + entries[1..];
      var rest := Carried(root, entries[1..]);
      if e.kind == Regular {
        assert Target(root, e) in Files(u);
        assert Files(t)[Target(root, e) := e.body] + rest == Files(t) + rest[Target(root, e) := e.body];
      }
    }
  }

  /**
   * An accepted archive keeps both caps and leaves exactly what it carries: each regular entry's file
   * at its clean path with its own body, no path twice, over nothing that was there.
   */
  lemma AcceptedLeavesExactly(t: Tree, root: Path, stream: Stream, lim: Limits)
    requires root != [] && Extracted(t, root, stream, lim).1
    ensures stream.gzip && stream.intact && EachOnce(root, stream.entries)
    ensures Files(Extracted(t, root, stream, lim).0) == Files(t) + Carried(root, stream.entries)
    ensures forall p | p in Carried(root, stream.entries) :: p !in Files(t)
    ensures stream.entries == [] || |stream.entries| <= lim.maxFiles
    ensures BodyBytes(stream.entries) == 0 || BodyBytes(stream.entries) <= lim.maxBytes
  {
    FromLeaves(t, root, stream.entries, stream.intact, 0, lim.maxBytes, lim);
  }
}
