/**
 * What a rejected archive leaves behind: internal/source/extract.go writes as it goes, so it is nothing
 * only when nothing was written before the refusal. This module says exactly when that is.
 */
module Leftovers {
  import opened Basics
  import opened Paths
  import opened Packing
  import opened Extraction
  import opened RoundTrip

  /** What any file system is: above whatever there is there are directories. */
  predicate Standing(t: Tree) {
    forall p, n: nat | p in t && 0 < n < |p| :: p[..n] in t && t[p[..n]] == Dir
  }

  predicate Usable(root: Path, e: Entry) {
    SafePath(root, e.name) == Ok(Target(root, e)) && e.kind != Other
  }

  /**
   * Met with the destination as it stands, the entry puts something there: a directory where there is
   * none, or a file, whole or cut short, while there is budget left.
   */
  predicate Touches(t: Tree, root: Path, e: Entry, remaining: int) {
    && Usable(root, e) && Clear(t, Target(root, e))
    && (e.kind == Regular ==> 0 < remaining)
  }

  /** The entry is one already there: a directory at a directory. */
  predicate There(t: Tree, root: Path, e: Entry) {
    Usable(root, e) && e.kind == Directory && Target(root, e) in t && t[Target(root, e)].Dir?
  }

  /** Met with the destination as it stands, the entry is refused and puts nothing there. */
  predicate Stops(t: Tree, root: Path, e: Entry, remaining: int) {
    !Touches(t, root, e, remaining) && !There(t, root, e)
  }

  // ---- One entry ---------------------------------------------------------------------------------

  lemma {:induction false} MkdirThere(t: Tree, p: Path)
    requires forall n: nat | 0 < n <= |p| :: p[..n] in t && t[p[..n]].Dir?
    ensures MkdirAll(t, p) == (t, true)
  {
    if p != [] {
      var q := p[..|p| - 1];
      forall n: nat | 0 < n <= |q| ensures q[..n] in t && t[q[..n]].Dir? {
        assert q[..n] == p[..n];
      }
      MkdirThere(t, q);
      assert p[..|p|] == p;
    }
  }

  lemma AboveThere(t: Tree, p: Path)
    requires Standing(t) && p in t && p != []
    ensures MkdirAll(t, p[..|p| - 1]) == (t, true)
  {
    var q := p[..|p| - 1];
    forall n: nat | 0 < n <= |q| ensures q[..n] in t && t[q[..n]].Dir? {
      assert q[..n] == p[..n];
    }
    MkdirThere(t, q);
  }

  /** A directory that cannot be made leaves none made on the way to it. */
  lemma {:induction false} MkdirRefused(t: Tree, p: Path)
    requires Standing(t) && !MkdirAll(t, p).1
    ensures MkdirAll(t, p).0 == t
  {
    var q := p[..|p| - 1];
    if !MkdirAll(t, q).1 {
      MkdirRefused(t, q);
    } else {
      MkdirIff(t, q);
      PrefixesOf(p);
      assert p in t;
      AboveThere(t, p);
    }
  }

  /** A directory is made exactly where the path is clear. */
  lemma MkdirTouches(t: Tree, p: Path)
    requires Standing(t) && p != []
    ensures MkdirAll(t, p).0 != t <==> Clear(t, p)
    ensures MkdirAll(t, p).1 <==> Clear(t, p) || (p in t && t[p].Dir?)
  {
    hide MkdirAll, Made, Clear;
    ClearByParent(t, p);
    MkdirLast(t, p);
    if p in t {
      AboveThere(t, p);
    } else if !MkdirAll(t, p[..|p| - 1]).1 {
      MkdirRefused(t, p[..|p| - 1]);
    } else {
      MkdirIff(t, p[..|p| - 1]);
      NotMade(t, MkdirAll(t, p[..|p| - 1]).0, p);
    }
  }

  lemma MkdirLast(t: Tree, p: Path)
    requires p != []
    ensures var (u, ok) := MkdirAll(t, p[..|p| - 1]);
            MkdirAll(t, p) == if !ok then (u, false) else if p in u then (u, u[p].Dir?) else (u[p := Dir], true)
  {
  }

  lemma FileTouches(t: Tree, p: Path, body: string, remaining: int)
    requires Standing(t) && p != []
    ensures var (u, r) := WriteFile(t, p, body, remaining);
            && (u != t <==> 0 < remaining && Clear(t, p)) && (r.Ok? ==> u != t)
  {
    hide MkdirAll, Made, Clear;
    ClearByParent(t, p);
    assert Parent(p) == p[..|p| - 1];
    if p in t {
      AboveThere(t, p);
    } else if !MkdirAll(t, Parent(p)).1 {
      MkdirRefused(t, Parent(p));
    } else {
      MkdirIff(t, Parent(p));
      NotMade(t, MkdirAll(t, Parent(p)).0, p);
    }
  }

  /** One entry against the destination as it stands: it puts something there, is there already, or is refused. */
  lemma OneTouches(t: Tree, root: Path, e: Entry, remaining: int)
    requires Standing(t) && root != []
    ensures var (u, r) := ExtractOne(t, root, e, remaining);
            && (u != t <==> Touches(t, root, e, remaining))
            && (Stops(t, root, e, remaining) ==> r.Err?)
            && (There(t, root, e) ==> r == Ok(0) && u == t)
  {
    hide MkdirAll, WriteFile, Clear, SafePath, Target;
    SafeTarget(root, e);
    if Usable(root, e) {
      TargetUnder(root, e);
      var target := Target(root, e);
      MkdirTouches(t, target);
      FileTouches(t, target, e.body, remaining);
      if target in t {
        NotClear(t, target);
      }
      if e.kind == Directory {
        assert ExtractOne(t, root, e, remaining).1.Ok? <==> MkdirAll(t, target).1;
      } else {
        assert ExtractOne(t, root, e, remaining) == WriteFile(t, target, e.body, remaining);
      }
    } else {
      assert ExtractOne(t, root, e, remaining) == (t, Err(()));
    }
  }

  lemma TargetUnder(root: Path, e: Entry)
    requires root != []
    ensures Target(root, e) != []
  {
  }

  lemma NotClear(t: Tree, p: Path)
    requires p in t
    ensures !Clear(t, p)
  {
  }

  // ---- A whole stream ----------------------------------------------------------------------------

  /** Whatever would touch the destination comes only after something refused, or past the entry limit. */
  predicate NothingFirst(t: Tree, root: Path, entries: seq<Entry>, files: nat, remaining: int, lim: Limits) {
    forall i | 0 <= i < |entries| && files + i < lim.maxFiles && Touches(t, root, entries[i], remaining) ::
      exists j :: 0 <= j < i && Stops(t, root, entries[j], remaining)
  }

  lemma NothingFirstRest(t: Tree, root: Path, entries: seq<Entry>, files: nat, remaining: int, lim: Limits)
    requires entries != [] && files + 1 <= lim.maxFiles
    ensures Touches(t, root, entries[0], remaining) ==> !NothingFirst(t, root, entries, files, remaining, lim)
    ensures Stops(t, root, entries[0], remaining) ==> NothingFirst(t, root, entries, files, remaining, lim)
    ensures There(t, root, entries[0]) && !Touches(t, root, entries[0], remaining) ==>
              (NothingFirst(t, root, entries, files, remaining, lim) <==>
               NothingFirst(t, root, entries[1..], files + 1, remaining, lim))
  {
    hide Touches, Stops, There;
    StopsNot(t, root, entries[0], remaining);
    var rest := entries[1..];
    assert forall i | 0 <= i < |rest| :: rest[i] == entries[i + 1];
    if There(t, root, entries[0]) && !Touches(t, root, entries[0], remaining) {
      if NothingFirst(t, root, entries, files, remaining, lim) {
        forall i | 0 <= i < |rest| && files + 1 + i < lim.maxFiles && Touches(t, root, rest[i], remaining)
          ensures exists j :: 0 <= j < i && Stops(t, root, rest[j], remaining)
        {
          assert entries[i + 1] == rest[i];
          var j :| 0 <= j < i + 1 && Stops(t, root, entries[j], remaining);
          assert Stops(t, root, rest[j - 1], remaining);
        }
      }
      if NothingFirst(t, root, rest, files + 1, remaining, lim) {
        forall i | 0 <= i < |entries| && files + i < lim.maxFiles && Touches(t, root, entries[i], remaining)
          ensures exists j :: 0 <= j < i && Stops(t, root, entries[j], remaining)
        {
          assert entries[i] == rest[i - 1];
          var j :| 0 <= j < i - 1 && Stops(t, root, rest[j], remaining);
          assert Stops(t, root, entries[j + 1], remaining);
        }
      }
    }
  }

  lemma StopsNot(t: Tree, root: Path, e: Entry, remaining: int)
    ensures Stops(t, root, e, remaining) <==> !Touches(t, root, e, remaining) && !There(t, root, e)
  {
  }

  lemma {:induction false} FromTouches(t: Tree, root: Path, entries: seq<Entry>, intact: bool, files: nat,
                                       remaining: int, lim: Limits)
    requires Standing(t) && RootReady(t, root)
    ensures ExtractFrom(t, root, entries, intact, files, remaining, lim).0 == t
            <==> NothingFirst(t, root, entries, files, remaining, lim)
    decreases |entries|
  {
    hide ExtractOne, NothingFirst, Touches, There, Stops, Standing, RootReady;
    if entries == [] || files + 1 > lim.maxFiles {
      NothingLeft(t, root, entries, files, remaining, lim);
    } else {
      var e := entries[0];
      RootIsThere(t, root);
      OneTouches(t, root, e, remaining);
      NothingFirstRest(t, root, entries, files, remaining, lim);
      StopsNot(t, root, e, remaining);
      var (u, r) := ExtractOne(t, root, e, remaining);
      if u != t {
        TouchedStays(t, root, entries, intact, files, remaining, lim);
      } else if r.Ok? {
        FromTouches(t, root, entries[1..], intact, files + 1, remaining, lim);
      }
    }
  }

  lemma RootIsThere(t: Tree, root: Path)
    requires RootReady(t, root)
    ensures root != []
  {
  }

  lemma NothingLeft(t: Tree, root: Path, entries: seq<Entry>, files: nat, remaining: int, lim: Limits)
    requires entries == [] || files + 1 > lim.maxFiles
    ensures NothingFirst(t, root, entries, files, remaining, lim)
  {
  }

  /** What the first entry put there is there whatever follows. */
  lemma TouchedStays(t: Tree, root: Path, entries: seq<Entry>, intact: bool, files: nat, remaining: int, lim: Limits)
    requires RootReady(t, root) && entries != [] && files + 1 <= lim.maxFiles
    requires ExtractOne(t, root, entries[0], remaining).0 != t
    ensures ExtractFrom(t, root, entries, intact, files, remaining, lim).0 != t
  {
    hide ExtractOne, RootReady;
    var (u, r) := ExtractOne(t, root, entries[0], remaining);
    OneContained(t, root, entries[0], remaining);
    if r.Ok? {
      FromContained(u, root, entries[1..], intact, files + 1, remaining - r.value, lim);
      Grown(t, u, ExtractFrom(u, root, entries[1..], intact, files + 1, remaining - r.value, lim).0, root);
    }
  }

  lemma Grown(t: Tree, u: Tree, v: Tree, root: Path)
    requires Contained(t, u, root) && Contained(u, v, root)
    ensures v == t ==> u == t
  {
    if v == t {
      assert u == t;
    }
  }

  /**
   * The destination is left as it stood exactly when, before the entry limit, every entry that would put
   * something there comes after one that is refused. A refused archive leaves a half unpacked tree in
   * every other case, which is whenever anything at all was unpacked before the refusal.
   */
  lemma LeftAloneIff(t: Tree, root: Path, stream: Stream, lim: Limits)
    requires Standing(t) && RootReady(t, root)
    ensures Extracted(t, root, stream, lim).0 == t
            <==> !stream.gzip || NothingFirst(t, root, stream.entries, 0, lim.maxBytes, lim)
  {
    hide NothingFirst, ExtractFrom;
    if stream.gzip {
      FromTouches(t, root, stream.entries, stream.intact, 0, lim.maxBytes, lim);
    }
  }

  /** A file past what is left of the budget stays too, cut one byte past it. */
  lemma CutShort(t: Tree, root: Path, e: Entry, remaining: int)
    requires e.kind == Regular && SafePath(root, e.name) == Ok(Target(root, e)) && Clear(t, Target(root, e))
    requires 0 < remaining < |e.body|
    ensures var (u, r) := ExtractOne(t, root, e, remaining);
            r.Err? && Target(root, e) in u && u[Target(root, e)] == File(e.body[..remaining + 1])
  {
    hide SafePath, Target, MkdirAll, Clear;
    var target := Target(root, e);
    ClearByParent(t, target);
    MkdirIff(t, Parent(target));
    NotMade(t, MkdirAll(t, Parent(target)).0, target);
  }

  // ---- A half unpacked tree ----------------------------------------------------------------------

  const ROOT: Path := ["r"]
  const BARE: Tree := map[["r"] := Dir]
  const CLIMBING := Stream(true, [Entry("a", Regular, "x"), Entry("..", Regular, "y")], true)

  /** A file, and then a name that climbs: the archive is refused, and the file stays. */
  lemma HalfUnpacked()
    ensures RootReady(BARE, ROOT) && Standing(BARE)
    ensures var (u, ok) := Extracted(BARE, ROOT, CLIMBING, Limits(10, 100));
            !ok && ROOT + ["a"] in u && u[ROOT + ["a"]] == File("x")
  {
    hide Split, SafePath;
    assert ROOT[..1] == ROOT;
    FileAccepted();
    ClimbRefused();
    var lim, entries := Limits(10, 100), CLIMBING.entries;
    assert entries[1..] == [entries[1]];
    var target := ROOT + ["a"];
    assert Parent(target) == ROOT && ROOT[..0] == [];
    assert MkdirAll(BARE, ROOT) == (BARE, true);
    var u := BARE[target := File("x")];
    assert ExtractOne(BARE, ROOT, entries[0], 100) == (u, Ok(1));
    assert ExtractOne(u, ROOT, entries[1], 99) == (u, Err(()));
    assert ExtractFrom(u, ROOT, entries[1..], true, 1, 99, lim) == (u, false);
  }

  lemma FileAccepted()
    ensures SafePath(ROOT, "a") == Ok(ROOT + ["a"])
  {
    hide Split, SafePath, Walk;
    SplitWhole("a");
    SafePathIff(ROOT, "a");
    assert Plain(["a"]);
    WalkPlain(["a"]);
  }

  lemma ClimbRefused()
    ensures SafePath(ROOT, "..").Err?
  {
    hide Split;
    SplitWhole("..");
    SafePathIff(ROOT, "..");
  }
}
