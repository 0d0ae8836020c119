/**
 * Slash separated names: Go's path.Clean as both internal/uploads/pack.go and
 * internal/source/extract.go use it, and the two rules about what a name may be.
 */
module Paths {
  import opened Basics

  type Path = seq<string>

  /** strings.Split on a slash: never empty, and no part holds one. */
  function Split(s: string): (parts: Path)
    ensures |parts| >= 1
  {
    if s == "" then [""]
    else
      var rest := Split(s[1..]);
      if s[0] == '/' then [""] + rest else [[s[0]] + rest[0]] + rest[1..]
  }

  function Join(parts: Path): string {
    if parts == [] then "" else if |parts| == 1 then parts[0] else parts[0] + "/" + Join(parts[1..])
  }

  predicate Flat(parts: Path) {
    forall p | p in parts :: '/' !in p
  }

  lemma {:induction false} SplitFlat(s: string)
    ensures Flat(Split(s)) && forall p, c | p in Split(s) && c in p :: c in s
  {
    if s != "" {
      SplitFlat(s[1..]);
      var rest := Split(s[1..]);
      assert s == [s[0]] + s[1..];
      forall p | p in Split(s) ensures '/' !in p && forall c | c in p :: c in s {
        if s[0] != '/' && p == Split(s)[0] {
          assert rest[0] in rest;
        } else {
          assert p == "" || p in rest;
        }
      }
    }
  }

  /** A leading part and a slash split off as themselves. */
  lemma {:induction false} SplitHead(p: string, rest: string)
    requires '/' !in p
    ensures Split(p + "/" + rest) == [p] + Split(rest)
  {
    if p == "" {
      assert ("/" + rest)[1..] == rest;
      assert p + "/" + rest == "/" + rest;
    } else {
      SplitHead(p[1..], rest);
      assert (p + "/" + rest)[1..] == p[1..] + "/" + rest;
      assert [p[0]] + p[1..] == p;
    }
  }

  lemma {:induction false} SplitWhole(p: string)
    requires '/' !in p
    ensures Split(p) == [p]
  {
    if p != "" {
      SplitWhole(p[1..]);
      assert [p[0]] + p[1..] == p;
    }
  }

  /** Joining and splitting undo each other. */
  lemma {:induction false} SplitJoin(parts: Path)
    requires parts != [] && Flat(parts)
    ensures Split(Join(parts)) == parts
  {
    if |parts| == 1 {
      SplitWhole(parts[0]);
      assert parts == [parts[0]];
    } else {
      SplitJoin(parts[1..]);
      SplitHead(parts[0], Join(parts[1..]));
      assert parts == [parts[0]] + parts[1..];
    }
  }

  // ---- Clean -------------------------------------------------------------------------------------

  /** One part taken: nothing and a dot go, and two dots take back what they can. */
  function Step(done: Path, part: string, rooted: bool): Path {
    if part == "" || part == "." then done
    else if part == ".." then
      if done != [] && done[|done| - 1] != ".." then done[..|done| - 1]
      else if rooted then done else done + [".."]
    else done + [part]
  }

  function Walk(parts: Path, rooted: bool): Path {
    if parts == [] then [] else Step(Walk(parts[..|parts| - 1], rooted), parts[|parts| - 1], rooted)
  }

  function Clean(s: string): string {
    if s == "" then "."
    else
      var rooted := s[0] == '/';
      var parts := Walk(Split(s), rooted);
      if rooted then "/" + Join(parts) else if parts == [] then "." else Join(parts)
  }

  /**
   * What cleaning does, part by part: an empty part or a dot says nothing, a plain part goes one down, two
   * dots after it come back up, and above where the path began they stay, or at the root say nothing.
   */
  lemma WalkLaws(parts: Path, p: string, rooted: bool)
    requires p != "" && p != "." && p != ".."
    ensures Walk([], rooted) == [] && Walk(parts + [""], rooted) == Walk(parts + ["."], rooted) == Walk(parts, rooted)
    ensures Walk(parts + [p], rooted) == Walk(parts, rooted) + [p]
    ensures Walk(parts + [p] + [".."], rooted) == Walk(parts, rooted)
    ensures (forall q | q in Walk(parts, rooted) :: q == "..") && (rooted ==> Walk(parts, rooted) == []) ==>
              Walk(parts + [".."], rooted) == if rooted then [] else Walk(parts, rooted) + [".."]
  {
    hide Walk;
    WalkNone(rooted);
    WalkOne(parts, "", rooted);
    WalkOne(parts, ".", rooted);
    WalkOne(parts, "..", rooted);
    WalkOne(parts, p, rooted);
    WalkOne(parts + [p], "..", rooted);
    var done := Walk(parts, rooted);
    assert (done + [p])[..|done|] == done;
    if done != [] {
      assert done[|done| - 1] in done;
    }
  }

  lemma WalkNone(rooted: bool)
    ensures Walk([], rooted) == []
  {
  }

  lemma WalkOne(parts: Path, p: string, rooted: bool)
    ensures Walk(parts + [p], rooted) == Step(Walk(parts, rooted), p, rooted)
  {
    assert (parts + [p])[..|parts|] == parts;
  }

  predicate PlainPart(p: string) {
    p != "" && p != "." && p != ".." && '/' !in p
  }

  predicate Plain(parts: Path) {
    forall p | p in parts :: PlainPart(p)
  }

  predicate Part(p: string) {
    PlainPart(p) || p == ".."
  }

  /** Plain parts and climbs, and a list that climbs at all climbs at its front. */
  predicate Climbs(parts: Path) {
    forall i | 0 <= i < |parts| :: Part(parts[i]) && (parts[i] == ".." ==> parts[0] == "..")
  }

  lemma StepShape(done: Path, part: string)
    requires Climbs(done) && '/' !in part
    ensures Climbs(Step(done, part, false))
    ensures part != ".." && Plain(done) ==> Plain(Step(done, part, false))
    ensures forall p | p in Step(done, part, false) :: p in done || p == part
  {
  }

  lemma {:induction false} WalkShape(parts: Path)
    requires Flat(parts)
    ensures Climbs(Walk(parts, false))
    ensures ".." !in parts ==> Plain(Walk(parts, false))
    ensures forall p | p in Walk(parts, false) :: p in parts
  {
    if parts != [] {
      hide Step, Plain, Climbs;
      var init, last := parts[..|parts| - 1], parts[|parts| - 1];
      assert last in parts && parts == init + [last];
      WalkShape(init);
      StepShape(Walk(init, false), last);
    } else {
      NoParts();
    }
  }

  lemma NoParts()
    ensures Climbs([]) && Plain([])
  {
  }

  lemma {:induction false} WalkPlain(parts: Path)
    requires Plain(parts)
    ensures Walk(parts, false) == parts
  {
    if parts != [] {
      assert parts[|parts| - 1] in parts;
      WalkPlain(parts[..|parts| - 1]);
      assert parts == parts[..|parts| - 1] + [parts[|parts| - 1]];
    }
  }

  lemma {:induction false} RootedClimbsNowhere(parts: Path)
    ensures ".." !in Walk(parts, true)
  {
    if parts != [] {
      RootedClimbsNowhere(parts[..|parts| - 1]);
    }
  }

  /** The empty name is where it is said, and a rooted one stays rooted and climbs nowhere. */
  lemma CleanRooted(s: string)
    ensures s == "" ==> Clean(s) == "."
    ensures s != "" && s[0] == '/' ==> Clean(s) == "/" + Join(Walk(Split(s), true)) && ".." !in Walk(Split(s), true)
  {
    hide Walk;
    RootedClimbsNowhere(Split(s));
  }

  /** What a clean relative name says: nothing but plain parts, or two dots in front. */
  lemma CleanRelative(s: string)
    requires s != "" && s[0] != '/'
    ensures var parts := Walk(Split(s), false);
            && Climbs(parts)
            && (Clean(s) == "." <==> parts == [])
            && (parts != [] ==> Clean(s) == Join(parts) && Split(Clean(s)) == parts && !HasPrefix(Clean(s), "/"))
            && (parts != [] ==> (Clean(s) == ".." || HasPrefix(Clean(s), "../") <==> parts[0] == ".."))
  {
    hide Walk;
    SplitFlat(s);
    var parts := Walk(Split(s), false);
    WalkShape(Split(s));
    if parts != [] {
      ClimbsFlat(parts);
      SplitJoin(parts);
      JoinHead(parts);
      assert parts[0] != "" && parts[0] != "." && '/' !in parts[0];
      SplitWhole(".");
    }
  }

  lemma ClimbsFlat(parts: Path)
    requires Climbs(parts)
    ensures Flat(parts) && (".." !in parts ==> Plain(parts)) && (".." in parts ==> parts[0] == "..")
  {
  }

  predicate HasPrefix(s: string, prefix: string) {
    prefix <= s
  }

  lemma JoinHead(parts: Path)
    requires parts != [] && Flat(parts) && parts[0] != ""
    ensures parts[0] <= Join(parts)
    ensures Join(parts) == ".." || HasPrefix(Join(parts), "../") <==> parts[0] == ".."
  {
    var s := Join(parts);
    SplitJoin(parts);
    SplitWhole("..");
    if HasPrefix(s, "../") {
      assert s == ".." + "/" + s[3..];
      SplitHead("..", s[3..]);
    }
    if parts[0] == ".." && |parts| > 1 {
      assert s == "../" + Join(parts[1..]);
    }
  }

  // ---- The two rules -----------------------------------------------------------------------------

  /** What a caller may name in a pack. */
  function PackPath(name: string): Result<string, ()> {
    if name == "" || '\0' in name || HasPrefix(name, "/") then Err(())
    else
      var clean := Clean(name);
      if clean == "." || clean == ".." || HasPrefix(clean, "../") || HasPrefix(clean, "/") then Err(()) else Ok(clean)
  }

  /** An accepted name cleans to plain parts, and cleaning it again changes nothing. */
  lemma PackPathPlain(name: string)
    requires PackPath(name).Ok?
    ensures var clean := PackPath(name).value;
            && clean != "" && clean[0] != '/' && Split(clean) != [] && Plain(Split(clean))
            && Walk(Split(clean), false) == Split(clean) && PackPath(clean) == Ok(clean)
  {
    hide Walk, Clean;
    var clean := PackPath(name).value;
    NoLeadingSlash(name);
    CleanRelative(name);
    ClimbsFlat(Walk(Split(name), false));
    WalkPlain(Split(clean));
    CleanKeepsChars(name);
    NoLeadingSlash(clean);
    CleanRelative(clean);
    assert Join(Split(clean)) == clean;
  }

  /** What may be packed, exactly: a relative name that stays inside the tree and is not the tree itself. */
  lemma PackPathIff(name: string)
    ensures PackPath(name).Ok? <==>
              && name != "" && '\0' !in name && name[0] != '/'
              && Walk(Split(name), false) != [] && Walk(Split(name), false)[0] != ".."
  {
    hide Walk, Clean;
    NoLeadingSlash(name);
    if name != "" && name[0] != '/' {
      CleanRelative(name);
      assert Clean(name) == "." <==> Walk(Split(name), false) == [];
    }
  }

  lemma NoLeadingSlash(s: string)
    ensures s != "" && s[0] == '/' <==> HasPrefix(s, "/")
  {
  }

  lemma {:induction false} JoinChars(parts: Path)
    ensures forall c | c in Join(parts) :: c == '/' || exists p :: p in parts && c in p
  {
    if |parts| == 1 {
      assert parts[0] in parts;
    } else if |parts| > 1 {
      JoinChars(parts[1..]);
      assert parts[0] in parts;
    }
  }

  /** Cleaning invents no character but a slash and a dot. */
  lemma CleanKeepsChars(name: string)
    requires name != "" && name[0] != '/'
    ensures forall c | c in Clean(name) :: c == '/' || c == '.' || c in name
  {
    hide Walk;
    SplitFlat(name);
    WalkShape(Split(name));
    JoinChars(Walk(Split(name), false));
  }

  /** A Windows style volume or separator. */
  predicate Unusable(name: string) {
    '\\' in name || ':' in name
  }

  function Render(parts: Path): string {
    "/" + Join(parts)
  }

  /** Resolves an archive entry's name against the root, given by its parts. */
  function SafePath(root: Path, name: string): Result<Path, ()> {
    if name == "" || HasPrefix(name, "/") then Err(())
    else if Unusable(name) then Err(())
    else if ".." in Split(name) then Err(())
    else
      var target := root + Walk(Split(name), false);
      if target != root && !HasPrefix(Render(target), Render(root) + "/") then Err(()) else Ok(target)
  }

  lemma {:induction false} JoinAppend(a: Path, b: Path)
    requires a != [] && b != []
    ensures Join(a + b) == Join(a) + "/" + Join(b)
  {
    if |a| == 1 {
      assert (a + b)[1..] == b;
    } else {
      JoinAppend(a[1..], b);
      assert (a + b)[1..] == a[1..] + b;
      assert Join(a) == a[0] + "/" + Join(a[1..]);
    }
  }

  /**
   * What the extractor accepts, exactly, under any root but the file system's own: a relative name with
   * no backslash, no colon and no part that climbs. It always lands under the root, so the last check,
   * on the resolved path, never has to refuse.
   */
  lemma SafePathIff(root: Path, name: string)
    requires root != []
    ensures SafePath(root, name).Ok? <==>
              && name != "" && name[0] != '/' && '\\' !in name && ':' !in name && ".." !in Split(name)
    ensures SafePath(root, name).Ok? ==>
              var target := SafePath(root, name).value;
              root <= target && target == root + Walk(Split(name), false) && Plain(target[|root|..])
  {
    hide Walk, Split, Render;
    NoLeadingSlash(name);
    if name != "" && name[0] != '/' && !Unusable(name) && ".." !in Split(name) {
      SplitFlat(name);
      WalkShape(Split(name));
      RenderUnder(root, Walk(Split(name), false));
    }
  }

  /** A path under the root reads as the root and a slash and the rest. */
  lemma RenderUnder(root: Path, parts: Path)
    requires root != []
    ensures parts == [] ==> root + parts == root
    ensures parts != [] ==> HasPrefix(Render(root + parts), Render(root) + "/")
    ensures (root + parts)[|root|..] == parts
  {
    if parts != [] {
      JoinAppend(root, parts);
      assert Render(root + parts) == Render(root) + "/" + Join(parts);
    }
  }

  /** What packs never trips the extractor's checks for an absolute or climbing name: only the two characters can. */
  lemma PackedIsSafe(root: Path, name: string)
    requires root != [] && PackPath(name).Ok?
    ensures var clean := PackPath(name).value;
            && (SafePath(root, clean).Ok? <==> '\\' !in clean && ':' !in clean)
            && (SafePath(root, clean).Ok? ==> SafePath(root, clean).value == root + Split(clean))
  {
    PackPathPlain(name);
    SafePathIff(root, PackPath(name).value);
  }
}
