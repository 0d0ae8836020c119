/** Packing and then unpacking: when it gives the tree back, exactly. */
module RoundTrip {
  import opened Basics
  import opened Paths
  import opened Sorting
  import opened Packing
  import opened Extraction

  // ---- One file into a tree ----------------------------------------------------------------------

  /** Nothing is at the path, and no file is on the way to it. */
  predicate Clear(t: Tree, p: Path) {
    p != [] && p !in t && forall n | 0 < n < |p| :: p[..n] in t ==> t[p[..n]].Dir?
  }

  predicate IsPrefix(q: Path, p: Path) {
    q <= p
  }

  /** The tree after making every directory on the way. */
  ghost predicate Made(t: Tree, u: Tree, p: Path) {
    && (forall q :: q in u <==> q in t || (q != [] && IsPrefix(q, p)))
    && (forall q | q in u :: u[q] == if q in t then t[q] else Dir)
  }

  lemma {:induction false} MkdirIff(t: Tree, p: Path)
    ensures var (u, ok) := MkdirAll(t, p);
            && (ok <==> forall n | 0 < n <= |p| :: p[..n] in t ==> t[p[..n]].Dir?)
            && (ok ==> Made(t, u, p))
  {
    if p != [] {
      var q := p[..|p| - 1];
      MkdirIff(t, q);
      assert forall n | 0 < n <= |q| :: q[..n] == p[..n];
      assert p[..|p|] == p;
      PrefixesOf(p);
    }
  }

  lemma PrefixesOf(p: Path)
    requires p != []
    ensures forall q: Path :: IsPrefix(q, p) <==> IsPrefix(q, p[..|p| - 1]) || q == p
  {
  }

  /** A regular entry lands exactly when there is budget for it and its path is clear. */
  lemma FileIff(t: Tree, root: Path, e: Entry, remaining: int)
    requires e.kind == Regular && SafePath(root, e.name) == Ok(Target(root, e))
    ensures var (u, r) := ExtractOne(t, root, e, remaining);
            && (r.Ok? <==> 0 < remaining && |e.body| <= remaining && Clear(t, Target(root, e)))
            && (r.Ok? ==> r == Ok(|e.body|))
            && (r.Ok? ==> forall p | p != [] :: Clear(u, p) <==>
               Clear(t, p) && !(p <= Target(root, e)) && !(Target(root, e) <= p))
  {
    hide MkdirAll, SafePath, Clear, Target;
    var target := Target(root, e);
    LandsIff(t, target, e.body, remaining);
  }

  lemma LandsIff(t: Tree, target: Path, body: string, remaining: int)
    ensures var (u, r) := WriteFile(t, target, body, remaining);
            && (r.Ok? <==> 0 < remaining && |body| <= remaining && Clear(t, target))
            && (r.Ok? ==> r == Ok(|body|))
            && (r.Ok? ==> forall p | p != [] :: Clear(u, p) <==> Clear(t, p) && !(p <= target) && !(target <= p))
  {
    hide MkdirAll, Made, Clear;
    ClearByParent(t, target);
    if remaining <= 0 || target == [] {
      assert WriteFile(t, target, body, remaining).1.Err?;
    } else {
      var parent := target[..|target| - 1];
      assert Parent(target) == parent;
      MkdirIff(t, parent);
      var (m, made) := MkdirAll(t, parent);
      if !made {
        assert WriteFile(t, target, body, remaining) == (m, Err(()));
      } else {
        NotMade(t, m, target);
        if target !in m && |body| <= remaining {
          var u := m[target := File(body)];
          assert WriteFile(t, target, body, remaining) == (u, Ok(|body|));
          forall p | p != [] ensures Clear(u, p) <==> Clear(t, p) && !(p <= target) && !(target <= p) {
            ClearAfter(t, m, target, body, p);
          }
        } else {
          assert WriteFile(t, target, body, remaining).1.Err?;
        }
      }
    }
  }

  lemma ClearByParent(t: Tree, target: Path)
    ensures Clear(t, target) <==> target != [] && target !in t && MkdirAll(t, target[..|target| - 1]).1
  {
    hide MkdirAll, Made;
    if target != [] {
      var parent := target[..|target| - 1];
      MkdirIff(t, parent);
      forall n | 0 < n < |target| ensures target[..n] == parent[..n] {}
    }
  }

  lemma NotMade(t: Tree, m: Tree, target: Path)
    requires target != [] && Made(t, m, target[..|target| - 1])
    ensures target in m <==> target in t
  {
  }

  /** What a landed file leaves clear: what was clear, and neither above it, at it, nor below it. */
  lemma ClearAfter(t: Tree, m: Tree, target: Path, body: string, p: Path)
    requires target != [] && p != [] && target !in t && Made(t, m, target[..|target| - 1])
    ensures Clear(m[target := File(body)], p) <==> Clear(t, p) && !(p <= target) && !(target <= p)
  {
    var u := m[target := File(body)];
    PrefixesOf(target);
    assert IsPrefix(p, target) <==> IsPrefix(p, target[..|target| - 1]) || p == target;
    assert p in u <==> p in t || p <= target;
    if p !in t && !(p <= target) {
      if target <= p {
        assert p[..|target|] == target && |target| < |p|;
      } else {
        forall n | 0 < n < |p| ensures (p[..n] in u ==> u[p[..n]].Dir?) <==> (p[..n] in t ==> t[p[..n]].Dir?) {
          assert p[..n] != target;
        }
      }
    }
  }

  // ---- A whole archive of files ------------------------------------------------------------------

  /** Every file fits in what is left, and something is left before each of them, the empty ones too. */
  predicate Budget(entries: seq<Entry>, remaining: int) {
    entries == [] || (0 < remaining && |entries[0].body| <= remaining
        && Budget(entries[1..], remaining - |entries[0].body|))
  }

  /** That is: something of the budget is left before each file, and the bodies come to no more than it. */
  lemma {:induction false} BudgetIs(entries: seq<Entry>, remaining: int)
    requires AllFiles(entries)
    ensures Budget(entries, remaining) <==>
              && (forall i | 0 <= i < |entries| :: BodyBytes(entries[..i]) < remaining)
              && (entries != [] ==> BodyBytes(entries) <= remaining)
  {
    if entries != [] {
      var e, rest := entries[0], entries[1..];
      assert AllFiles(rest) by {
        assert forall i | 0 <= i < |rest| :: rest[i] == entries[i + 1];
      }
      BudgetIs(rest, remaining - |e.body|);
      forall i | 0 < i <= |entries| ensures BodyBytes(entries[..i]) == |e.body| + BodyBytes(rest[..i - 1]) {
        assert entries[..i][1..] == rest[..i - 1] && entries[..i][0] == e;
      }
      assert entries[..0] == [] && rest[..|rest|] == rest && entries[..|entries|] == entries;
      if Budget(rest, remaining - |e.body|) && |e.body| <= remaining {
        forall i | 0 < i < |entries| ensures BodyBytes(entries[..i]) < remaining {
          assert BodyBytes(rest[..i - 1]) < remaining - |e.body|;
        }
      }
      if forall i | 0 <= i < |entries| :: BodyBytes(entries[..i]) < remaining {
        forall i | 0 <= i < |rest| ensures BodyBytes(rest[..i]) < remaining - |e.body| {
          assert BodyBytes(entries[..i + 1]) == |e.body| + BodyBytes(rest[..i + 1 - 1]);
        }
      }
    }
  }

  predicate Apart(p: Path, q: Path) {
    !(p <= q) && !(q <= p)
  }

  predicate AllApart(root: Path, entries: seq<Entry>) {
    forall i, j | 0 <= i < j < |entries| :: Apart(Target(root, entries[i]), Target(root, entries[j]))
  }

  predicate AllClear(t: Tree, root: Path, entries: seq<Entry>) {
    forall i | 0 <= i < |entries| :: Clear(t, Target(root, entries[i]))
  }

  predicate AllSafe(root: Path, entries: seq<Entry>) {
    forall i | 0 <= i < |entries| :: SafePath(root, entries[i].name) == Ok(Target(root, entries[i]))
  }

  predicate AllFiles(entries: seq<Entry>) {
    forall i | 0 <= i < |entries| :: entries[i].kind == Regular
  }

  /**
   * An archive of regular files is accepted exactly when every name is safe, the paths stay apart, and
   * both limits hold.
   */
  lemma {:induction false} AcceptedIff(t: Tree, root: Path, entries: seq<Entry>, files: nat, remaining: int,
                                       lim: Limits)
    requires root != [] && AllFiles(entries) && forall i | 0 <= i < |entries| :: Target(root, entries[i]) != []
    ensures ExtractFrom(t, root, entries, true, files, remaining, lim).1 <==>
              && AllSafe(root, entries) && AllApart(root, entries) && AllClear(t, root, entries)
              && (entries == [] || files + |entries| <= lim.maxFiles) && Budget(entries, remaining)
    decreases |entries|
  {
    hide ExtractOne, SafePath, Target, Clear, Apart;
    if entries != [] {
      var e, rest := entries[0], entries[1..];
      SafeTarget(root, e);
      if SafePath(root, e.name).Ok? {
        FileIff(t, root, e, remaining);
        var (u, r) := ExtractOne(t, root, e, remaining);
        assert AllSafe(root, entries) <==> AllSafe(root, rest) by { Rest(root, entries, t); }
        if r.Ok? {
          AcceptedIff(u, root, rest, files + 1, remaining - |e.body|, lim);
          Split3(t, u, root, entries);
        } else {
          assert AllClear(t, root, entries) ==> Clear(t, Target(root, e));
        }
      } else {
        NotSafe(t, root, e, remaining);
        NotAllSafe(root, entries);
      }
    }
  }

  lemma SafeTarget(root: Path, e: Entry)
    requires root != []
    ensures SafePath(root, e.name).Ok? ==> SafePath(root, e.name) == Ok(Target(root, e))
  {
  }

  lemma NotSafe(t: Tree, root: Path, e: Entry, remaining: int)
    requires SafePath(root, e.name).Err?
    ensures ExtractOne(t, root, e, remaining).1.Err?
  {
  }

  lemma NotAllSafe(root: Path, entries: seq<Entry>)
    requires entries != [] && SafePath(root, entries[0].name).Err?
    ensures !AllSafe(root, entries)
  {
  }

  lemma Rest(root: Path, entries: seq<Entry>, t: Tree)
    requires entries != [] && SafePath(root, entries[0].name) == Ok(Target(root, entries[0]))
    ensures AllSafe(root, entries) <==> AllSafe(root, entries[1..])
  {
  }

  /** What the rest still needs, once the first file has landed. */
  lemma Split3(t: Tree, u: Tree, root: Path, entries: seq<Entry>)
    requires entries != [] && (forall i | 0 <= i < |entries| :: Target(root, entries[i]) != [])
             && Clear(t, Target(root, entries[0]))
    requires forall p: Path | p != [] ::
               Clear(u, p) <==> Clear(t, p) && !(p <= Target(root, entries[0])) && !(Target(root, entries[0]) <= p)
    ensures AllApart(root, entries) && AllClear(t, root, entries) <==>
              AllApart(root, entries[1..]) && AllClear(u, root, entries[1..])
  {
  }

  // ---- Packed and unpacked -----------------------------------------------------------------------

  /** The root is there and nothing is in it. */
  predicate EmptyRoot(t: Tree, root: Path) {
    RootReady(t, root) && forall p | p in t && root <= p :: p == root
  }

  lemma ClearUnderEmpty(t: Tree, root: Path, p: Path)
    requires EmptyRoot(t, root) && root < p
    ensures Clear(t, p)
  {
    forall n | |root| < n < |p| ensures p[..n] !in t {
      assert root <= p[..n] && p[..n] != root;
    }
    forall n | 0 < n <= |root| ensures p[..n] in t && t[p[..n]].Dir? {
      assert p[..n] == root[..n];
    }
  }

  lemma PackedTarget(root: Path, name: string, e: Entry)
    requires root != [] && PackPath(name).Ok? && e.name == Clean(name)
    ensures Target(root, e) == root + Split(Clean(name)) && Split(Clean(name)) != []
    ensures SafePath(root, e.name) == Ok(Target(root, e)) <==> '\\' !in Clean(name) && ':' !in Clean(name)
  {
    hide SafePath, PackPath, Walk, Clean;
    AcceptedClean(name);
    PackedIsSafe(root, name);
    PackPathPlain(name);
    SafeTarget(root, e);
  }

  lemma {:induction false} CountOf(order: seq<string>, files: map<string, string>)
    requires Ranges(order, files)
    ensures |order| == |files|
    decreases |order|
  {
    if order == [] {
      assert files.Keys == {};
    } else {
      var init, last := order[..|order| - 1], order[|order| - 1];
      assert order == init + [last];
      assert forall n :: n in order <==> n in init || n == last;
      assert last !in init && last in files;
      CountOf(init, files - {last});
      assert files.Keys == (files - {last}).Keys + {last};
    }
  }

  /** An entry of the archive comes from one of the files. */
  lemma FromFile(files: map<string, string>, order: seq<string>, i: nat) returns (n: string)
    requires Ranges(order, files) && i < |Archive(files, order)|
    ensures n in files && Archive(files, order)[i].name == Clean(n) && Archive(files, order)[i].kind == Regular
    ensures Archive(files, order)[i].body == files[n]
  {
    hide Clean, Sort, Packed, Names;
    SortedNamesPacked(files, order);
    SortKeeps(Names(order), Lex);
    NamesAt(order);
    PackedHolds(files, order);
    var c := Sort(Names(order), Lex)[i];
    assert c in Sort(Names(order), Lex);
    n :| n in order && Clean(n) == c && Packed(files, order)[c] == files[n];
  }

  lemma FindTwo(s: seq<string>, x: string, y: string) returns (i: nat, j: nat)
    requires multiset{x, y} <= multiset(s)
    ensures i < |s| && j < |s| && i != j && s[i] == x && s[j] == y
  {
    assert x in multiset{x, y};
    i := TakeOut(s, x);
    var rest := s[..i] + s[i + 1..];
    assert y in multiset(rest) by {
      assert multiset{x, y} - multiset{x} == multiset{y};
      assert y in multiset{y};
    }
    var k :| 0 <= k < |rest| && rest[k] == y;
    j := if k < i then k else k + 1;
  }

  lemma HoldsTwo(s: seq<string>, lo: nat, hi: nat)
    requires lo < hi < |s|
    ensures multiset{s[lo], s[hi]} <= multiset(s)
  {
    assert s == s[..lo] + [s[lo]] + (s[lo + 1..hi] + [s[hi]] + s[hi + 1..]);
    assert s[hi] in s[lo + 1..hi] + [s[hi]] + s[hi + 1..];
    assert multiset{s[lo], s[hi]} == multiset{s[lo]} + multiset{s[hi]};
  }

  predicate NamesApart(names: seq<string>) {
    forall i, j | 0 <= i < |names| && 0 <= j < |names| && i != j :: !(Split(names[i]) <= Split(names[j]))
  }

  lemma ApartIgnoresOrder(a: seq<string>, b: seq<string>)
    requires multiset(a) == multiset(b) && NamesApart(a)
    ensures NamesApart(b)
  {
    forall i, j | 0 <= i < |b| && 0 <= j < |b| && i != j ensures !(Split(b[i]) <= Split(b[j])) {
      if i < j {
        HoldsTwo(b, i, j);
      } else {
        HoldsTwo(b, j, i);
        assert multiset{b[i], b[j]} == multiset{b[j], b[i]};
      }
      var k, l := FindTwo(a, b[i], b[j]);
    }
  }

  /** The archive's targets stay apart exactly when the files' clean names do. */
  lemma ArchiveApart(root: Path, files: map<string, string>, order: seq<string>)
    requires root != [] && Packable(files) && Ranges(order, files)
    ensures AllApart(root, Archive(files, order)) <==>
              forall n, m | n in files && m in files && n != m :: !(Split(Clean(n)) <= Split(Clean(m)))
  {
    hide Clean, Sort, Packed, Target, PackPath, Names;
    var entries, names := Archive(files, order), Sort(Names(order), Lex);
    NamesAt(order);
    SortedNamesPacked(files, order);
    TargetsApart(root, files, order);
    if NamesApart(names) {
      ApartIgnoresOrder(names, Names(order));
    }
    if NamesApart(Names(order)) {
      ApartIgnoresOrder(Names(order), names);
    }
    FilesApart(files, order);
  }

  lemma FilesApart(files: map<string, string>, order: seq<string>)
    requires Ranges(order, files)
    ensures NamesApart(Names(order)) <==> forall n, m | n in files && m in files && n != m ::
            !(Split(Clean(n)) <= Split(Clean(m)))
  {
    hide Clean, Names, Split;
    NamesAt(order);
    if NamesApart(Names(order)) {
      forall n, m | n in files && m in files && n != m ensures !(Split(Clean(n)) <= Split(Clean(m))) {
        assert n in order && m in order;
        var i :| 0 <= i < |order| && order[i] == n;
        var j :| 0 <= j < |order| && order[j] == m;
        assert Names(order)[i] == Clean(n) && Names(order)[j] == Clean(m);
      }
    }
    if forall n, m | n in files && m in files && n != m :: !(Split(Clean(n)) <= Split(Clean(m))) {
      forall i, j | 0 <= i < |order| && 0 <= j < |order| && i != j
          ensures !(Split(Names(order)[i]) <= Split(Names(order)[j])) {
        assert order[i] in order && order[j] in order && order[i] != order[j];
      }
    }
  }

  lemma TargetsApart(root: Path, files: map<string, string>, order: seq<string>)
    requires root != [] && Packable(files) && Ranges(order, files)
    ensures AllApart(root, Archive(files, order)) <==> NamesApart(Sort(Names(order), Lex))
  {
    hide Clean, Sort, Packed, Target, PackPath, Names, Split;
    SortedNamesPacked(files, order);
    var entries, names := Archive(files, order), Sort(Names(order), Lex);
    assert |entries| == |names|;
    forall i | 0 <= i < |entries| ensures entries[i].name == names[i]
        && Target(root, entries[i]) == root + Split(names[i]) {
      var n := FromFile(files, order, i);
      PackedTarget(root, n, entries[i]);
    }
    forall i, j | 0 <= i < |names| && 0 <= j < |names|
      ensures root + Split(names[i]) <= root + Split(names[j]) <==> Split(names[i]) <= Split(names[j])
    {
      UnderRoot(root, Split(names[i]), Split(names[j]));
    }
  }

  lemma UnderRoot(root: Path, p: Path, q: Path)
    ensures root + p <= root + q <==> p <= q
  {
    if root + p <= root + q {
      assert p == (root + p)[|root|..] && q == (root + q)[|root|..];
      assert p == (root + q)[..|root| + |p|][|root|..];
    }
    if p <= q {
      assert root + q == (root + p) + q[|p|..];
    }
  }

  lemma ArchiveSafe(root: Path, files: map<string, string>, order: seq<string>)
    requires root != [] && Packable(files) && Ranges(order, files)
    ensures AllSafe(root, Archive(files, order)) <==> forall n | n in files :: '\\' !in Clean(n) && ':' !in Clean(n)
  {
    hide Clean, Sort, Packed, Target, PackPath, Names, SafePath;
    SortedNamesPacked(files, order);
    var entries, names := Archive(files, order), Sort(Names(order), Lex);
    forall i | 0 <= i < |entries|
      ensures exists n :: n in files && entries[i].name == Clean(n)
                          && (SafePath(root, entries[i].name) == Ok(Target(root, entries[i]))
                              <==> '\\' !in Clean(n) && ':' !in Clean(n))
    {
      var n := FromFile(files, order, i);
      PackedTarget(root, n, entries[i]);
    }
    NamesAt(order);
    SortKeeps(Names(order), Lex);
    forall n | n in files && AllSafe(root, entries) ensures '\\' !in Clean(n) && ':' !in Clean(n) {
      assert n in order;
      var k :| 0 <= k < |order| && order[k] == n;
      assert Names(order)[k] in Names(order);
      var i :| 0 <= i < |names| && names[i] == Clean(n);
      assert entries[i].name == Clean(n);
      PackedTarget(root, n, entries[i]);
    }
  }

  /**
   * Packing and unpacking into an empty root succeeds exactly when the clean names hold no backslash
   * and no colon, none is another or lies under another, and both limits hold: whatever order the map
   * was ranged over in. An empty file after the last byte of the budget is refused like any other.
   */
  lemma RoundTripIff(files: map<string, string>, order: seq<string>, t: Tree, root: Path, lim: Limits)
    requires Packable(files) && Ranges(order, files) && EmptyRoot(t, root)
    ensures Extracted(t, root, Stream(true, Archive(files, order), true), lim).1 <==>
              && (forall n | n in files :: '\\' !in Clean(n) && ':' !in Clean(n))
              && (forall n, m | n in files && m in files && n != m :: !(Split(Clean(n)) <= Split(Clean(m))))
              && |files| <= lim.maxFiles && Budget(Archive(files, order), lim.maxBytes)
  {
    hide Clean, Sort, Packed, Target, PackPath, Names, SafePath, Split, ExtractFrom, Budget, AllSafe,
         AllApart, AllClear, Ranges, RootReady, Clear;
    var entries := Archive(files, order);
    ArchiveFacts(files, order, t, root);
    AcceptedIff(t, root, entries, 0, lim.maxBytes, lim);
    ArchiveSafe(root, files, order);
    ArchiveApart(root, files, order);
  }

  lemma ArchiveFacts(files: map<string, string>, order: seq<string>, t: Tree, root: Path)
    requires Packable(files) && Ranges(order, files) && EmptyRoot(t, root)
    ensures root != [] && AllFiles(Archive(files, order)) && AllClear(t, root, Archive(files, order))
    ensures forall i | 0 <= i < |Archive(files, order)| :: Target(root, Archive(files, order)[i]) != []
    ensures |Archive(files, order)| == |files| > 0
  {
    hide Clean, Sort, Packed, Target, PackPath, Names, SafePath, Clear;
    var entries := Archive(files, order);
    forall i | 0 <= i < |entries|
      ensures entries[i].kind == Regular && Clear(t, Target(root, entries[i])) && Target(root, entries[i]) != []
    {
      var n := FromFile(files, order, i);
      PackedTarget(root, n, entries[i]);
      ClearUnderEmpty(t, root, Target(root, entries[i]));
    }
    CountOf(order, files);
    SameLength(Names(order));
    assert files.Keys != {};
  }

  lemma SameLength(names: seq<string>)
    ensures |Sort(names, Lex)| == |names|
  {
    assert |multiset(Sort(names, Lex))| == |multiset(names)|;
  }

  /** And then the tree is exactly what was packed: each clean name with its file's body, and nothing else new. */
  lemma RoundTripTree(files: map<string, string>, order: seq<string>, t: Tree, root: Path, lim: Limits, p: Path)
    requires Packable(files) && Ranges(order, files) && EmptyRoot(t, root)
    requires Extracted(t, root, Stream(true, Archive(files, order), true), lim).1
    ensures var u := Extracted(t, root, Stream(true, Archive(files, order), true), lim).0;
            && (p in Files(u) && p !in Files(t) <==> exists n :: n in files && p == root + Split(Clean(n)))
            && (forall n | n in files && p == root + Split(Clean(n)) :: p in Files(u) && Files(u)[p] == files[n])
  {
    hide Clean, Sort, Packed, Target, PackPath, Names, SafePath, Split, ExtractFrom, EachOnce, EmptyRoot, Carried,
         Files;
    var entries := Archive(files, order);
    RootNotEmpty(t, root);
    AcceptedLeavesExactly(t, root, Stream(true, entries, true), lim);
    CarriedFiles(root, files, order, p, lim, t);
  }

  lemma RootNotEmpty(t: Tree, root: Path)
    requires EmptyRoot(t, root)
    ensures root != []
  {
  }

  lemma {:induction false} CarriedAt(root: Path, entries: seq<Entry>, p: Path)
    requires AllFiles(entries) && EachOnce(root, entries)
    ensures p in Carried(root, entries) <==> exists i :: 0 <= i < |entries| && Target(root, entries[i]) == p
    ensures forall i | 0 <= i < |entries| && Target(root, entries[i]) == p ::
              p in Carried(root, entries) && Carried(root, entries)[p] == entries[i].body
  {
    hide Target;
    if entries != [] {
      var rest := entries[1..];
      assert forall i | 0 <= i < |rest| :: rest[i] == entries[i + 1];
      CarriedAt(root, rest, p);
      forall i | 0 <= i < |entries| && Target(root, entries[i]) == p
        ensures p in Carried(root, entries) && Carried(root, entries)[p] == entries[i].body
      {
        if i > 0 {
          assert rest[i - 1] == entries[i];
        }
      }
      if p in Carried(root, rest) {
        var i :| 0 <= i < |rest| && Target(root, rest[i]) == p;
        assert entries[i + 1] == rest[i];
      }
    }
  }

  lemma CarriedFiles(root: Path, files: map<string, string>, order: seq<string>, p: Path, lim: Limits, t: Tree)
    requires root != [] && Packable(files) && Ranges(order, files) && EachOnce(root, Archive(files, order))
    requires EmptyRoot(t, root) && Extracted(t, root, Stream(true, Archive(files, order), true), lim).1
    ensures p in Carried(root, Archive(files, order)) <==> exists n :: n in files && p == root + Split(Clean(n))
    ensures forall n | n in files && p == root + Split(Clean(n)) ::
              p in Carried(root, Archive(files, order)) && Carried(root, Archive(files, order))[p] == files[n]
  {
    hide Clean, Sort, Packed, Target, PackPath, Names, SafePath, Split, ExtractFrom, EachOnce, Extracted, EmptyRoot,
         Carried;
    var entries, names := Archive(files, order), Sort(Names(order), Lex);
    RoundTripIff(files, order, t, root, lim);
    SortedNamesPacked(files, order);
    NamesAt(order);
    SortKeeps(Names(order), Lex);
    ArchiveFacts(files, order, t, root);
    CarriedAt(root, entries, p);
    forall n | n in files && p == root + Split(Clean(n))
      ensures p in Carried(root, entries) && Carried(root, entries)[p] == files[n]
    {
      assert n in order;
      var k :| 0 <= k < |order| && order[k] == n;
      assert Names(order)[k] in Names(order);
      var i :| 0 <= i < |names| && names[i] == Clean(n);
      var m := FromFile(files, order, i);
      PackedTarget(root, n, entries[i]);
      assert Split(Clean(n)) <= Split(Clean(m));
    }
    if p in Carried(root, entries) {
      var i :| 0 <= i < |entries| && Target(root, entries[i]) == p;
      var n := FromFile(files, order, i);
      PackedTarget(root, n, entries[i]);
    }
  }
}
