/** Composing an archive from a set of text files: internal/uploads/pack.go. */
module Packing {
  import opened Basics
  import opened Paths
  import opened Sorting

  datatype Kind = Regular | Directory | Other

  datatype Entry = Entry(name: string, kind: Kind, body: string)

  /** Every file's clean name, in the order the map was ranged over. */
  function Names(order: seq<string>): (names: seq<string>)
    ensures |names| == |order|
  {
    if order == [] then [] else Names(order[..|order| - 1]) + [Clean(order[|order| - 1])]
  }

  /** What the packed map holds after ranging in this order: a later name takes an earlier one's place. */
  function Packed(files: map<string, string>, order: seq<string>): map<string, string>
    requires forall n | n in order :: n in files
  {
    if order == [] then map[]
    else
      assert forall n | n in order[..|order| - 1] :: n in order;
      Packed(files, order[..|order| - 1])[Clean(order[|order| - 1]) := files[order[|order| - 1]]]
  }

  /** One more file ranged over. */
  lemma RangeStep(files: map<string, string>, order: seq<string>, name: string)
    requires (forall n | n in order :: n in files) && name in files
    ensures Names(order + [name]) == Names(order) + [Clean(name)]
    ensures Packed(files, order + [name]) == Packed(files, order)[Clean(name) := files[name]]
  {
  }

  lemma {:induction false} NamesAt(order: seq<string>)
    ensures forall i | 0 <= i < |order| :: Names(order)[i] == Clean(order[i])
  {
    if order != [] {
      NamesAt(order[..|order| - 1]);
    }
  }

  /** The packed map holds exactly the clean names, each with the body of some file of that name. */
  lemma {:induction false} PackedHolds(files: map<string, string>, order: seq<string>)
    requires forall n | n in order :: n in files
    ensures forall n | n in order :: Clean(n) in Packed(files, order)
    ensures forall c | c in Packed(files, order) :: exists n ::
            n in order && Clean(n) == c && Packed(files, order)[c] == files[n]
  {
    hide Clean;
    if order != [] {
      var init, last := order[..|order| - 1], order[|order| - 1];
      assert order == init + [last];
      PackedHolds(files, init);
      forall c | c in Packed(files, order) ensures exists n ::
          n in order && Clean(n) == c && Packed(files, order)[c] == files[n] {
        if c == Clean(last) {
          assert last in order;
        } else {
          var n :| n in init && Clean(n) == c && Packed(files, init)[c] == files[n];
          assert n in order;
        }
      }
    }
  }

  function Entries(names: seq<string>, packed: map<string, string>): seq<Entry>
    requires forall n | n in names :: n in packed
  {
    seq(|names|, i requires 0 <= i < |names| => Entry(names[i], Regular, packed[names[i]]))
  }

  predicate Packable(files: map<string, string>) {
    files != map[] && forall n | n in files :: PackPath(n).Ok?
  }

  /** One possible range over a map: every key, once. */
  ghost predicate Ranges(order: seq<string>, files: map<string, string>) {
    && (forall n :: n in order <==> n in files)
    && (forall i, j | 0 <= i < j < |order| :: order[i] != order[j])
  }

  lemma SortedNamesPacked(files: map<string, string>, order: seq<string>)
    requires Ranges(order, files)
    ensures forall n | n in Sort(Names(order), Lex) :: n in Packed(files, order)
  {
    hide Clean, Packed, Names, Sort;
    SortKeeps(Names(order), Lex);
    PackedHolds(files, order);
    NamesAt(order);
  }

  /** The archive one range over the files packs to. */
  ghost function Archive(files: map<string, string>, order: seq<string>): seq<Entry>
    requires Ranges(order, files)
  {
    SortedNamesPacked(files, order);
    Entries(Sort(Names(order), Lex), Packed(files, order))
  }

  /**
   * Judges every name before a byte is written, then writes the entries in the order of their names.
   * The map may be ranged over in any order at all.
   */
  method Pack(files: map<string, string>) returns (r: Result<seq<Entry>, ()>, ghost order: seq<string>)
    ensures r.Ok? <==> Packable(files)
    ensures r.Ok? ==> Ranges(order, files) && r.value == Archive(files, order)
  {
    hide PackPath, Clean, Packed, Names, Sort, Entries;
    order := [];
    NothingRanged(files);
    if files == map[] {
      return Err(()), order;
    }
    var packed: map<string, string>, names: seq<string> := map[], [];
    var rest := files.Keys;
    while rest != {}
      invariant rest <= files.Keys
      invariant forall n :: n in order <==> n in files && n !in rest
      invariant forall i, j | 0 <= i < j < |order| :: order[i] != order[j]
      invariant forall n | n in order :: PackPath(n).Ok?
      invariant names == Names(order) && packed == Packed(files, order)
      decreases |rest|
    {
      var name :| name in rest;
      rest := rest - {name};
      var clean := PackPath(name);
      if clean.Err? {
        return Err(()), order;
      }
      AcceptedClean(name);
      RangeStep(files, order, name);
      order := order + [name];
      packed := packed[clean.value := files[name]];
      names := names + [clean.value];
    }
    SortedNamesPacked(files, order);
    names := Sort(names, Lex);
    var entries := WriteEntries(names, packed);
    r := Ok(entries);
  }

  /** One regular entry a name, with no directory entries. */
  method WriteEntries(names: seq<string>, packed: map<string, string>) returns (entries: seq<Entry>)
    requires forall n | n in names :: n in packed
    ensures entries == Entries(names, packed)
  {
    entries := [];
    for i := 0 to |names|
      invariant |entries| == i && forall j | 0 <= j < i :: entries[j] == Entry(names[j], Regular, packed[names[j]])
    {
      entries := entries + [Entry(names[i], Regular, packed[names[i]])];
    }
  }

  lemma NothingRanged(files: map<string, string>)
    ensures Names([]) == [] && Packed(files, []) == map[]
  {
  }

  lemma AcceptedClean(name: string)
    requires PackPath(name).Ok?
    ensures PackPath(name).value == Clean(name)
  {
  }

  // ---- The same bytes every time -----------------------------------------------------------------

  /** No two names clean to one path with different bodies. */
  predicate NoClash(files: map<string, string>) {
    forall n, m | n in files && m in files && Clean(n) == Clean(m) :: files[n] == files[m]
  }

  lemma {:induction false} NamesWithout(order: seq<string>, i: nat)
    requires i < |order|
    ensures multiset(Names(order)) == multiset(Names(order[..i] + order[i + 1..])) + multiset{Clean(order[i])}
  {
    hide Clean, Names;
    var init, last := order[..|order| - 1], order[|order| - 1];
    assert order == init + [last];
    NamesPlus(init, last);
    if i == |order| - 1 {
      assert order[..i] + order[i + 1..] == init;
    } else {
      NamesWithout(init, i);
      var rest := init[..i] + init[i + 1..];
      NamesPlus(rest, last);
      assert order[..i] + order[i + 1..] == rest + [last];
    }
  }

  lemma NamesPlus(order: seq<string>, last: string)
    ensures multiset(Names(order + [last])) == multiset(Names(order)) + multiset{Clean(last)}
  {
    hide Clean;
    assert (order + [last])[..|order|] == order;
  }

  lemma TakeOut(s: seq<string>, x: string) returns (i: nat)
    requires x in multiset(s)
    ensures i < |s| && s[i] == x && multiset(s[..i] + s[i + 1..]) == multiset(s) - multiset{x}
  {
    i :| 0 <= i < |s| && s[i] == x;
    assert s == s[..i] + [s[i]] + s[i + 1..];
  }

  lemma {:induction false} NamesOfRange(a: seq<string>, b: seq<string>)
    requires multiset(a) == multiset(b)
    ensures multiset(Names(a)) == multiset(Names(b))
    decreases |a|
  {
    hide Clean;
    if a == [] {
      assert |multiset(b)| == 0;
    } else {
      var init, last := a[..|a| - 1], a[|a| - 1];
      assert multiset(init) == multiset(a) - multiset{last} by {
        assert a == init + [last];
      }
      var i := TakeOut(b, last);
      NamesOfRange(init, b[..i] + b[i + 1..]);
      hide Names;
      NamesWithout(b, i);
      NamesWithout(a, |a| - 1);
      assert a[..|a| - 1] + a[|a|..] == init;
    }
  }

  lemma RangesAlike(a: seq<string>, b: seq<string>, files: map<string, string>)
    requires Ranges(a, files) && Ranges(b, files)
    ensures multiset(a) == multiset(b)
  {
    forall n ensures multiset(a)[n] == multiset(b)[n] {
      if n in files {
        OnceIn(a, n);
        OnceIn(b, n);
      } else {
        assert n !in a && n !in b;
      }
    }
  }

  lemma {:induction false} OnceIn(s: seq<string>, n: string)
    requires n in s && forall i, j | 0 <= i < j < |s| :: s[i] != s[j]
    ensures multiset(s)[n] == 1
  {
    assert s == [s[0]] + s[1..];
    if s[0] == n {
      assert n !in s[1..];
    } else {
      OnceIn(s[1..], n);
    }
  }

  /** Without a clash, every range packs to the same archive. */
  lemma SameEveryTime(files: map<string, string>, a: seq<string>, b: seq<string>)
    requires Ranges(a, files) && Ranges(b, files) && NoClash(files)
    ensures Archive(files, a) == Archive(files, b)
  {
    hide Clean, Sort, Packed, Names;
    RangesAlike(a, b, files);
    NamesOfRange(a, b);
    LexTotal();
    SortIgnoresOrder(Names(a), Names(b), Lex);
    SortedNamesPacked(files, a);
    SortedNamesPacked(files, b);
    SamePacked(files, a, b);
  }

  /** Without a clash, the body packed under a clean name is that of any file of the name. */
  lemma PackedBody(files: map<string, string>, order: seq<string>, n: string)
    requires Ranges(order, files) && NoClash(files) && n in files
    ensures Clean(n) in Packed(files, order) && Packed(files, order)[Clean(n)] == files[n]
  {
    hide Clean, Packed;
    PackedHolds(files, order);
    var m :| m in order && Clean(m) == Clean(n) && Packed(files, order)[Clean(n)] == files[m];
  }

  lemma PackedName(files: map<string, string>, order: seq<string>, c: string) returns (n: string)
    requires Ranges(order, files) && c in Packed(files, order)
    ensures n in files && Clean(n) == c
  {
    hide Clean, Packed;
    PackedHolds(files, order);
    n :| n in order && Clean(n) == c && Packed(files, order)[c] == files[n];
  }

  lemma SamePacked(files: map<string, string>, a: seq<string>, b: seq<string>)
    requires Ranges(a, files) && Ranges(b, files) && NoClash(files)
    ensures Packed(files, a) == Packed(files, b)
  {
    hide Clean, Packed, NoClash;
    var p, q := Packed(files, a), Packed(files, b);
    forall c | c in p ensures c in q && q[c] == p[c] {
      var n := PackedName(files, a, c);
      PackedBody(files, a, n);
      PackedBody(files, b, n);
    }
    forall c | c in q ensures c in p {
      var n := PackedName(files, b, c);
      PackedBody(files, a, n);
    }
  }

  /** Any map can be ranged over, each of its keys once. */
  lemma {:induction false} SomeRange(files: map<string, string>) returns (order: seq<string>)
    ensures Ranges(order, files)
    decreases |files|
  {
    if files == map[] {
      order := [];
    } else {
      var n :| n in files;
      order := SomeRange(files - {n});
      order := order + [n];
    }
  }

  /** A clash packs to two different archives, by which of the two names the map gave last. */
  lemma ClashDiffers(files: map<string, string>, n: string, m: string) returns (a: seq<string>, b: seq<string>)
    requires n in files && m in files && Clean(n) == Clean(m) && files[n] != files[m]
    ensures Ranges(a, files) && Ranges(b, files) && Archive(files, a) != Archive(files, b)
  {
    hide Clean, Sort, Packed, Names;
    var rest := SomeRange(files - {n, m});
    a, b := (rest + [m]) + [n], (rest + [n]) + [m];
    TwoMore(files, rest, m, n);
    TwoMore(files, rest, n, m);
    LastWins(files, rest + [m], n, rest + [n], m);
  }

  lemma TwoMore(files: map<string, string>, rest: seq<string>, n: string, m: string)
    requires n in files && m in files && n != m && Ranges(rest, files - {n, m})
    ensures Ranges((rest + [n]) + [m], files)
  {
  }

  lemma LastWins(files: map<string, string>, a: seq<string>, n: string, b: seq<string>, m: string)
    requires Ranges(a + [n], files) && Ranges(b + [m], files)
    requires Clean(n) == Clean(m) && n in files && m in files && files[n] != files[m]
    ensures Archive(files, a + [n]) != Archive(files, b + [m])
  {
    hide Clean, Sort, Packed, Names;
    var c := Clean(n);
    assert forall x | x in a :: x in a + [n];
    assert forall x | x in b :: x in b + [m];
    RangeStep(files, a, n);
    RangeStep(files, b, m);
    SortedNamesPacked(files, a + [n]);
    SortedNamesPacked(files, b + [m]);
    SortKeeps(Names(a + [n]), Lex);
    var sorted := Sort(Names(a + [n]), Lex);
    assert c in sorted;
    var i :| 0 <= i < |sorted| && sorted[i] == c;
    assert Archive(files, a + [n])[i] == Entry(c, Regular, files[n]);
    if i < |Archive(files, b + [m])| && Archive(files, b + [m])[i].name == c {
      assert Archive(files, b + [m])[i] == Entry(c, Regular, files[m]);
    }
  }

  /**
   * The promise that the same files pack to the same bytes every time holds exactly when no two names
   * clean to one path with different bodies. Otherwise which body is packed is the map's choice.
   */
  lemma DeterministicIff(files: map<string, string>)
    ensures (forall a, b | Ranges(a, files) && Ranges(b, files) :: Archive(files, a) == Archive(files, b)) <==>
            NoClash(files)
  {
    hide Clean, Archive, Ranges;
    if NoClash(files) {
      forall a, b | Ranges(a, files) && Ranges(b, files) ensures Archive(files, a) == Archive(files, b) {
        SameEveryTime(files, a, b);
      }
    } else {
      var n, m :| n in files && m in files && Clean(n) == Clean(m) && files[n] != files[m];
      var a, b := ClashDiffers(files, n, m);
    }
  }

  /** The smallest such set: the same path written two ways, with two bodies. */
  lemma TwoSpellings()
    ensures var files := map["a" := "1", "./a" := "2"]; Packable(files) && !NoClash(files)
  {
    var files := map["a" := "1", "./a" := "2"];
    assert Spelling("a") && Spelling("./a") by {
      SplitWhole("a");
      SplitHead(".", "a");
      assert "." + "/" + "a" == "./a";
      assert ["a"][..0] == [] && [".", "a"][..1] == ["."] && ["."][..0] == [];
    }
    assert "a" in files && "./a" in files && files["a"] == "1" && files["./a"] == "2";
  }

  predicate Spelling(name: string) {
    Clean(name) == "a" && PackPath(name).Ok?
  }
}
