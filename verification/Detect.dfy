/** Choosing the build engine by an archive's headers: internal/source/detect.go. */
module Detection {
  import opened Basics
  import opened Paths
  import opened Packing
  import opened Extraction

  const DOCKERFILE := "Dockerfile"

  /** Refuses a read once the bound on decompressed bytes is spent. */
  class BoundedReader {
    const max: int
    var left: int
    ghost var taken: nat

    constructor (max: int)
      ensures left == max == this.max && taken == 0
    {
      this.max, left, taken := max, max, 0;
    }

    /** At least one byte and at most what is wanted, what is left, and what the source gives. */
    method Read(want: nat) returns (n: Option<nat>)
      requires want > 0
      modifies this
      ensures n.None? <==> old(left) <= 0
      ensures n.None? ==> left == old(left) && taken == old(taken)
      ensures n.Some? ==> 0 < n.value <= want && left == old(left) - n.value >= 0 && taken == old(taken) + n.value
    {
      if left <= 0 {
        return None;
      }
      var given: int := *;
      var most := if want > left then left else want;
      var count: nat := if 0 < given <= most then given else most;
      left, taken := left - count, taken + count;
      n := Some(count);
    }

    /** Reads on until a whole header or body has gone by: refused exactly when it passes the bound. */
    method ReadFull(size: nat) returns (ok: bool)
      modifies this
      ensures ok <==> size == 0 || size <= old(left)
      ensures ok ==> left == old(left) - size && taken == old(taken) + size
    {
      var rest := size;
      while rest > 0
        invariant 0 <= rest <= size && left == old(left) - (size - rest) && taken == old(taken) + (size - rest)
        invariant rest < size ==> left >= 0
      {
        var n := Read(rest);
        if n.None? {
          return false;
        }
        rest := rest - n.value;
      }
      ok := true;
    }

    /** A read past the end of the stream: answered, with nothing, only while some of the bound is left. */
    method ReadEnd() returns (ok: bool)
      ensures ok <==> left > 0
    {
      ok := left > 0;
    }
  }

  predicate Selects(e: Entry) {
    e.kind == Regular && Clean(e.name) == DOCKERFILE
  }

  lemma SelectsMeans(e: Entry)
    ensures Selects(e) <==> e.kind == Regular && Clean(e.name) == "Dockerfile"
  {
    hide Clean;
  }

  function Total(sizes: seq<nat>): nat {
    if sizes == [] then 0 else Total(sizes[..|sizes| - 1]) + sizes[|sizes| - 1]
  }

  /**
   * Whether a regular file unpacks to Dockerfile at the root. `sizes` is what each entry takes of the
   * decompressed stream, header, body and padding, `trailer` what ends it, and `closed` whether that is
   * the two zero blocks after which nothing more is read. No answer is given for a stream that is
   * refused: one that breaks, or passes either limit, or is not closed and has spent the whole bound.
   */
  method HasRootDockerfile(stream: Stream, sizes: seq<nat>, trailer: nat, closed: bool,
                           lim: Limits) returns (found: bool, ok: bool)
    requires |sizes| == |stream.entries|
    ensures ok <==> && stream.gzip && stream.intact && (|sizes| == 0 || |sizes| <= lim.maxFiles)
                    && (Total(sizes) + trailer == 0 || Total(sizes) + trailer <= lim.maxBytes)
                    && (closed || Total(sizes) + trailer < lim.maxBytes)
    ensures ok ==> (found <==> exists e :: e in stream.entries && Selects(e))
    ensures ok ==> (found <==> exists e :: e in stream.entries && e.kind == Regular && Clean(e.name) == "Dockerfile")
  {
    hide Selects, Clean;
    if !stream.gzip {
      return false, false;
    }
    var reader := new BoundedReader(lim.maxBytes);
    var files := 0;
    found := false;
    for i := 0 to |stream.entries|
      invariant files == i && (i == 0 || i <= lim.maxFiles)
      invariant reader.taken == Total(sizes[..i]) && reader.left == lim.maxBytes - reader.taken
      invariant reader.taken == 0 || reader.taken <= lim.maxBytes
      invariant found <==> exists e :: e in stream.entries[..i] && Selects(e)
    {
      var header := stream.entries[i];
      assert sizes[..i + 1][..i] == sizes[..i];
      assert stream.entries[..i + 1] == stream.entries[..i] + [header];
      TotalGrows(sizes, i + 1);
      var read := reader.ReadFull(sizes[i]);
      if !read {
        return false, false;
      }
      files := files + 1;
      if files > lim.maxFiles {
        return false, false;
      }
      if Selects(header) {
        found := true;
      }
      assert forall e :: e in stream.entries[..i + 1] <==> e in stream.entries[..i] || e == header;
    }
    forall e ensures Selects(e) <==> e.kind == Regular && Clean(e.name) == "Dockerfile" {
      SelectsMeans(e);
    }
    assert sizes[..|sizes|] == sizes && stream.entries[..|stream.entries|] == stream.entries;
    if !stream.intact {
      return false, false;
    }
    ok := reader.ReadFull(trailer);
    if ok && !closed {
      ok := reader.ReadEnd();
    }
  }

  /** What two stretches of the stream take together. */
  lemma {:induction false} TotalAdds(a: seq<nat>, b: seq<nat>, n: nat)
    ensures Total(a + b) == Total(a) + Total(b) && Total([n]) == n && Total([]) == 0
  {
    assert [n][..0] == [];
    if b == [] {
      assert a + b == a;
    } else {
      TotalAdds(a, b[..|b| - 1], n);
      assert (a + b)[..|a + b| - 1] == a + b[..|b| - 1];
    }
  }

  lemma {:induction false} TotalGrows(sizes: seq<nat>, n: nat)
    requires n <= |sizes|
    ensures Total(sizes[..n]) <= Total(sizes)
    decreases |sizes|
  {
    if n < |sizes| {
      TotalGrows(sizes[..|sizes| - 1], n);
      assert sizes[..|sizes| - 1][..n] == sizes[..n];
    } else {
      assert sizes[..n] == sizes;
    }
  }

  // ---- Agreement with the extractor --------------------------------------------------------------

  /** For a name the extractor accepts, cleaning to Dockerfile is landing at the root's Dockerfile. */
  lemma SelectsByTarget(root: Path, e: Entry)
    requires root != [] && SafePath(root, e.name).Ok?
    ensures Clean(e.name) == DOCKERFILE <==> Target(root, e) == root + [DOCKERFILE]
  {
    hide Walk, SafePath;
    SafePathIff(root, e.name);
    CleanRelative(e.name);
    var parts := Walk(Split(e.name), false);
    SplitWhole(DOCKERFILE);
    if Target(root, e) == root + [DOCKERFILE] {
      assert parts == Target(root, e)[|root|..] == [DOCKERFILE];
      assert Join([DOCKERFILE]) == DOCKERFILE;
    }
  }

  lemma {:induction false} CarriedBy(root: Path, entries: seq<Entry>, p: Path)
    ensures p in Carried(root, entries) <==> exists e :: e in entries && e.kind == Regular && Target(root, e) == p
  {
    hide Target;
    if entries != [] {
      CarriedBy(root, entries[1..], p);
      assert entries == [entries[0]] + entries[1..];
      assert forall e :: e in entries <==> e == entries[0] || e in entries[1..];
    }
  }

  /**
   * Detection answers for the tree the build gets: when both accept an archive into an empty root, it
   * selects the Dockerfile engine exactly when there is a regular file at root/Dockerfile.
   */
  lemma DetectionAgrees(t: Tree, root: Path, stream: Stream, lim: Limits)
    requires root != [] && root + [DOCKERFILE] !in Files(t) && Extracted(t, root, stream, lim).1
    ensures (exists e :: e in stream.entries && Selects(e))
            <==> root + ["Dockerfile"] in Files(Extracted(t, root, stream, lim).0)
  {
    hide SafePath, Extracted, Target, Clean;
    UnhideAccepted(t, root, stream, lim);
    var p := root + [DOCKERFILE];
    CarriedBy(root, stream.entries, p);
    forall e | e in stream.entries ensures Selects(e) <==> e.kind == Regular && Target(root, e) == p {
      SelectsByTarget(root, e);
    }
  }

  lemma UnhideAccepted(t: Tree, root: Path, stream: Stream, lim: Limits)
    requires root != [] && Extracted(t, root, stream, lim).1
    ensures Files(Extracted(t, root, stream, lim).0) == Files(t) + Carried(root, stream.entries)
    ensures forall e | e in stream.entries :: SafePath(root, e.name).Ok?
  {
    hide SafePath, ExtractFrom, Files, Carried;
    FromLeaves(t, root, stream.entries, stream.intact, 0, lim.maxBytes, lim);
  }
}
