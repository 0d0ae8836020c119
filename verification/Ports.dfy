/**
 * The egress port bound: parsed by internal/config/isolation.go, complemented by
 * internal/deploy/portrange.go and composed by internal/deploy/networkpolicy.go.
 */
module Ports {
  import opened Basics
  import opened Sorting

  const FIRST := 1
  const LAST := 65535

  /** One inclusive span of TCP ports. */
  datatype PortRange = PortRange(port: int, endPort: int)

  predicate InRange(p: int) {
    FIRST <= p <= LAST
  }

  predicate Covered(ranges: seq<PortRange>, p: int) {
    exists i :: 0 <= i < |ranges| && ranges[i].port <= p <= ranges[i].endPort
  }

  /** At least one wide each, in order, with a blocked port between any two. */
  predicate WellSpaced(ranges: seq<PortRange>) {
    && (forall i | 0 <= i < |ranges| :: FIRST <= ranges[i].port <= ranges[i].endPort <= LAST)
    && (forall i, j | 0 <= i < j < |ranges| :: ranges[i].endPort + 1 < ranges[j].port)
  }

  /** The entries the walk takes notice of: each one above every one before it. */
  function Records(blocked: seq<int>): set<int> {
    if blocked == [] then {}
    else
      var init, p := blocked[..|blocked| - 1], blocked[|blocked| - 1];
      if InRange(p) && p >= Next(init) then Records(init) + {p} else Records(init)
  }

  /** The lowest port not yet accounted for. */
  function Next(blocked: seq<int>): (n: int)
    ensures FIRST <= n <= LAST + 1
  {
    if blocked == [] then FIRST
    else
      var next, p := Next(blocked[..|blocked| - 1]), blocked[|blocked| - 1];
      if p < next || p > LAST then next else p + 1
  }

  lemma {:induction false} RecordsBelowNext(blocked: seq<int>)
    ensures forall p | p in Records(blocked) :: InRange(p) && p < Next(blocked) && p in blocked
    ensures Next(blocked) > FIRST ==> Next(blocked) - 1 in Records(blocked)
  {
    if blocked != [] {
      RecordsBelowNext(blocked[..|blocked| - 1]);
    }
  }

  /** Walks the list once. A port is in some range exactly when it is in the port space and not a record. */
  method AllowedPortRanges(blocked: seq<int>) returns (ranges: seq<PortRange>)
    ensures WellSpaced(ranges)
    ensures forall p :: Covered(ranges, p) <==> InRange(p) && p !in Records(blocked)
  {
    hide Covered;
    ranges := [];
    NothingCovered();
    var next := FIRST;
    for i := 0 to |blocked|
      invariant next == Next(blocked[..i])
      invariant WellSpaced(ranges) && forall j | 0 <= j < |ranges| :: ranges[j].endPort + 1 < next
      invariant forall p :: Covered(ranges, p) <==> FIRST <= p < next && p !in Records(blocked[..i])
    {
      var port := blocked[i];
      assert blocked[..i + 1][..i] == blocked[..i];
      RecordsBelowNext(blocked[..i]);
      if port < next || port > LAST {
        continue;
      }
      if port > next {
        CoveredOneMore(ranges, PortRange(next, port - 1));
        ranges := ranges + [PortRange(next, port - 1)];
      }
      next := port + 1;
    }
    assert blocked[..|blocked|] == blocked;
    RecordsBelowNext(blocked);
    if next <= LAST {
      CoveredOneMore(ranges, PortRange(next, LAST));
      ranges := ranges + [PortRange(next, LAST)];
    }
  }

  lemma NothingCovered()
    ensures forall p :: !Covered([], p)
  {
  }

  lemma CoveredOneMore(ranges: seq<PortRange>, r: PortRange)
    ensures forall p :: Covered(ranges + [r], p) <==> Covered(ranges, p) || r.port <= p <= r.endPort
  {
    forall p ensures Covered(ranges + [r], p) <==> Covered(ranges, p) || r.port <= p <= r.endPort {
      if Covered(ranges, p) {
        var i :| 0 <= i < |ranges| && ranges[i].port <= p <= ranges[i].endPort;
        assert (ranges + [r])[i] == ranges[i];
      }
      if r.port <= p <= r.endPort {
        assert (ranges + [r])[|ranges|] == r;
      }
    }
  }

  // ---- When the complement is exact --------------------------------------------------------------

  predicate Ascending(s: seq<int>) {
    forall i, j | 0 <= i < j < |s| :: s[i] < s[j]
  }

  /** The ports passed by are exactly the ports listed. */
  ghost predicate Exact(blocked: seq<int>) {
    forall p :: InRange(p) && p in blocked <==> p in Records(blocked)
  }

  /** Every port of the list that lies below an earlier one has been listed before. */
  predicate OnlyRepeatsRunBack(blocked: seq<int>) {
    forall i, j | 0 <= i < j < |blocked| && InRange(blocked[i]) && InRange(blocked[j]) && blocked[j] < blocked[i] ::
      blocked[j] in blocked[..j]
  }

  /** An entry is passed over exactly when an earlier one in the port space is at least as high. */
  lemma {:induction false} NextIsHighest(blocked: seq<int>, p: int)
    requires InRange(p)
    ensures p < Next(blocked) <==> exists i :: 0 <= i < |blocked| && InRange(blocked[i]) && blocked[i] >= p
  {
    if blocked != [] {
      var init, last := blocked[..|blocked| - 1], blocked[|blocked| - 1];
      NextIsHighest(init, p);
      if exists i :: 0 <= i < |init| && InRange(init[i]) && init[i] >= p {
        var i :| 0 <= i < |init| && InRange(init[i]) && init[i] >= p;
        assert blocked[i] == init[i];
      }
      if InRange(last) && last >= p {
        assert blocked[|blocked| - 1] == last;
      }
    }
  }

  /**
   * Every blocked port is out of reach exactly when no entry runs back except to repeat an earlier one.
   * A sorted list never does, which is what the loader establishes.
   */
  lemma {:induction false} ExactIffOnlyRepeatsRunBack(blocked: seq<int>)
    ensures Exact(blocked) <==> OnlyRepeatsRunBack(blocked)
  {
    hide Exact, OnlyRepeatsRunBack;
    if blocked == [] {
      NothingBlocked();
    } else {
      var init, last := blocked[..|blocked| - 1], blocked[|blocked| - 1];
      assert blocked == init + [last];
      ExactIffOnlyRepeatsRunBack(init);
      OneMoreExact(init, last);
      OneMoreEntry(init, last);
      if InRange(last) {
        NextIsHighest(init, last);
      }
    }
  }

  lemma NothingBlocked()
    ensures Exact([]) && OnlyRepeatsRunBack([])
  {
  }

  /** One more entry stays exact unless it is passed over without having been listed before. */
  lemma OneMoreExact(init: seq<int>, last: int)
    ensures Exact(init + [last]) <==> Exact(init) && (InRange(last) && last < Next(init) ==> last in init)
  {
    var blocked := init + [last];
    assert blocked[..|blocked| - 1] == init;
    RecordsBelowNext(init);
    if InRange(last) {
      NextIsHighest(init, last);
    }
    if Exact(blocked) {
      forall p | InRange(p) && p in init ensures p in Records(init) {
        assert p in blocked;
      }
    }
  }

  lemma OneMoreEntry(init: seq<int>, last: int)
    ensures OnlyRepeatsRunBack(init + [last]) <==>
              && OnlyRepeatsRunBack(init)
              && (InRange(last) && (exists i :: 0 <= i < |init| && InRange(init[i]) && init[i] > last) ==> last in init)
  {
    var blocked := init + [last];
    assert forall j | 0 <= j < |init| :: blocked[..j] == init[..j];
    assert blocked[..|init|] == init;
    if OnlyRepeatsRunBack(blocked) {
      forall i, j | 0 <= i < j < |init| && InRange(init[i]) && InRange(init[j]) && init[j] < init[i]
          ensures init[j] in init[..j] {
        assert blocked[i] == init[i] && blocked[j] == init[j];
      }
      if InRange(last) && exists i :: 0 <= i < |init| && InRange(init[i]) && init[i] > last {
        var i :| 0 <= i < |init| && InRange(init[i]) && init[i] > last;
        assert blocked[i] == init[i] && blocked[|init|] == last;
      }
    }
  }

  /** An out of order entry is skipped, so its port stays reachable: 25 after 80. */
  lemma OutOfOrderWidens()
    ensures 25 in [80, 25] && 25 !in Records([80, 25])
  {
  }

  lemma AscendingIsExact(blocked: seq<int>)
    requires Ascending(blocked)
    ensures Exact(blocked)
  {
    ExactIffOnlyRepeatsRunBack(blocked);
  }

  // ---- The loader --------------------------------------------------------------------------------

  /** One comma separated entry, after trimming. */
  datatype Entry = Blank | Number(value: int) | Junk

  /** slices.Compact: the first of every run of equal entries. */
  method Compact(s: seq<int>) returns (r: seq<int>)
    requires forall i, j | 0 <= i < j < |s| :: s[i] <= s[j]
    ensures Ascending(r) && forall p :: p in r <==> p in s
  {
    r := [];
    for i := 0 to |s|
      invariant Ascending(r) && (forall p :: p in r <==> p in s[..i])
      invariant |r| > 0 <==> i > 0
      invariant i > 0 ==> r[|r| - 1] == s[i - 1]
    {
      assert s[..i + 1] == s[..i] + [s[i]];
      if i == 0 || s[i] != s[i - 1] {
        r := r + [s[i]];
      }
    }
    assert s[..|s|] == s;
  }

  predicate AtMost(a: int, b: int) {
    a <= b
  }

  /** The usable numbers, and whether everything else was blank. */
  method ReadEntries(entries: seq<Entry>) returns (ok: bool, read: seq<int>)
    ensures forall p :: p in read <==> InRange(p) && Number(p) in entries
    ensures ok <==> forall e | e in entries :: e.Blank? || (e.Number? && InRange(e.value))
  {
    ok, read := true, [];
    for i := 0 to |entries|
      invariant forall p :: p in read <==> InRange(p) && Number(p) in entries[..i]
      invariant ok <==> forall e | e in entries[..i] :: e.Blank? || (e.Number? && InRange(e.value))
    {
      var entry := entries[i];
      assert entries[..i + 1] == entries[..i] + [entry];
      assert forall e :: e in entries[..i + 1] <==> e in entries[..i] || e == entry;
      match entry {
        case Blank =>
        case Junk => ok := false;
        case Number(port) =>
          if port < FIRST || port > LAST {
            ok := false;
          } else {
            read := read + [port];
          }
      }
    }
    assert entries[..|entries|] == entries;
  }

  /** Reads the list, and accepts it only when it blocks something and leaves something. */
  method LoadPortBound(entries: seq<Entry>) returns (ok: bool, blocked: seq<int>)
    ensures Ascending(blocked)
    ensures forall p :: p in blocked <==> 1 <= p <= 65535 && Number(p) in entries
    ensures ok <==> && (forall e | e in entries :: e.Blank? || (e.Number? && 1 <= e.value <= 65535))
                    && blocked != [] && |blocked| != 65535
  {
    var read;
    ok, read := ReadEntries(entries);
    var sorted := Sort(read, AtMost);
    SortSorted(read, AtMost);
    SortKeeps(read, AtMost);
    assert forall i, j | 0 <= i < j < |sorted| :: AtMost(sorted[i], sorted[j]);
    blocked := Compact(sorted);
    if |blocked| == 0 || |blocked| == LAST - FIRST + 1 {
      ok := false;
    }
  }

  /** The ports from 1 to n. */
  function UpTo(n: nat): (s: set<int>)
    ensures |s| == n && forall p :: p in s <==> 1 <= p <= n
  {
    if n == 0 then {} else UpTo(n - 1) + {n}
  }

  lemma {:induction false} AscendingSize(s: seq<int>)
    requires Ascending(s)
    ensures |set p | p in s| == |s|
  {
    if s != [] {
      var init, last := s[..|s| - 1], s[|s| - 1];
      AscendingSize(init);
      assert s == init + [last];
      assert last !in init;
      assert (set p | p in s) == (set p | p in init) + {last};
    }
  }

  /** A list short of the whole port space leaves a port open. */
  lemma SomePortOpen(blocked: seq<int>)
    requires Ascending(blocked) && (forall p | p in blocked :: InRange(p)) && |blocked| != LAST - FIRST + 1
    ensures exists p :: InRange(p) && p !in blocked
  {
    AscendingSize(blocked);
    var listed := set p | p in blocked;
    assert listed != UpTo(LAST);
    assert listed <= UpTo(LAST);
  }

  // ---- The policy --------------------------------------------------------------------------------

  datatype Protocol = TCP | UDP

  /** A NetworkPolicyPort: no range at all means every port of its protocol. */
  datatype PolicyPort = PolicyPort(protocol: Protocol, range: Option<PortRange>)

  /** What a list of policy ports lets an app reach. */
  predicate Permits(ports: seq<PolicyPort>, protocol: Protocol, p: int) {
    exists i :: 0 <= i < |ports| && ports[i].protocol == protocol
                && (ports[i].range.None? || ports[i].range.value.port <= p <= ports[i].range.value.endPort)
  }

  /** One TCP entry an allowed range, and one UDP entry for every UDP port. */
  method PublicEgressPorts(blocked: seq<int>) returns (ports: seq<PolicyPort>)
    requires Ascending(blocked)
    ensures forall p :: Permits(ports, TCP, p) <==> 1 <= p <= 65535 && p !in blocked
    ensures forall p :: Permits(ports, UDP, p)
  {
    var allowed := AllowedPortRanges(blocked);
    AscendingIsExact(blocked);
    ports := [];
    for i := 0 to |allowed|
      invariant |ports| == i && forall j | 0 <= j < i :: ports[j] == PolicyPort(TCP, Some(allowed[j]))
    {
      ports := ports + [PolicyPort(TCP, Some(allowed[i]))];
    }
    ghost var tcp := ports;
    ports := ports + [PolicyPort(UDP, None)];
    forall p ensures Permits(ports, TCP, p) <==> InRange(p) && p !in blocked {
      if Covered(allowed, p) {
        var i :| 0 <= i < |allowed| && allowed[i].port <= p <= allowed[i].endPort;
        assert ports[i] == tcp[i];
      }
    }
    forall p ensures Permits(ports, UDP, p) {
      assert ports[|tcp|].protocol == UDP;
    }
  }

  /**
   * From the configured list to the composed policy: an accepted list is an exact bound. A TCP port is
   * reachable exactly when it is in 1..65535 and not listed, at least one is and at least one is not,
   * and UDP is not conditioned at all.
   */
  method ComposeBound(entries: seq<Entry>) returns (ok: bool, ports: seq<PolicyPort>)
    ensures ok ==> forall p :: Permits(ports, TCP, p) <==> 1 <= p <= 65535 && Number(p) !in entries
    ensures ok ==> (exists p :: Permits(ports, TCP, p)) && (exists p :: 1 <= p <= 65535 && !Permits(ports, TCP, p))
    ensures ok ==> forall p :: Permits(ports, UDP, p)
  {
    var blocked;
    ok, blocked := LoadPortBound(entries);
    ports := PublicEgressPorts(blocked);
    if ok {
      SomePortOpen(blocked);
      var open :| InRange(open) && open !in blocked;
      assert Permits(ports, TCP, open);
      assert InRange(blocked[0]) && !Permits(ports, TCP, blocked[0]);
    }
  }
}
