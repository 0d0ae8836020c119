/**
 * The rate limiter: internal/identity/limiter.go. A token bucket a client, a doubling lockout a key,
 * and an hourly sweep of both. Times and durations are nanoseconds. A call reads the clock before it
 * takes the lock, so readings are processed in any order: the window bound holds in every one, and
 * eviction is invisible as long as no reading lags the latest one by more than the settings leave room
 * for. Tokens are reals, so rounding is not part of this model.
 */
module Limiters {
  import opened Basics

  const SECOND := 1_000_000_000
  const MINUTE := 60 * SECOND
  const IDLE_EVICTION := 60 * MINUTE

  datatype Settings = Settings(capacity: nat, refill: int, freeFailures: nat, lockoutBase: int, lockoutCeiling: int)

  const SIGN_IN := Settings(10, 6 * SECOND, 5, 30 * SECOND, 15 * MINUTE)
  const DEPLOY_PATH := Settings(30, 2 * SECOND, 5, 30 * SECOND, 15 * MINUTE)

  // ---- The lockout -----------------------------------------------------------------------------

  const TWO63: int := 0x8000_0000_0000_0000
  const TWO64: int := 0x1_0000_0000_0000_0000

  function Pow2(n: nat): (p: nat)
    ensures p >= 1
  {
    if n == 0 then 1 else 2 * Pow2(n - 1)
  }

  /** An int64 shifted left: the low 64 bits, read as two's complement. */
  function ShiftLeft(x: int, k: nat): (r: int)
    ensures -TWO63 <= r < TWO63
  {
    var low := (x * Pow2(k)) % TWO64;
    if low >= TWO63 then low - TWO64 else low
  }

  /** The penalty after this many failures: a wrapping shift and a clamp on both sides. */
  function Penalty(s: Settings, failures: nat): int
    requires failures >= s.freeFailures
  {
    var delay := ShiftLeft(s.lockoutBase, failures - s.freeFailures);
    if delay > s.lockoutCeiling || delay <= 0 then s.lockoutCeiling else delay
  }

  predicate Shipped(s: Settings) {
    s == SIGN_IN || s == DEPLOY_PATH
  }

  function Min(a: int, b: int): int {
    if a <= b then a else b
  }

  lemma {:induction false} Pow2Adds(a: nat, b: nat)
    ensures Pow2(a + b) == Pow2(a) * Pow2(b)
  {
    if b > 0 {
      Pow2Adds(a, b - 1);
      assert Pow2(a + b) == 2 * Pow2(a + b - 1);
    }
  }

  lemma Pow2Table()
    ensures Pow2(4) == 16 && Pow2(5) == 32 && Pow2(10) == 1024 && Pow2(28) == 0x1000_0000 && Pow2(31) == 0x8000_0000
  {
    assert Pow2(5) == 32;
    Pow2Adds(5, 5);
    Pow2Adds(10, 10);
    Pow2Adds(20, 8);
    assert Pow2(8) == 2 * Pow2(7) && Pow2(7) == 4 * Pow2(5);
    assert Pow2(31) == 2 * Pow2(30) && Pow2(30) == 4 * Pow2(28);
  }

  lemma {:induction false} Pow2Grows(a: nat, b: nat)
    requires a <= b
    ensures Pow2(a) <= Pow2(b)
  {
    if a < b {
      Pow2Grows(a, b - 1);
    }
  }

  /** Once the shift has cleared 41 low bits, what wraps round is nothing, negative, or past the ceiling. */
  lemma WrappedMultiple(m: nat)
    ensures var low := (m * 0x200_0000_0000) % TWO64;
            low == 0 || low >= 0x200_0000_0000
  {
  }

  /**
   * For every failure count the wrapping shift and the clamp give min(30s * 2^(n - 5), 15min), as if
   * the arithmetic had been unbounded.
   */
  lemma PenaltyIsTheDoublingClamped(s: Settings, n: nat)
    requires Shipped(s) && n >= s.freeFailures
    ensures Penalty(s, n) == Min(s.lockoutBase * Pow2(n - s.freeFailures), s.lockoutCeiling)
    ensures s.freeFailures == 5 && s.lockoutBase == 30 * SECOND && s.lockoutCeiling == 15 * MINUTE
  {
    hide ShiftLeft, Pow2;
    var k := n - s.freeFailures;
    var exact := s.lockoutBase * Pow2(k);
    Pow2Table();
    if k <= 4 {
      Pow2Grows(k, 4);
      ShiftWithin(s.lockoutBase, k);
    } else if k <= 28 {
      Pow2Grows(5, k);
      Pow2Grows(k, 28);
      ShiftWithin(s.lockoutBase, k);
    } else {
      Pow2Grows(5, k);
      ShiftWraps(s.lockoutBase, k);
    }
  }

  /** A shift that still fits an int64 is exact. */
  lemma ShiftWithin(x: int, k: nat)
    requires 0 <= x * Pow2(k) < TWO63
    ensures ShiftLeft(x, k) == x * Pow2(k)
  {
  }

  /** A shift of 30s that no longer fits reads as nothing, as negative, or as more than the ceiling. */
  lemma ShiftWraps(x: int, k: nat)
    requires x == 30 * SECOND && k >= 29
    ensures ShiftLeft(x, k) <= 0 || ShiftLeft(x, k) > 15 * MINUTE
  {
    Pow2Table();
    if k == 29 {
      assert Pow2(29) == 2 * Pow2(28);
    } else if k == 30 {
      assert Pow2(30) == 2 * Pow2(29) && Pow2(29) == 2 * Pow2(28);
    } else {
      hide Pow2;
      Pow2Adds(31, k - 31);
      WrappedMultiple(29296875 * Pow2(k - 31));
      assert x * Pow2(k) == 29296875 * Pow2(k - 31) * 0x200_0000_0000;
    }
  }

  /** So the penalty never falls as failures mount, starts at the base, and never passes the ceiling. */
  lemma PenaltyMonotone(s: Settings, n: nat, m: nat)
    requires Shipped(s) && s.freeFailures <= n <= m
    ensures s.lockoutBase <= Penalty(s, n) <= Penalty(s, m) <= s.lockoutCeiling
  {
    PenaltyIsTheDoublingClamped(s, n);
    PenaltyIsTheDoublingClamped(s, m);
    Pow2Grows(n - s.freeFailures, m - s.freeFailures);
    Pow2Grows(0, n - s.freeFailures);
  }

  // ---- The bucket, on its own --------------------------------------------------------------------

  datatype Bucket = Bucket(tokens: real, seen: int)

  /** Settings whose buckets fill within the time they may be forgotten in, readings lagging by this much at most. */
  predicate Fits(s: Settings, lag: nat) {
    s.capacity >= 1 && s.refill > 0 && s.capacity * s.refill + 2 * lag <= IDLE_EVICTION
  }

  /** Both shipped settings fill in a minute, which leaves readings half an hour to lag by. */
  lemma ShippedFits(s: Settings, lag: nat)
    requires Shipped(s) && lag <= 29 * MINUTE
    ensures Fits(s, lag)
  {
  }

  function Refilled(s: Settings, b: Bucket, now: int): real
    requires s.refill > 0
  {
    var tokens := b.tokens + (now - b.seen) as real / s.refill as real;
    if tokens <= s.capacity as real then tokens else s.capacity as real
  }

  /** What a call finds in the bucket: a client never seen has a full one. */
  function Balance(s: Settings, buckets: map<string, Bucket>, client: string, now: int): real
    requires s.refill > 0
  {
    if client in buckets then Refilled(s, buckets[client], now) else s.capacity as real
  }

  function Spent(s: Settings, buckets: map<string, Bucket>, client: string, now: int): map<string, Bucket>
    requires s.refill > 0
  {
    var tokens := Balance(s, buckets, client, now);
    buckets[client := Bucket(if tokens < 1.0 then tokens else tokens - 1.0, now)]
  }

  /** Full at the most; and it would not be in debt at `peak`, the highest reading it has seen. */
  predicate BucketOk(s: Settings, b: Bucket, peak: int)
    requires s.refill > 0
  {
    b.tokens <= s.capacity as real && b.seen <= peak && 0.0 <= b.tokens + (peak - b.seen) as real / s.refill as real
  }

  lemma SpentOk(s: Settings, buckets: map<string, Bucket>, client: string, at: int, peak: int, higher: int)
    requires s.capacity >= 1 && s.refill > 0 && higher == if client in buckets && at < peak then peak else at
    requires client in buckets ==> BucketOk(s, buckets[client], peak)
    ensures BucketOk(s, Spent(s, buckets, client, at)[client], higher)
  {
    var r := s.refill as real;
    if client in buckets {
      var b := buckets[client];
      Apart(b.seen, at, higher, r);
      Apart(b.seen, peak, higher, r);
      assert (higher - at) as real / r >= 0.0 && (higher - peak) as real / r >= 0.0;
    }
  }

  /** What trickles in between two moments, by way of a third. */
  lemma Apart(a: int, b: int, c: int, r: real)
    requires r > 0.0
    ensures (b - a) as real / r + (c - b) as real / r == (c - a) as real / r
  {
    assert (b - a) as real + (c - b) as real == (c - a) as real;
  }

  /** A bucket idle long enough after its highest reading is full again, whatever it held. */
  lemma IdleIsFull(s: Settings, b: Bucket, peak: int, now: int)
    requires s.refill > 0 && BucketOk(s, b, peak) && now - peak >= s.capacity * s.refill
    ensures Refilled(s, b, now) == s.capacity as real
  {
    var r := s.refill as real;
    Apart(b.seen, peak, now, r);
    DivideMonotone((s.capacity * s.refill) as real, (now - peak) as real, r);
    assert (s.capacity * s.refill) as real / r == s.capacity as real;
  }

  // ---- The window bound --------------------------------------------------------------------------

  datatype Call = Call(client: string, at: int)

  /** No reading is processed more than this behind any before it. */
  predicate Lagging(calls: seq<Call>, lag: nat) {
    forall i, j | 0 <= i < j < |calls| :: calls[i].at <= calls[j].at + lag
  }

  /** The buckets after these calls, none ever evicted. */
  function Buckets(s: Settings, calls: seq<Call>): map<string, Bucket>
    requires s.refill > 0
  {
    if calls == [] then map[]
    else Spent(s, Buckets(s, calls[..|calls| - 1]), calls[|calls| - 1].client, calls[|calls| - 1].at)
  }

  /** Whether the last call was let through. */
  predicate LastAllowed(s: Settings, calls: seq<Call>)
    requires s.refill > 0 && calls != []
  {
    Balance(s, Buckets(s, calls[..|calls| - 1]), calls[|calls| - 1].client, calls[|calls| - 1].at) >= 1.0
  }

  /** How many calls of one client were let through between two moments. */
  function Allowed(s: Settings, calls: seq<Call>, client: string, from: int, to: int): nat
    requires s.refill > 0
  {
    if calls == [] then 0
    else
      var last := calls[|calls| - 1];
      Allowed(s, calls[..|calls| - 1], client, from, to)
      + if last.client == client && from <= last.at <= to && LastAllowed(s, calls) then 1 else 0
  }

  /** The highest of this client's readings, or the given one where there are none. */
  function Peak(calls: seq<Call>, client: string, none: int): int {
    if calls == [] then none
    else
      var init, last := calls[..|calls| - 1], calls[|calls| - 1];
      if last.client != client then Peak(init, client, none)
      else if exists i :: 0 <= i < |init| && init[i].client == client
      then (var p := Peak(init, client, none); if last.at < p then p else last.at)
      else last.at
  }

  lemma {:induction false} RunOk(s: Settings, calls: seq<Call>, client: string)
    requires s.capacity >= 1 && s.refill > 0
    ensures client in Buckets(s, calls) <==> exists i :: 0 <= i < |calls| && calls[i].client == client
    ensures client in Buckets(s, calls) ==> BucketOk(s, Buckets(s, calls)[client], Peak(calls, client, 0))
  {
    hide Spent, BucketOk;
    if calls != [] {
      var init, last := calls[..|calls| - 1], calls[|calls| - 1];
      RunOk(s, init, client);
      SpentKeys(s, Buckets(s, init), last.client, last.at);
      assert forall i | 0 <= i < |init| :: init[i] == calls[i];
      if last.client == client {
        assert calls[|calls| - 1].client == client;
        SpentOk(s, Buckets(s, init), client, last.at, Peak(init, client, 0), Peak(calls, client, 0));
      }
    }
  }

  lemma SpentKeys(s: Settings, buckets: map<string, Bucket>, client: string, at: int)
    requires s.refill > 0
    ensures Spent(s, buckets, client, at).Keys == buckets.Keys + {client}
    ensures forall c | c in buckets && c != client :: Spent(s, buckets, client, at)[c] == buckets[c]
    ensures Spent(s, buckets, client, at)[client].seen == at
  {
  }

  /** A client's highest reading is at most the lag ahead of its last. */
  lemma {:induction false} PeakNear(s: Settings, calls: seq<Call>, client: string, lag: nat)
    requires s.capacity >= 1 && s.refill > 0 && Lagging(calls, lag) && client in Buckets(s, calls)
    ensures Peak(calls, client, 0) <= Buckets(s, calls)[client].seen + lag
    ensures exists i :: 0 <= i < |calls| && calls[i].client == client && calls[i].at == Peak(calls, client, 0)
  {
    hide Spent;
    var init, last := calls[..|calls| - 1], calls[|calls| - 1];
    SpentKeys(s, Buckets(s, init), last.client, last.at);
    RunOk(s, init, client);
    if client in Buckets(s, init) {
      PeakNear(s, init, client, lag);
      var i :| 0 <= i < |init| && init[i].client == client && init[i].at == Peak(init, client, 0);
      assert calls[i] == init[i];
      assert last == calls[|calls| - 1];
    } else {
      assert calls[|calls| - 1].client == client;
    }
  }

  /**
   * Every call let through in the window was paid for, in whatever order the readings came: what is left
   * of the bucket, had it been idle from the window's start, only ever goes down, and by one each time.
   */
  lemma {:induction false} Paid(s: Settings, calls: seq<Call>, client: string, from: int, to: int)
    requires s.capacity >= 1 && s.refill > 0
    ensures var n := Allowed(s, calls, client, from, to);
            n > 0 ==> && client in Buckets(s, calls)
                      && n as real + Buckets(s, calls)[client].tokens
                           <= s.capacity as real + (Buckets(s, calls)[client].seen - from) as real / s.refill as real
  {
    hide Balance, Spent;
    if calls != [] {
      var init, last := calls[..|calls| - 1], calls[|calls| - 1];
      Paid(s, init, client, from, to);
      SpentKeys(s, Buckets(s, init), last.client, last.at);
      if last.client == client {
        PaidOnce(s, Buckets(s, init), client, from, to, last.at, Allowed(s, init, client, from, to));
      }
    }
  }

  /** One more call of this client. */
  lemma PaidOnce(s: Settings, buckets: map<string, Bucket>, client: string, from: int, to: int, at: int, n: nat)
    requires s.capacity >= 1 && s.refill > 0
    requires n > 0 ==> client in buckets
                       && n as real + buckets[client].tokens
                            <= s.capacity as real + (buckets[client].seen - from) as real / s.refill as real
    ensures var allowed := Balance(s, buckets, client, at) >= 1.0;
            var m := n + if from <= at <= to && allowed then 1 else 0;
            m > 0 ==> m as real + Spent(s, buckets, client, at)[client].tokens
                        <= s.capacity as real + (at - from) as real / s.refill as real
  {
    var r := s.refill as real;
    if from <= at {
      assert (at - from) as real / r >= 0.0;
    }
    if n > 0 {
      Apart(from, buckets[client].seen, at, r);
    }
  }

  /**
   * Over any run of calls by anybody, whatever order their readings of the clock are processed in, one
   * client is let through at most capacity plus one call per refill interval in any window: the last one
   * let through had a whole token to spend, at a moment of the window.
   */
  lemma {:induction false} WindowBound(s: Settings, calls: seq<Call>, client: string, from: int, to: int)
    requires s.capacity >= 1 && s.refill > 0 && from <= to
    ensures Allowed(s, calls, client, from, to) as real <= s.capacity as real + (to - from) as real / s.refill as real
  {
    hide Balance, Spent;
    var r := s.refill as real;
    if calls == [] {
      assert (to - from) as real / r >= 0.0;
    } else {
      var init, last := calls[..|calls| - 1], calls[|calls| - 1];
      WindowBound(s, init, client, from, to);
      if last.client == client && from <= last.at <= to && LastAllowed(s, calls) {
        Paid(s, calls, client, from, to);
        SpentLeaves(s, Buckets(s, init), client, last.at);
        DivideMonotone((last.at - from) as real, (to - from) as real, r);
      }
    }
  }

  /** So what is shipped lets one client through at most twenty times in a minute, or sixty on the deploy path. */
  lemma ShippedWindow(calls: seq<Call>, client: string, from: int)
    ensures Allowed(SIGN_IN, calls, client, from, from + 60_000_000_000) <= 20
    ensures Allowed(DEPLOY_PATH, calls, client, from, from + 60_000_000_000) <= 60
  {
    WindowBound(SIGN_IN, calls, client, from, from + 60_000_000_000);
    WindowBound(DEPLOY_PATH, calls, client, from, from + 60_000_000_000);
  }

  /** Nothing trickles in at once. */
  lemma AtOnce(s: Settings, b: Bucket, at: int)
    requires s.refill > 0 && b.seen == at && b.tokens <= s.capacity as real
    ensures Refilled(s, b, at) == b.tokens
  {
    assert (at - at) as real / s.refill as real == 0.0;
  }

  /** So many calls of one client at one moment. */
  function Burst(client: string, at: int, n: nat): (calls: seq<Call>)
    ensures |calls| == n
  {
    if n == 0 then [] else Burst(client, at, n - 1) + [Call(client, at)]
  }

  /** At one moment a client is let through exactly as often as the bucket holds: ten times, or thirty. */
  lemma {:induction false} BurstExactly(s: Settings, client: string, at: int, n: nat)
    requires s.capacity >= 1 && s.refill > 0 && n > 0
    ensures LastAllowed(s, Burst(client, at, n)) <==> n <= s.capacity
    ensures client in Buckets(s, Burst(client, at, n))
    ensures Buckets(s, Burst(client, at, n))[client]
            == Bucket((s.capacity - if n <= s.capacity then n else s.capacity) as real, at)
    ensures SIGN_IN.capacity == 10 && DEPLOY_PATH.capacity == 30
  {
    hide Refilled;
    var calls := Burst(client, at, n);
    assert calls[..n - 1] == Burst(client, at, n - 1) && calls[n - 1] == Call(client, at);
    if n > 1 {
      BurstExactly(s, client, at, n - 1);
      AtOnce(s, Buckets(s, calls[..n - 1])[client], at);
    }
  }

  lemma SpentLeaves(s: Settings, buckets: map<string, Bucket>, client: string, at: int)
    requires s.refill > 0 && Balance(s, buckets, client, at) >= 1.0
    ensures Spent(s, buckets, client, at)[client].tokens >= 0.0 && Spent(s, buckets, client, at)[client].seen == at
  {
  }

  // ---- What is never refused ---------------------------------------------------------------------

  /** This client's readings are processed in order. */
  predicate InOrder(calls: seq<Call>, client: string) {
    forall i, j | 0 <= i < j < |calls| && calls[i].client == client && calls[j].client == client ::
      calls[i].at <= calls[j].at
  }

  /** Counting on to a later moment counts no less. */
  lemma {:induction false} AllowedLonger(s: Settings, calls: seq<Call>, client: string, from: int, to: int, later: int)
    requires s.refill > 0 && to <= later
    ensures Allowed(s, calls, client, from, to) <= Allowed(s, calls, client, from, later)
  {
    hide LastAllowed;
    if calls != [] {
      AllowedLonger(s, calls[..|calls| - 1], client, from, to, later);
    }
  }

  lemma {:induction false} SeenLast(s: Settings, calls: seq<Call>, client: string)
    requires s.refill > 0 && client in Buckets(s, calls)
    ensures exists i :: 0 <= i < |calls| && calls[i].client == client && calls[i].at == Buckets(s, calls)[client].seen
  {
    hide Spent;
    var init, last := calls[..|calls| - 1], calls[|calls| - 1];
    SpentKeys(s, Buckets(s, init), last.client, last.at);
    if last.client == client {
      assert calls[|calls| - 1].client == client;
    } else {
      SeenLast(s, init, client);
      var i :| 0 <= i < |init| && init[i].client == client && init[i].at == Buckets(s, init)[client].seen;
      assert calls[i] == init[i];
    }
  }

  /**
   * Whatever is missing from a bucket was spent: since some moment at which it was full, so many of the
   * client's calls were let through.
   */
  lemma {:induction false} SpentSince(s: Settings, calls: seq<Call>, client: string) returns (from: int)
    requires s.capacity >= 1 && s.refill > 0 && InOrder(calls, client) && client in Buckets(s, calls)
    ensures var b := Buckets(s, calls)[client];
            && from <= b.seen
            && Allowed(s, calls, client, from, b.seen) as real
                 >= s.capacity as real - b.tokens + (b.seen - from) as real / s.refill as real
  {
    hide Balance, Spent, LastAllowed;
    var init, last := calls[..|calls| - 1], calls[|calls| - 1];
    SpentKeys(s, Buckets(s, init), last.client, last.at);
    assert InOrder(init, client) by {
      assert forall i | 0 <= i < |init| :: init[i] == calls[i];
    }
    if last.client != client {
      from := SpentSince(s, init, client);
    } else {
      from := last.at;
      if client in Buckets(s, init) {
        var early := SpentSince(s, init, client);
        SeenLast(s, init, client);
        assert Buckets(s, init)[client].seen <= last.at by {
          var i :| 0 <= i < |init| && init[i].client == client && init[i].at == Buckets(s, init)[client].seen;
          assert calls[i] == init[i] && calls[|init|] == last;
        }
        AllowedLonger(s, init, client, early, Buckets(s, init)[client].seen, last.at);
        from := SpentOnce(s, Buckets(s, init), client, last.at, early, Allowed(s, init, client, early, last.at));
      } else {
        FullAtFirst(s, Buckets(s, init), client, last.at);
      }
      LastCounts(s, calls, from);
    }
  }

  lemma LastCounts(s: Settings, calls: seq<Call>, from: int)
    requires s.refill > 0 && calls != [] && from <= calls[|calls| - 1].at
    ensures var init, last := calls[..|calls| - 1], calls[|calls| - 1];
            && var allowed := Balance(s, Buckets(s, init), last.client, last.at) >= 1.0;
            Allowed(s, calls, last.client, from, last.at)
            == Allowed(s, init, last.client, from, last.at) + if allowed then 1 else 0
  {
  }

  lemma FullAtFirst(s: Settings, buckets: map<string, Bucket>, client: string, at: int)
    requires s.capacity >= 1 && s.refill > 0 && client !in buckets
    ensures Balance(s, buckets, client, at) == s.capacity as real
    ensures Spent(s, buckets, client, at)[client].tokens == s.capacity as real - 1.0
    ensures (at - at) as real / s.refill as real == 0.0
  {
  }

  /** One more call of this client, not before its last. */
  lemma SpentOnce(s: Settings, buckets: map<string, Bucket>, client: string, at: int, early: int,
                  n: nat) returns (from: int)
    requires s.capacity >= 1 && s.refill > 0 && client in buckets && early <= buckets[client].seen <= at
    requires n as real >= s.capacity as real - buckets[client].tokens
                            + (buckets[client].seen - early) as real / s.refill as real
    ensures from == early || from == at
    ensures var allowed := Balance(s, buckets, client, at) >= 1.0;
            var left := Spent(s, buckets, client, at)[client].tokens;
            if from == early
            then (n + if allowed then 1 else 0) as real
                   >= s.capacity as real - left + (at - from) as real / s.refill as real
            else allowed && 1.0 >= s.capacity as real - left + (at - from) as real / s.refill as real
  {
    var r := s.refill as real;
    Apart(early, buckets[client].seen, at, r);
    var held := buckets[client].tokens + (at - buckets[client].seen) as real / r;
    from := if held <= s.capacity as real then early else at;
  }

  /**
   * Nobody is refused for less: when this client's readings are in order and a call of it is refused at
   * some moment, there is a start since which more than capacity - 1 and one a refill interval of its
   * calls were let through. So what the window bound allows at the most, the limiter allows.
   */
  lemma RefusedFor(s: Settings, calls: seq<Call>) returns (from: int)
    requires s.capacity >= 1 && s.refill > 0 && calls != [] && InOrder(calls, calls[|calls| - 1].client)
    requires !LastAllowed(s, calls)
    ensures var last := calls[|calls| - 1];
            && from <= last.at
            && Allowed(s, calls, last.client, from, last.at) as real
                 > (s.capacity - 1) as real + (last.at - from) as real / s.refill as real
  {
    hide Balance, Spent;
    var last := calls[|calls| - 1];
    SpentKeys(s, Buckets(s, calls[..|calls| - 1]), last.client, last.at);
    from := SpentSince(s, calls, last.client);
    RefusedLeaves(s, Buckets(s, calls[..|calls| - 1]), last.client, last.at);
  }

  lemma RefusedLeaves(s: Settings, buckets: map<string, Bucket>, client: string, at: int)
    requires s.refill > 0 && Balance(s, buckets, client, at) < 1.0
    ensures Spent(s, buckets, client, at)[client].tokens < 1.0
  {
  }

  /** This client's calls are at least a refill interval apart. */
  predicate Spaced(s: Settings, calls: seq<Call>, client: string) {
    forall i, j | 0 <= i < j < |calls| && calls[i].client == client && calls[j].client == client ::
      calls[i].at + s.refill <= calls[j].at
  }

  /** A client that waits a refill interval between its calls is never refused, however long it goes on. */
  lemma {:induction false} SpacedNeverRefused(s: Settings, calls: seq<Call>, client: string)
    requires s.capacity >= 1 && s.refill > 0 && Spaced(s, calls, client)
    ensures client in Buckets(s, calls) ==> Buckets(s, calls)[client].tokens == (s.capacity - 1) as real
    ensures calls != [] && calls[|calls| - 1].client == client ==> LastAllowed(s, calls)
  {
    hide Balance, Spent;
    if calls != [] {
      var init, last := calls[..|calls| - 1], calls[|calls| - 1];
      assert Spaced(s, init, client) by {
        assert forall i | 0 <= i < |init| :: init[i] == calls[i];
      }
      SpacedNeverRefused(s, init, client);
      SpentKeys(s, Buckets(s, init), last.client, last.at);
      if last.client == client {
        if client in Buckets(s, init) {
          SeenLast(s, init, client);
          var i :| 0 <= i < |init| && init[i].client == client && init[i].at == Buckets(s, init)[client].seen;
          assert calls[i] == init[i] && calls[|init|] == last;
        }
        OneBack(s, Buckets(s, init), client, last.at);
      }
    }
  }

  /** A refill interval after its last call, a bucket one short is full again. */
  lemma OneBack(s: Settings, buckets: map<string, Bucket>, client: string, at: int)
    requires s.capacity >= 1 && s.refill > 0
    requires client in buckets ==>
               buckets[client].tokens == (s.capacity - 1) as real && buckets[client].seen + s.refill <= at
    ensures Balance(s, buckets, client, at) == s.capacity as real
    ensures Spent(s, buckets, client, at)[client].tokens == (s.capacity - 1) as real
  {
    if client in buckets {
      DivideMonotone(s.refill as real, (at - buckets[client].seen) as real, s.refill as real);
    }
  }

  lemma DivideMonotone(x: real, y: real, r: real)
    requires x <= y && r > 0.0
    ensures x / r <= y / r
  {
  }

  // ---- The limiter -------------------------------------------------------------------------------

  /** `until` is None while no penalty was ever set. */
  datatype Attempts = Attempts(failures: nat, until: Option<int>, seen: int)

  predicate Locked(failures: map<string, Attempts>, key: string, now: int) {
    key in failures && failures[key].until.Some? && now < failures[key].until.value
  }

  /**
   * A bucket is exactly what it would have been, or it is missing because some reading found it idle an
   * hour; and no reading has lagged by more than it may.
   */
  predicate Faithful(s: Settings, lag: nat, calls: seq<Call>, held: map<string, Bucket>, latest: int)
    requires s.refill > 0
  {
    && Lagging(calls, lag) && (forall c | c in calls :: c.at <= latest)
    && (forall c | c in held :: c in Buckets(s, calls) && held[c] == Buckets(s, calls)[c])
    && (forall c | c in Buckets(s, calls) && c !in held :: latest - Buckets(s, calls)[c].seen > IDLE_EVICTION)
  }

  /** A call leaves the bucket an ever-remembering limiter would, evicted before it or not. */
  lemma CallKeepsFaith(s: Settings, lag: nat, calls: seq<Call>, held: map<string, Bucket>, client: string, now: int,
                       latest: int)
    requires Fits(s, lag) && Faithful(s, lag, calls, held, latest) && latest - lag <= now <= latest
    ensures Faithful(s, lag, calls + [Call(client, now)], Spent(s, held, client, now), latest)
    ensures LastAllowed(s, calls + [Call(client, now)]) <==> Balance(s, held, client, now) >= 1.0
  {
    hide Buckets, Refilled;
    BalanceSame(s, lag, calls, held, client, now, latest);
    Called(s, calls, client, now);
    LagsOn(calls, lag, client, now, latest);
  }

  lemma LagsOn(calls: seq<Call>, lag: nat, client: string, now: int, latest: int)
    requires Lagging(calls, lag) && (forall c | c in calls :: c.at <= latest) && latest - lag <= now <= latest
    ensures Lagging(calls + [Call(client, now)], lag)
    ensures forall c | c in calls + [Call(client, now)] :: c.at <= latest
  {
    var more := calls + [Call(client, now)];
    forall i, j | 0 <= i < j < |more| ensures more[i].at <= more[j].at + lag {
      assert more[i] in calls;
    }
  }

  class Limiter {
    const settings: Settings
    const lag: nat
    var buckets: map<string, Bucket>
    var failures: map<string, Attempts>
    var swept: Option<int>
    /** Every bucket there would be if none were ever evicted, and the latest reading of the clock. */
    ghost var calls: seq<Call>
    ghost var latest: int
    /** No reading has yet lagged the latest by more than the lag. */
    ghost var steady: bool

    constructor (s: Settings, lag: nat, now: int)
      requires Fits(s, lag)
      ensures Valid() && settings == s && this.lag == lag && calls == [] && failures == map[] && latest == now && steady
    {
      this.lag := lag;
      settings, buckets, failures, swept := s, map[], map[], None;
      calls, latest, steady := [], now, true;
    }

    ghost predicate Valid()
      reads this
    {
      Fits(settings, lag) && (steady ==> Faithful(settings, lag, calls, buckets, latest))
    }

    /** The highest reading there has been. */
    ghost function Latest(now: int): int
      reads this
    {
      if latest <= now then now else latest
    }

    /** Drops what nobody touched in an hour, at most once an hour, and never a live lockout. */
    method Sweep(now: int)
      requires Valid()
      modifies this`buckets, this`failures, this`swept, this`latest
      ensures Valid() && latest == old(Latest(now))
      ensures forall c | c in buckets :: c in old(buckets) && buckets[c] == old(buckets)[c]
      ensures forall k | k in failures :: k in old(failures) && failures[k] == old(failures)[k]
      ensures forall k, t | now <= t :: Locked(failures, k, t) == Locked(old(failures), k, t)
      ensures forall k | k in old(failures) && now - old(failures)[k].seen <= IDLE_EVICTION :: k in failures
      ensures if old(swept).Some? && now - old(swept).value < 60 * MINUTE
              then swept == old(swept) && buckets == old(buckets) && failures == old(failures)
              else
                && swept == Some(now)
                && (forall c | c in old(buckets) :: c in buckets <==> now - old(buckets)[c].seen <= 60 * MINUTE)
                && (forall k | k in old(failures) ::
                      k in failures <==>
                        || now - old(failures)[k].seen <= 60 * MINUTE
                        || (old(failures)[k].until.Some? && now < old(failures)[k].until.value))
    {
      latest := Latest(now);
      if swept.Some? && now - swept.value < IDLE_EVICTION {
        return;
      }
      swept := Some(now);
      var kept := map c | c in buckets && !(now - buckets[c].seen > IDLE_EVICTION) :: buckets[c];
      buckets := kept;
      failures := map k | k in failures && !(now - failures[k].seen > IDLE_EVICTION
                                             && (failures[k].until.None? || failures[k].until.value <= now)) ::
                                                failures[k];
    }

    /**
     * Spends one token if there is one. As long as no reading has lagged by more than the lag, the answer
     * is the one a limiter that never forgot a bucket would give, so eviction is invisible and the window
     * bound holds of this limiter too.
     */
    method Allow(client: string, now: int) returns (allowed: bool)
      requires Valid()
      modifies this
      ensures Valid() && latest == if client == "" then old(latest) else old(Latest(now))
      ensures client == "" ==> allowed && calls == old(calls) && steady == old(steady)
      ensures client != "" ==> calls == old(calls) + [Call(client, now)]
      ensures client != "" ==> steady == (old(steady) && old(latest) - lag <= now)
      ensures client != "" && steady ==> allowed == LastAllowed(settings, calls)
      ensures client != "" ==> client in buckets && buckets[client].seen == now
      ensures forall k, t | now <= t :: Locked(failures, k, t) == Locked(old(failures), k, t)
    {
      hide Faithful, LastAllowed, Refilled, Locked;
      if client == "" {
        return true;
      }
      steady := steady && latest - lag <= now;
      Sweep(now);
      if steady {
        CallKeepsFaith(settings, lag, calls, buckets, client, now, latest);
      }
      var b;
      if client in buckets {
        b := Bucket(Refilled(settings, buckets[client], now), now);
      } else {
        b := Bucket(settings.capacity as real, now);
      }
      allowed := b.tokens >= 1.0;
      buckets := buckets[client := if allowed then b.(tokens := b.tokens - 1.0) else b];
      calls := calls + [Call(client, now)];
    }

    /** Whether the key is inside its penalty window, and how long is left. */
    method LockedOut(key: string, now: int) returns (left: int, locked: bool)
      ensures locked <==> key in failures && failures[key].until.Some? && now < failures[key].until.value
      ensures locked ==> left > 0 && failures[key].until == Some(now + left)
      ensures !locked ==> left == 0
    {
      if key !in failures || failures[key].until.None? || !(now < failures[key].until.value) {
        return 0, false;
      }
      return failures[key].until.value - now, true;
    }

    /** One bad credential: the count grows, the penalty follows it, and no other key's lockout moves. */
    method Failed(key: string, now: int)
      requires Valid()
      modifies this`buckets, this`failures, this`swept, this`latest
      ensures Valid() && latest == old(Latest(now))
      ensures key in failures && failures[key].seen == now
      ensures var due := old(swept).None? || 60 * MINUTE <= now - old(swept).value;
              failures[key].failures ==
                if key in old(failures)
                   && (!due || now - old(failures)[key].seen <= 60 * MINUTE
                       || (old(failures)[key].until.Some? && now < old(failures)[key].until.value))
                then old(failures)[key].failures + 1 else 1
      ensures failures[key].failures >= settings.freeFailures ==>
                failures[key].until == Some(now + Penalty(settings, failures[key].failures))
      ensures failures[key].failures < settings.freeFailures ==>
                forall t | now <= t :: Locked(failures, key, t) == Locked(old(failures), key, t)
      ensures forall k, t | k != key && now <= t :: Locked(failures, k, t) == Locked(old(failures), k, t)
    {
      Sweep(now);
      assert key in old(failures) && Locked(old(failures), key, now) ==> Locked(failures, key, now);
      ghost var swept := failures;
      var a := if key in failures then failures[key] else Attempts(0, None, now);
      a := a.(failures := a.failures + 1, seen := now);
      if a.failures >= settings.freeFailures {
        a := a.(until := Some(now + Penalty(settings, a.failures)));
      }
      failures := failures[key := a];
      assert forall t :: a.failures < settings.freeFailures ==> Locked(failures, key, t) == Locked(swept, key, t);
      assert forall k, t | k != key :: Locked(failures, k, t) == Locked(swept, k, t);
    }

    /** One good credential undoes the backoff, and nobody else's. */
    method Succeeded(key: string)
      requires Valid()
      modifies this`failures
      ensures Valid() && failures == old(failures) - {key}
      ensures forall t :: !Locked(failures, key, t)
    {
      failures := failures - {key};
    }
  }

  lemma Called(s: Settings, calls: seq<Call>, client: string, now: int)
    requires s.refill > 0
    ensures Buckets(s, calls + [Call(client, now)]) == Spent(s, Buckets(s, calls), client, now)
    ensures LastAllowed(s, calls + [Call(client, now)]) <==> Balance(s, Buckets(s, calls), client, now) >= 1.0
  {
    assert (calls + [Call(client, now)])[..|calls|] == calls;
  }

  /** What a call finds does not depend on whether the bucket was evicted. */
  lemma BalanceSame(s: Settings, lag: nat, calls: seq<Call>, held: map<string, Bucket>, client: string, now: int,
                    latest: int)
    requires Fits(s, lag) && Lagging(calls, lag) && latest - lag <= now
    requires client in held ==> client in Buckets(s, calls) && held[client] == Buckets(s, calls)[client]
    requires client in Buckets(s, calls) && client !in held ==> latest - Buckets(s, calls)[client].seen > IDLE_EVICTION
    ensures Balance(s, held, client, now) == Balance(s, Buckets(s, calls), client, now)
  {
    hide Lagging, BucketOk, Refilled;
    if client in Buckets(s, calls) && client !in held {
      RunOk(s, calls, client);
      PeakNear(s, calls, client, lag);
      IdleIsFull(s, Buckets(s, calls)[client], Peak(calls, client, 0), now);
    }
  }
}
