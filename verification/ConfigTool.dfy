/** The one path set_config and deploy_app's map both write through: internal/mcp/config.go. */
module ConfigTools {
  import opened Basics
  import opened StateMachine
  import opened Configuration
  import opened Tables
  import opened Runs
  import opened Invariant
  import opened History
  import opened Stores

  datatype Refusal = Granted | Refused(verdict: Verdict) | Internal

  class ConfigTool {
    const store: Store
    /** Whether the k-th call to the store goes through. One that does not changes nothing: module Transactions. */
    const answers: nat -> bool
    var asked: nat

    constructor (store: Store, answers: nat -> bool)
      ensures this.store == store && this.answers == answers && asked == 0
    {
      this.store, this.answers, asked := store, answers, 0;
    }

    /** Between two transactions of one call anybody else, agent or loop, may commit any of their own. */
    method Others() returns (meanwhile: seq<Action>)
      requires Inv(store.db)
      modifies store
      ensures Inv(store.db) && Legal(old(store.db), meanwhile) && store.db == After(old(store.db), meanwhile)
    {
      hide Inv, Established, Apply;
      var before := store.db;
      meanwhile := [];
      var turns: nat := *;
      while turns > 0
        invariant Inv(store.db) && Legal(old(store.db), meanwhile) && store.db == After(old(store.db), meanwhile)
      {
        var a: Action := *;
        if Established(before, meanwhile, a) {
          Extend(old(store.db), meanwhile, a);
          store.Perform(a);
          meanwhile := meanwhile + [a];
          InvOverRuns(old(store.db), meanwhile);
        }
        turns := turns - 1;
      }
    }

    /**
     * Reads, judges, then writes in a transaction of its own, on what everybody else made of the tables
     * meanwhile. A refused call writes nothing, an accepted one writes every key or none; and when nobody
     * changed the app's configuration in between, the bounds that were judged are the bounds that hold. An
     * internal error means that a call to the store failed, or that there is no such app.
     */
    method WriteConfig(app: Id, writes: seq<Write>) returns (r: Refusal, meanwhile: seq<Action>)
      requires Inv(store.db)
      modifies this`asked, store
      ensures Inv(store.db) && Legal(old(store.db), meanwhile)
      ensures r.Refused? <==> answers(old(asked)) && !Acceptable(writes, Values(ConfigOf(old(store.db), app)))
      ensures r.Refused? ==> r.verdict != Accepted && store.db == old(store.db)
      ensures r == Internal ==>
                && store.db == After(old(store.db), meanwhile)
                && (app !in store.db.apps || exists k :: old(asked) <= k < asked && !answers(k))
      ensures r == Granted ==>
                var held := After(old(store.db), meanwhile);
                && app in held.apps && store.db == Configured(held, app, Written(held.apps[app].config, writes))
                && (held.apps[app].config == ConfigOf(old(store.db), app) && EntriesOk(held.apps[app].config) ==>
                      app in store.db.apps && Bounded(store.db.apps[app].config))
    {
      hide Inv, Legal, After, Acceptable, CallOk, SetConfigTx, Values, Written, Bounded, EntriesOk;
      meanwhile := [];
      NothingMeanwhile(store.db);
      asked := asked + 1;
      if !answers(asked - 1) {
        return Internal, meanwhile;
      }
      var config := ConfigOf(store.db, app);
      var verdict := ValidateConfig(writes, Values(config));
      if verdict != Accepted {
        return Refused(verdict), meanwhile;
      }
      AcceptableCall(writes, Values(config));
      meanwhile := Others();
      ghost var held := store.db;
      asked := asked + 1;
      if !answers(asked - 1) {
        return Internal, meanwhile;
      }
      CallLands(held, app, writes);
      var written := store.SetConfigBatch(app, writes);
      if written.Err? {
        return Internal, meanwhile;
      }
      if held.apps[app].config == config && EntriesOk(config) {
        AcceptedStaysBounded(config, writes);
      }
      r := Granted;
    }
  }

  /** What a read of the app's configuration finds. */
  function ConfigOf(db: Tables, app: Id): Config {
    if app in db.apps then db.apps[app].config else map[]
  }

  lemma NothingMeanwhile(db: Tables)
    ensures Legal(db, []) && After(db, []) == db
  {
  }

  /** Well formed writes are refused only for want of the app, and keep the invariant. */
  lemma CallLands(db: Tables, app: Id, writes: seq<Write>)
    requires Inv(db) && CallOk(writes)
    ensures var (after, r) := SetConfigTx(db, app, writes);
            && Inv(after) && (r.Err? ==> after == db && app !in db.apps)
            && (r.Ok? ==> app in db.apps && after == Configured(db, app, Written(db.apps[app].config, writes)))
  {
    hide Inv;
    StepKeepsInv(db, SetConfig(app, writes));
  }

  lemma AcceptableCall(writes: seq<Write>, existing: map<string, string>)
    requires Acceptable(writes, existing)
    ensures CallOk(writes) && writes != [] && Acceptable(writes, existing)
  {
  }

  // ---- When calls overlap ----------------------------------------------------------------------

  /** What several calls leave, whatever each was judged against: they land one after another. */
  function Landed(c: Config, calls: seq<seq<Write>>): Config {
    if calls == [] then c else Written(Landed(c, calls[..|calls| - 1]), calls[|calls| - 1])
  }

  /** Their writes, in the order they land. */
  function Together(calls: seq<seq<Write>>): seq<Write> {
    if calls == [] then [] else Together(calls[..|calls| - 1]) + calls[|calls| - 1]
  }

  function Named(writes: seq<Write>): set<string> {
    set w | w in writes :: w.key
  }

  /** What one write adds to the bytes of the map it finds. */
  function Adds(m: map<string, string>, w: Write): int {
    |w.value| + if w.key in m then -|m[w.key]| else |w.key|
  }

  /** What writes add to the bytes of one map together: of the writes of one key, the last is the one that counts. */
  function Added(m: map<string, string>, writes: seq<Write>): int {
    if writes == [] then 0
    else (if writes[0].key in Named(writes[1..]) then 0 else Adds(m, writes[0])) + Added(m, writes[1..])
  }

  lemma {:induction false} WrittenOn(c: Config, first: seq<Write>, second: seq<Write>)
    ensures Written(c, first + second) == Written(Written(c, first), second)
  {
    if second == [] {
      assert first + second == first;
    } else {
      WrittenOn(c, first, second[..|second| - 1]);
      assert (first + second)[..|first + second| - 1] == first + second[..|second| - 1];
    }
  }

  lemma {:induction false} LandedTogether(c: Config, calls: seq<seq<Write>>)
    requires forall call | call in calls :: CallOk(call)
    ensures Landed(c, calls) == Written(c, Together(calls))
    ensures forall w | w in Together(calls) :: WriteOk(w)
  {
    hide WriteOk, DistinctKeys;
    if calls != [] {
      LandedTogether(c, calls[..|calls| - 1]);
      WrittenOn(c, Together(calls[..|calls| - 1]), calls[|calls| - 1]);
      assert CallOk(calls[|calls| - 1]);
    }
  }

  lemma {:induction false} MergedFirst(m: map<string, string>, writes: seq<Write>)
    requires writes != []
    ensures Merged(m, writes) == Merged(m[writes[0].key := writes[0].value], writes[1..])
  {
    if |writes| == 1 {
      assert writes[..0] == [] && writes[1..] == [];
    } else {
      var init := writes[..|writes| - 1];
      MergedFirst(m, init);
      assert writes[1..][..|writes| - 2] == init[1..];
    }
  }

  lemma {:induction false} MergedKeys(m: map<string, string>, writes: seq<Write>)
    ensures Merged(m, writes).Keys == m.Keys + Named(writes)
  {
    if writes != [] {
      var init, last := writes[..|writes| - 1], writes[|writes| - 1];
      MergedKeys(m, init);
      assert writes == init + [last];
      assert Named(writes) == Named(init) + {last.key};
    }
  }

  lemma OneWriteBytes(m: map<string, string>, w: Write)
    ensures TotalBytes(m[w.key := w.value]) == TotalBytes(m) + Adds(m, w)
  {
    hide TotalBytes;
    TotalBytesTake(m[w.key := w.value], w.key);
    if w.key in m {
      TotalBytesTake(m, w.key);
      assert m[w.key := w.value] - {w.key} == m - {w.key};
    } else {
      assert m[w.key := w.value] - {w.key} == m;
    }
  }

  /** What later writes add once this one has landed. */
  lemma {:induction false} AddedAfter(m: map<string, string>, w: Write, rest: seq<Write>)
    ensures Added(m[w.key := w.value], rest) == Added(m, rest) - (if w.key in Named(rest) then Adds(m, w) else 0)
  {
    if rest != [] {
      AddedAfter(m, w, rest[1..]);
      assert rest == [rest[0]] + rest[1..];
      assert Named(rest) == {rest[0].key} + Named(rest[1..]);
    }
  }

  /** The bytes after any writes are the bytes before and what the writes add. */
  lemma {:induction false} MergedBytes(m: map<string, string>, writes: seq<Write>)
    ensures TotalBytes(Merged(m, writes)) == TotalBytes(m) + Added(m, writes)
    decreases |writes|
  {
    hide TotalBytes, Named, Adds;
    if writes != [] {
      var w := writes[0];
      MergedFirst(m, writes);
      OneWriteBytes(m, w);
      MergedBytes(m[w.key := w.value], writes[1..]);
      AddedAfter(m, w, writes[1..]);
    }
  }

  /**
   * Any number of calls, each well formed and judged against whatever it read, land on one
   * configuration. They leave it bounded exactly when its keys and theirs number at most 64 between
   * them, and its bytes and what the last write of each key adds come to at most 32 KiB. What each call
   * was judged by is the same sum over its own writes alone, so it can pass where this does not.
   */
  lemma OverlapBoundedIff(c: Config, calls: seq<seq<Write>>)
    requires EntriesOk(c) && forall call | call in calls :: CallOk(call)
    ensures Bounded(Landed(c, calls)) <==>
              && |c.Keys + Named(Together(calls))| <= MAX_KEYS
              && TotalBytes(Values(c)) + Added(Values(c), Together(calls)) <= MAX_TOTAL_BYTES
    ensures forall call | call in calls ::
              Acceptable(call, Values(c)) <==>
                |c.Keys + Named(call)| <= MAX_KEYS && TotalBytes(Values(c)) + Added(Values(c), call) <= MAX_TOTAL_BYTES
  {
    hide EntriesOk, TotalBytes, Written, Landed, Together, Named, Added, Merged, WriteOk, DistinctKeys;
    var writes := Together(calls);
    LandedTogether(c, calls);
    WrittenEntriesOk(c, writes);
    WrittenValues(c, writes);
    MergedKeys(Values(c), writes);
    MergedBytes(Values(c), writes);
    SizeByKeys(Merged(Values(c), writes));
    forall call | call in calls
      ensures Acceptable(call, Values(c)) <==>
                |c.Keys + Named(call)| <= MAX_KEYS && TotalBytes(Values(c)) + Added(Values(c), call) <= MAX_TOTAL_BYTES
    {
      MergedKeys(Values(c), call);
      MergedBytes(Values(c), call);
      SizeByKeys(Merged(Values(c), call));
    }
  }

  lemma SizeByKeys(m: map<string, string>)
    ensures |m| == |m.Keys|
  {
  }

  /** One key of each length from one to n, all of them valid. */
  function Many(n: nat): (writes: seq<Write>)
    ensures |writes| == n
  {
    if n == 0 then [] else Many(n - 1) + [Write(seq(n, _ => 'A'), "", Some(false))]
  }

  lemma {:induction false} ManyKeys(n: nat)
    ensures forall i | 0 <= i < n :: Many(n)[i] == Write(seq(i + 1, _ => 'A'), "", Some(false))
  {
    if n > 0 {
      ManyKeys(n - 1);
    }
  }

  lemma {:induction false} ManyMerged(n: nat)
    requires n <= 64
    ensures var m := Merged(map[], Many(n));
            |m| == n && TotalBytes(m) <= 64 * n && forall k | k in m :: 1 <= |k| <= n && k[0] == 'A'
  {
    hide TotalBytes;
    if n == 0 {
      NoBytes();
    } else {
      ManyMerged(n - 1);
      var key: string := seq(n, _ => 'A');
      var was, m := Merged(map[], Many(n - 1)), Merged(map[], Many(n));
      assert Many(n)[..n - 1] == Many(n - 1);
      assert m == was[key := ""] && key !in was;
      TotalBytesTake(m, key);
      assert m - {key} == was;
      assert m.Keys == was.Keys + {key};
      assert |m.Keys| == |was.Keys| + 1;
    }
  }

  lemma NoBytes()
    ensures TotalBytes(map[]) == 0
  {
  }

  lemma ManyOk(n: nat)
    requires 1 <= n <= 64
    ensures Acceptable(Many(n), map[])
  {
    hide TotalBytes, WriteOk, Merged, Many;
    ManyMerged(n);
    ManyKeys(n);
    var writes := Many(n);
    forall i, j | 0 <= i < j < n ensures writes[i].key != writes[j].key {
      assert |writes[i].key| == i + 1 && |writes[j].key| == j + 1;
    }
    forall w | w in writes ensures WriteOk(w) {
      PlainOk(w);
    }
  }

  lemma PlainOk(w: Write)
    requires w.key != "" && w.value == "" && w.secret.Some? && forall i | 0 <= i < |w.key| :: w.key[i] == 'A'
    ensures WriteOk(w)
  {
    assert "PORT"[0] != 'A' && "APP_URL"[1] != 'A';
  }

  lemma OneOk()
    ensures Acceptable([Write("B", "", Some(false))], map[])
  {
  }

  /**
   * So the bounds on the merged result do not survive two overlapping calls: sixty-four keys and one
   * more, each accepted against an empty app, leave it holding sixty-five.
   */
  lemma OverlappingCallsEscapeTheBounds()
    ensures Acceptable(Many(64), map[]) && Acceptable([Write("B", "", Some(false))], map[])
    ensures |Values(Written(Written(map[], Many(64)), [Write("B", "", Some(false))]))| == 65
  {
    hide TotalBytes, Written;
    ManyOk(64);
    OneOk();
    ManyMerged(64);
    var one := [Write("B", "", Some(false))];
    var c := Written(map[], Many(64));
    assert Values(map[]) == map[];
    WrittenValues(map[], Many(64));
    WrittenValues(c, one);
    assert one[..0] == [] && Merged(Values(c), one) == Values(c)["B" := ""];
    assert "B" !in Values(c);
    assert Values(c)["B" := ""].Keys == Values(c).Keys + {"B"};
    assert |Values(c).Keys| == 64;
  }
}
