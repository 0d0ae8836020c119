/**
 * One app's configuration and the bounds it lives inside:
 * internal/domain/config.go and internal/domain/configkey.go.
 *
 * A string is a sequence of bytes, one char a byte, so |v| is what len(v) counts.
 */
module Configuration {
  import opened Basics

  datatype ConfigValue = ConfigValue(value: string, secret: bool)
  type Config = map<string, ConfigValue>

  const MAX_KEYS := 64
  const MAX_VALUE_BYTES := 4096
  const MAX_TOTAL_BYTES := 32768
  const RESERVED_KEYS := {"PORT", "APP_URL"}

  /** One key a caller asked to set. An absent flag is a refusal, never a default. */
  datatype Write = Write(key: string, value: string, secret: Option<bool>) {
    function Entry(): ConfigValue {
      ConfigValue(value, secret.Some? && secret.value)
    }
  }

  datatype Verdict = Accepted | KeyInvalid | KeyReserved | FlagMissing | TooLarge | TooManyKeys

  predicate KeyChar(c: char, first: bool) {
    'A' <= c <= 'Z' || c == '_' || ('0' <= c <= '9' && !first)
  }

  /** An upper case letter or underscore, then upper case letters, digits and underscores. */
  predicate ValidKey(key: string) {
    key != "" && forall i | 0 <= i < |key| :: KeyChar(key[i], i == 0)
  }

  method ValidConfigKey(key: string) returns (ok: bool)
    ensures ok == ValidKey(key)
    ensures ok <==> && key != "" && !('0' <= key[0] <= '9')
                    && forall c | c in key :: 'A' <= c <= 'Z' || '0' <= c <= '9' || c == '_'
  {
    if key == "" {
      return false;
    }
    for i := 0 to |key|
      invariant forall j | 0 <= j < i :: KeyChar(key[j], j == 0)
    {
      var r := key[i];
      if ('A' <= r <= 'Z') || r == '_' {
      } else if '0' <= r <= '9' && i > 0 {
      } else {
        assert r in key;
        return false;
      }
    }
    return true;
  }

  // ---- The bounds -------------------------------------------------------------------------

  /** What every stored key satisfies on its own. */
  predicate EntryOk(key: string, value: string) {
    ValidKey(key) && key !in RESERVED_KEYS && |value| <= MAX_VALUE_BYTES
  }

  predicate EntriesOk(c: Config) {
    forall k | k in c :: EntryOk(k, c[k].value)
  }

  function Values(c: Config): (m: map<string, string>)
    ensures m.Keys == c.Keys
  {
    map k | k in c :: c[k].value
  }

  /** The bytes of every key and every value, in whatever order they are counted. */
  ghost function TotalBytes(m: map<string, string>): nat {
    if m == map[] then 0 else
      var k :| k in m;
      |k| + |m[k]| + TotalBytes(m - {k})
  }

  /** Counting any one key first gives the same total. */
  lemma {:induction false} TotalBytesTake(m: map<string, string>, k: string)
    requires k in m
    ensures TotalBytes(m) == |k| + |m[k]| + TotalBytes(m - {k})
    decreases |m|
  {
    var first :| first in m && TotalBytes(m) == |first| + |m[first]| + TotalBytes(m - {first});
    if first != k {
      TotalBytesTake(m - {first}, k);
      TotalBytesTake(m - {k}, first);
      assert m - {first} - {k} == m - {k} - {first};
    }
  }

  /** The merged-result bounds: how many keys, and how many bytes in all. */
  ghost predicate SizeOk(m: map<string, string>) {
    |m| <= MAX_KEYS && TotalBytes(m) <= MAX_TOTAL_BYTES
  }

  ghost predicate Bounded(c: Config) {
    EntriesOk(c) && SizeOk(Values(c))
  }

  // ---- set_config -------------------------------------------------------------------------

  /** The map after the writes land, later entries over earlier ones. */
  function Merged(existing: map<string, string>, writes: seq<Write>): map<string, string> {
    if writes == [] then existing
    else Merged(existing, writes[..|writes| - 1])[writes[|writes| - 1].key := writes[|writes| - 1].value]
  }

  predicate WriteOk(w: Write) {
    EntryOk(w.key, w.value) && w.secret.Some?
  }

  predicate DistinctKeys(writes: seq<Write>) {
    forall i, j | 0 <= i < j < |writes| :: writes[i].key != writes[j].key
  }

  /** What one call must satisfy whatever the app already holds. */
  predicate CallOk(writes: seq<Write>) {
    writes != [] && DistinctKeys(writes) && forall w | w in writes :: WriteOk(w)
  }

  ghost predicate Acceptable(writes: seq<Write>, existing: map<string, string>) {
    CallOk(writes) && SizeOk(Merged(existing, writes))
  }

  /** Judges each write on its own, and that no key is named twice. None is no objection. */
  method CheckWrites(writes: seq<Write>) returns (r: Option<Verdict>)
    ensures r.None? <==> CallOk(writes)
    ensures r.Some? ==> r.value in {KeyInvalid, KeyReserved, FlagMissing, TooLarge}
  {
    if |writes| == 0 {
      return Some(KeyInvalid);
    }
    var seen: set<string> := {};
    for i := 0 to |writes|
      invariant seen == set j | 0 <= j < i :: writes[j].key
      invariant DistinctKeys(writes[..i])
      invariant forall j | 0 <= j < i :: WriteOk(writes[j])
    {
      var w := writes[i];
      assert w in writes;
      var valid := ValidConfigKey(w.key);
      if !valid {
        return Some(KeyInvalid);
      }
      if w.key == "PORT" || w.key == "APP_URL" {
        return Some(KeyReserved);
      }
      if w.secret.None? {
        return Some(FlagMissing);
      }
      if w.key in seen {
        return Some(KeyInvalid);
      }
      seen := seen + {w.key};
      if |w.value| > MAX_VALUE_BYTES {
        return Some(TooLarge);
      }
    }
    assert writes[..|writes|] == writes;
    r := None;
  }

  /** Counts the bytes of a map, ranging over it in any order. */
  method CountBytes(m: map<string, string>) returns (total: nat)
    ensures total == TotalBytes(m)
  {
    var rest := m;
    total := 0;
    while rest != map[]
      invariant total + TotalBytes(rest) == TotalBytes(m)
      decreases |rest|
    {
      var k :| k in rest;
      TotalBytesTake(rest, k);
      total := total + |k| + |rest[k]|;
      rest := rest - {k};
    }
  }

  lemma CallOkMeans(writes: seq<Write>)
    ensures CallOk(writes) <==>
              && writes != [] && (forall i, j | 0 <= i < j < |writes| :: writes[i].key != writes[j].key)
              && forall w | w in writes ::
                   && ValidKey(w.key) && w.key != "PORT" && w.key != "APP_URL" && |w.value| <= 4096 && w.secret.Some?
  {
    hide ValidKey;
  }

  /**
   * Judges a whole call before any of it is written. Accepted means exactly that every write is
   * well formed, no key is named twice, and the merged result is inside both bounds; and a call
   * refused for its merged size has nothing else wrong with it.
   */
  method ValidateConfig(writes: seq<Write>, existing: map<string, string>) returns (r: Verdict)
    ensures r == Accepted <==> Acceptable(writes, existing)
    ensures r == Accepted <==>
              && writes != [] && (forall i, j | 0 <= i < j < |writes| :: writes[i].key != writes[j].key)
              && (forall w | w in writes ::
                    && ValidKey(w.key) && w.key != "PORT" && w.key != "APP_URL" && |w.value| <= 4096 && w.secret.Some?)
              && |Merged(existing, writes)| <= 64 && TotalBytes(Merged(existing, writes)) <= 32768
    ensures r == TooManyKeys ==> CallOk(writes) && |Merged(existing, writes)| > MAX_KEYS
    ensures r == TooLarge && CallOk(writes) ==>
              |Merged(existing, writes)| <= MAX_KEYS && TotalBytes(Merged(existing, writes)) > MAX_TOTAL_BYTES
    ensures CallOk(writes) ==> r in {Accepted, TooManyKeys, TooLarge}
  {
    hide CallOk, TotalBytes;
    CallOkMeans(writes);
    var objection := CheckWrites(writes);
    if objection.Some? {
      return objection.value;
    }
    var merged := existing;
    for i := 0 to |writes|
      invariant merged == Merged(existing, writes[..i])
    {
      assert writes[..i + 1][..i] == writes[..i];
      merged := merged[writes[i].key := writes[i].value];
    }
    assert writes[..|writes|] == writes;
    if |merged| > MAX_KEYS {
      return TooManyKeys;
    }
    var total := CountBytes(merged);
    return if total > MAX_TOTAL_BYTES then TooLarge else Accepted;
  }

  /** The stored configuration after the writes land: SetConfigBatch's effect. */
  function Written(c: Config, writes: seq<Write>): Config {
    if writes == [] then c
    else Written(c, writes[..|writes| - 1])[writes[|writes| - 1].key := writes[|writes| - 1].Entry()]
  }

  /** Validation judges the very map the write produces. */
  lemma {:induction false} WrittenValues(c: Config, writes: seq<Write>)
    ensures Values(Written(c, writes)) == Merged(Values(c), writes)
  {
    if writes != [] {
      WrittenValues(c, writes[..|writes| - 1]);
    }
  }

  lemma {:induction false} WrittenEntriesOk(c: Config, writes: seq<Write>)
    requires EntriesOk(c) && forall w | w in writes :: WriteOk(w)
    ensures EntriesOk(Written(c, writes))
  {
    if writes != [] {
      WrittenEntriesOk(c, writes[..|writes| - 1]);
      assert WriteOk(writes[|writes| - 1]);
    }
  }

  /** An accepted call leaves the app inside every bound. */
  lemma AcceptedStaysBounded(c: Config, writes: seq<Write>)
    requires EntriesOk(c) && Acceptable(writes, Values(c))
    ensures Bounded(Written(c, writes))
  {
    WrittenValues(c, writes);
    WrittenEntriesOk(c, writes);
  }

  /** Removing keys never leaves the bounds. */
  lemma RemovalStaysBounded(c: Config, key: string)
    requires Bounded(c)
    ensures Bounded(c - {key})
  {
    if key in c {
      TotalBytesTake(Values(c), key);
      assert Values(c - {key}) == Values(c) - {key};
      assert Values(c).Keys - {key} == (Values(c) - {key}).Keys;
      assert |Values(c).Keys - {key}| == |Values(c).Keys| - 1;
    } else {
      assert c - {key} == c;
    }
  }

  /** A key that could never have been stored is refused before the store is asked. */
  method ValidateUnset(keys: seq<string>) returns (r: Verdict)
    ensures r == Accepted <==> keys != [] && forall k | k in keys :: ValidKey(k)
    ensures r in {Accepted, KeyInvalid}
  {
    if |keys| == 0 {
      return KeyInvalid;
    }
    for i := 0 to |keys|
      invariant forall j | 0 <= j < i :: ValidKey(keys[j])
    {
      var valid := ValidConfigKey(keys[i]);
      if !valid {
        return KeyInvalid;
      }
    }
    return Accepted;
  }
}
