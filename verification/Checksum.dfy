/**
 * What ConfigChecksum of internal/deploy/deploy.go feeds its hash. The hash itself is not part of this
 * model: what is proved is that no two configurations give it the same bytes.
 */
module Checksum {
  import opened Sorting
  import opened Text

  /** One key and its value, each behind its own length. */
  function Field(k: string, v: string): string {
    Decimal(|k|) + ":" + k + "=" + Decimal(|v|) + ":" + v + "\n"
  }

  /** The text of the given keys in the given order. */
  function Encoding(config: map<string, string>, keys: seq<string>): string
    requires forall k | k in keys :: k in config
  {
    if keys == [] then "" else Field(keys[0], config[keys[0]]) + Encoding(config, keys[1..])
  }

  predicate Lists(keys: seq<string>, config: map<string, string>) {
    && (forall k | k in keys :: k in config) && (forall k | k in config :: k in keys)
    && forall i, j | 0 <= i < j < |keys| :: keys[i] != keys[j]
  }

  /** The keys of a map, in whatever order it is ranged over. */
  method Ranged(config: map<string, string>) returns (keys: seq<string>)
    ensures Lists(keys, config)
  {
    keys := [];
    var rest := config.Keys;
    while rest != {}
      invariant rest <= config.Keys
      invariant forall k :: k in keys <==> k in config && k !in rest
      invariant forall i, j | 0 <= i < j < |keys| :: keys[i] != keys[j]
      decreases |rest|
    {
      var k :| k in rest;
      rest := rest - {k};
      keys := keys + [k];
    }
  }

  /** Ranges over the map in any order at all, sorts, and writes. */
  method ConfigText(config: map<string, string>) returns (text: string)
    ensures forall keys | Lists(keys, config) && Sorted(keys, Lex) :: text == Encoding(config, keys)
    ensures exists keys :: Lists(keys, config) && Sorted(keys, Lex)
  {
    hide Field, Sort;
    var unsorted := Ranged(config);
    var sorted := Sort(unsorted, Lex);
    LexTotal();
    SortSorted(unsorted, Lex);
    Arranged(unsorted, sorted);
    assert Lists(sorted, config);
    forall keys | Lists(keys, config) && Sorted(keys, Lex) ensures keys == sorted {
      TextIgnoresOrder(config, keys, sorted);
    }
    text := Written(config, sorted);
  }

  /** Writes each key's field in turn. */
  method Written(config: map<string, string>, keys: seq<string>) returns (text: string)
    requires forall k | k in keys :: k in config
    ensures text == Encoding(config, keys)
  {
    hide Field;
    text := "";
    for i := 0 to |keys|
      invariant text + Encoding(config, keys[i..]) == Encoding(config, keys)
    {
      EncodingStep(config, keys, i, text);
      text := text + Field(keys[i], config[keys[i]]);
    }
  }

  lemma EncodingStep(config: map<string, string>, keys: seq<string>, i: nat, text: string)
    requires i < |keys| && forall k | k in keys :: k in config
    ensures text + Encoding(config, keys[i..]) == text + Field(keys[i], config[keys[i]]) + Encoding(config,
            keys[i + 1..])
  {
  }

  /** Sorting changes neither which keys there are nor that each is there once. */
  lemma Arranged(a: seq<string>, b: seq<string>)
    requires multiset(a) == multiset(b) && forall i, j | 0 <= i < j < |a| :: a[i] != a[j]
    ensures forall k :: k in a <==> k in b
    ensures forall i, j | 0 <= i < j < |b| :: b[i] != b[j]
  {
    forall k ensures k in a <==> k in b {
      assert k in a <==> k in multiset(a);
      assert k in b <==> k in multiset(b);
    }
    forall k | k in a ensures multiset(a)[k] == 1 { Once(a, k); }
    forall i, j | 0 <= i < j < |b| ensures b[i] != b[j] {
      assert b == b[..j] + b[j..];
      assert b[i] in b[..j] && b[j..][0] == b[j] && b[j] in b[j..];
      assert multiset(b) == multiset(b[..j]) + multiset(b[j..]);
      assert b[i] in b && multiset(b)[b[i]] == 1;
      assert b[i] in multiset(b[..j]) && b[j] in multiset(b[j..]);
    }
  }

  lemma {:induction false} Once(a: seq<string>, k: string)
    requires k in a && forall i, j | 0 <= i < j < |a| :: a[i] != a[j]
    ensures multiset(a)[k] == 1
  {
    assert a == [a[0]] + a[1..];
    if a[0] == k {
      assert k !in a[1..];
    } else {
      Once(a[1..], k);
    }
  }

  /** The keys of a configuration sort one way, so the text does not depend on the order of the map. */
  lemma TextIgnoresOrder(config: map<string, string>, a: seq<string>, b: seq<string>)
    requires Lists(a, config) && Lists(b, config) && Sorted(a, Lex) && Sorted(b, Lex)
    ensures a == b
  {
    forall k ensures multiset(a)[k] == multiset(b)[k] {
      if k in config {
        Once(a, k);
        Once(b, k);
      } else {
        assert k !in multiset(a) && k !in multiset(b);
      }
    }
    LexTotal();
    SortedUnique(a, b, Lex);
  }

  /** One short key with a short value, as it is written. */
  lemma FieldText(k: string, v: string)
    requires |k| < 10 && |v| < 10
    ensures Encoding(map[], []) == "" && Encoding(map[k := v], [k]) == Field(k, v)
    ensures Field(k, v) == [('0' as int + |k|) as char] + ":" + k + "=" + [('0' as int + |v|) as char] + ":" + v + "\n"
  {
    hide Field;
    assert Encoding(map[k := v], [k]) == Field(k, v) + Encoding(map[k := v], []);
    FieldShort(k, v);
  }

  lemma FieldShort(k: string, v: string)
    requires |k| < 10 && |v| < 10
    ensures Field(k, v) == [('0' as int + |k|) as char] + ":" + k + "=" + [('0' as int + |v|) as char] + ":" + v + "\n"
  {
    DecimalDigits(|k|);
    DecimalDigits(|v|);
  }

  // ---- Reading it back ---------------------------------------------------------------------------

  predicate Digits(s: string) {
    forall c | c in s :: '0' <= c <= '9'
  }

  /** A run of digits before a colon is read one way only. */
  lemma LengthReadsBack(a: string, b: string, x: string, y: string)
    requires Digits(a) && Digits(b)
    ensures a + ":" + x == b + ":" + y ==> a == b && x == y
  {
    var s, t := a + ":" + x, b + ":" + y;
    assert s[|a|] == ':' && t[|b|] == ':';
    if |a| < |b| {
      assert t[|a|] == b[|a|] && b[|a|] in b;
    } else if |b| < |a| {
      assert s[|b|] == a[|b|] && a[|b|] in a;
    } else {
      assert s[..|a|] == a && t[..|a|] == b;
      assert s[|a| + 1..] == x && t[|a| + 1..] == y;
    }
  }

  /** Some bytes behind their own length. */
  function Counted(bytes: string, rest: string): string {
    Decimal(|bytes|) + ":" + (bytes + rest)
  }

  /** A length and that many bytes are read one way only, whatever the bytes are. */
  lemma CountedReadsBack(a: string, b: string, x: string, y: string)
    ensures Counted(a, x) == Counted(b, y) ==> a == b && x == y
  {
    LengthReadsBack(Decimal(|a|), Decimal(|b|), a + x, b + y);
    DecimalParses(|a|);
    DecimalParses(|b|);
    if Decimal(|a|) == Decimal(|b|) {
      assert a == (a + x)[..|a|] && b == (b + y)[..|b|];
      assert x == (a + x)[|a|..] && y == (b + y)[|b|..];
    }
  }

  lemma FieldShape(k: string, v: string, x: string)
    ensures Field(k, v) + x == Counted(k, "=" + Counted(v, "\n" + x))
  {
  }

  lemma Behind(c: string, x: string, y: string)
    requires |c| == 1
    ensures c + x == c + y ==> x == y
  {
    assert (c + x)[1..] == x && (c + y)[1..] == y;
  }

  /** The first field is read one way only, so what follows it is too. */
  lemma FieldReadsBack(k: string, v: string, x: string, l: string, w: string, y: string)
    ensures Field(k, v) + x == Field(l, w) + y ==> k == l && v == w && x == y
  {
    hide Field, Counted;
    FieldShape(k, v, x);
    FieldShape(l, w, y);
    CountedReadsBack(k, l, "=" + Counted(v, "\n" + x), "=" + Counted(w, "\n" + y));
    Behind("=", Counted(v, "\n" + x), Counted(w, "\n" + y));
    CountedReadsBack(v, w, "\n" + x, "\n" + y);
    Behind("\n", x, y);
  }

  lemma {:induction false} EncodingReadsBack(a: map<string, string>, ka: seq<string>, b: map<string, string>,
                                             kb: seq<string>)
    requires (forall k | k in ka :: k in a) && (forall k | k in kb :: k in b)
    ensures Encoding(a, ka) == Encoding(b, kb) ==> ka == kb && forall k | k in ka :: a[k] == b[k]
  {
    if ka != [] && kb != [] {
      hide Field;
      FieldReadsBack(ka[0], a[ka[0]], Encoding(a, ka[1..]), kb[0], b[kb[0]], Encoding(b, kb[1..]));
      EncodingReadsBack(a, ka[1..], b, kb[1..]);
      assert ka == [ka[0]] + ka[1..] && kb == [kb[0]] + kb[1..];
    }
  }

  /**
   * The text says exactly which configuration it is of: two configurations give the hash the same
   * bytes only if they are the same keys with the same values, for arbitrary bytes in either.
   */
  lemma TextNamesConfiguration(a: map<string, string>, ka: seq<string>, b: map<string, string>, kb: seq<string>)
    requires Lists(ka, a) && Sorted(ka, Lex) && Lists(kb, b) && Sorted(kb, Lex)
    ensures Encoding(a, ka) == Encoding(b, kb) <==> a == b
  {
    if a == b {
      TextIgnoresOrder(a, ka, kb);
    }
    EncodingReadsBack(a, ka, b, kb);
    if ka == kb {
      assert a.Keys == b.Keys;
    }
  }
}
