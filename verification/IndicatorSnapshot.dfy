/** Saving and restoring precomputed indicators under text keys (backtest/src/indicator_precompute.rs). */
module IndicatorSnapshot {
  import opened Reals
  import opened IndicatorCache

  datatype Snapshot = Snapshot(single: map<string, seq<Value>>, multi: map<string, seq<Value>>)

  // ---- Decimal numbers ----

  predicate IsDigit(c: char) {
    '0' <= c <= '9'
  }

  function Digit(d: nat): (c: char)
    requires d < 10
    ensures IsDigit(c) && DigitValue(c) == d
  {
    '0' + d as char
  }

  function DigitValue(c: char): nat
    requires IsDigit(c)
  {
    (c - '0') as nat
  }

  predicate AllDigits(s: string) {
    forall i :: 0 <= i < |s| ==> IsDigit(s[i])
  }

  function DecimalValue(s: string): nat
    requires AllDigits(s)
  {
    if s == "" then 0 else DecimalValue(s[..|s| - 1]) * 10 + DigitValue(s[|s| - 1])
  }

  function Decimal(n: nat): string {
    if n < 10 then [Digit(n)] else Decimal(n / 10) + [Digit(n % 10)]
  }

  /** A 32-bit number: digits after an optional plus sign, within range. */
  function ParseU32(s: string): Option<nat> {
    var body := if |s| > 1 && s[0] == '+' then s[1..] else s;
    if body == "" || !AllDigits(body) || DecimalValue(body) >= U32_LIMIT then None else Some(DecimalValue(body))
  }

  lemma {:induction false} DecimalReadsBack(n: nat)
    ensures Decimal(n) != "" && AllDigits(Decimal(n)) && DecimalValue(Decimal(n)) == n
  {
    var s := Decimal(n);
    if n < 10 {
      assert s[..0] == "";
    } else {
      DecimalReadsBack(n / 10);
      assert s[..|s| - 1] == Decimal(n / 10);
    }
  }

  lemma ParseDecimal(n: nat)
    requires n < U32_LIMIT
    ensures ParseU32(Decimal(n)) == Some(n) && NoColon(Decimal(n))
  {
    DecimalReadsBack(n);
    assert IsDigit(Decimal(n)[0]);
  }

  /** A number may carry a plus sign, which is no number by itself, and has to fit 32 bits. */
  lemma {:induction false} PlusSignIsOptional(n: nat)
    ensures ParseU32(Decimal(n)) == ParseU32("+" + Decimal(n)) == if n < 4294967296 then Some(n) else None
    ensures ParseU32("") == ParseU32("+") == None
  {
    DecimalReadsBack(n);
    assert IsDigit(Decimal(n)[0]);
    assert ("+" + Decimal(n))[1..] == Decimal(n);
    assert !IsDigit("+"[0]);
  }

  // ---- Splitting at colons ----

  predicate NoColon(s: string) {
    forall i :: 0 <= i < |s| ==> s[i] != ':'
  }

  /** The text before and after the first colon. */
  function SplitOnce(s: string): Option<(string, string)> {
    if s == "" then None
    else if s[0] == ':' then Some(("", s[1..]))
    else match SplitOnce(s[1..])
      case Some(parts) => Some(([s[0]] + parts.0, parts.1))
      case None => None
  }

  lemma {:induction false} SplitJoined(a: string, b: string)
    requires NoColon(a)
    ensures SplitOnce(a + ":" + b) == Some((a, b))
  {
    var s := a + ":" + b;
    if a == "" {
      assert s == ":" + b;
      assert s[1..] == b;
    } else {
      SplitJoined(a[1..], b);
      assert s[1..] == a[1..] + ":" + b;
      assert [a[0]] + a[1..] == a;
    }
  }

  lemma {:induction false} SplitHasNoColon(s: string)
    ensures SplitOnce(s).Some? ==> NoColon(SplitOnce(s).value.0)
  {
    if s != "" && s[0] != ':' {
      SplitHasNoColon(s[1..]);
    }
  }

  // ---- Keys as text ----

  function SingleKey(key: (string, nat)): string {
    key.0 + ":" + Decimal(key.1)
  }

  function MultiKey(key: (string, nat, string)): string {
    key.0 + ":" + (Decimal(key.1) + ":" + key.2)
  }

  function ReadSingleKey(s: string): Option<(string, nat)> {
    match SplitOnce(s)
    case Some((name, period)) => if ParseU32(period).Some? then Some((name, ParseU32(period).value)) else None
    case None => None
  }

  function ReadMultiKey(s: string): Option<(string, nat, string)> {
    match SplitOnce(s)
    case Some((name, rest)) =>
      (match SplitOnce(rest)
       case Some((period, suffix)) =>
         if ParseU32(period).Some? then Some((name, ParseU32(period).value, suffix)) else None
       case None => None)
    case None => None
  }

  lemma SingleKeyReadsBack(key: (string, nat))
    requires key.1 < U32_LIMIT
    ensures NoColon(key.0) ==> ReadSingleKey(SingleKey(key)) == Some(key)
    ensures !NoColon(key.0) ==> forall s :: ReadSingleKey(s) != Some(key)
  {
    hide Decimal, ParseU32, SplitOnce;
    ParseDecimal(key.1);
    if NoColon(key.0) {
      SplitJoined(key.0, Decimal(key.1));
    } else {
      forall s ensures ReadSingleKey(s) != Some(key) {
        SplitHasNoColon(s);
      }
    }
  }

  lemma MultiKeyReadsBack(key: (string, nat, string))
    requires key.1 < U32_LIMIT
    ensures NoColon(key.0) ==> ReadMultiKey(MultiKey(key)) == Some(key)
    ensures !NoColon(key.0) ==> forall s :: ReadMultiKey(s) != Some(key)
  {
    hide Decimal, ParseU32, SplitOnce;
    ParseDecimal(key.1);
    if NoColon(key.0) {
      SplitJoined(key.0, Decimal(key.1) + ":" + key.2);
      SplitJoined(Decimal(key.1), key.2);
    } else {
      forall s ensures ReadMultiKey(s) != Some(key) {
        SplitHasNoColon(s);
      }
    }
  }

  // ---- Rekeying a map ----

  /**
   * `r` collects the entries of `m` under new keys: entries without a new key are dropped, and of entries that share
   * one any may be kept, as the order of a hash map decides.
   */
  ghost predicate Rekeyed<K, L, V>(m: map<K, V>, rekey: K -> Option<L>, r: map<L, V>) {
    && (forall k :: k in m && rekey(k).Some? ==> rekey(k).value in r)
    && (forall l :: l in r ==> exists k :: k in m && rekey(k) == Some(l) && r[l] == m[k])
  }

  method Rekey<K(==), L(==), V>(m: map<K, V>, rekey: K -> Option<L>) returns (r: map<L, V>)
    ensures Rekeyed(m, rekey, r)
  {
    r := map[];
    var left := m.Keys;
    while left != {}
      invariant left <= m.Keys
      invariant forall k :: k in m && k !in left && rekey(k).Some? ==> rekey(k).value in r
      invariant forall l :: l in r ==> exists k :: k in m && rekey(k) == Some(l) && r[l] == m[k]
      decreases |left|
    {
      var k :| k in left;
      match rekey(k) {
        case Some(l) => r := r[l := m[k]];
        case None =>
      }
      left := left - {k};
    }
  }

  /** Rekeying there and back is the identity when every key reads back; a key nothing reads as is lost. */
  lemma RekeyedBack<K, L, V>(m: map<K, V>, write: K -> Option<L>, s: map<L, V>, read: L -> Option<K>, r: map<K, V>)
    requires Rekeyed(m, write, s) && Rekeyed(s, read, r)
    requires forall k :: k in m ==> write(k).Some?
    ensures (forall k :: k in m ==> read(write(k).value) == Some(k)) ==> r == m
    ensures forall k :: k in m && (forall l :: read(l) != Some(k)) ==> k !in r
  {}

  // ---- Saving and restoring a cache ----

  ghost predicate Saved(cache: Cache, snapshot: Snapshot) {
    && Rekeyed(cache.single, key => Some(SingleKey(key)), snapshot.single)
    && Rekeyed(cache.multi, key => Some(MultiKey(key)), snapshot.multi)
  }

  ghost predicate Restored(snapshot: Snapshot, cache: Cache) {
    Rekeyed(snapshot.single, ReadSingleKey, cache.single) && Rekeyed(snapshot.multi, ReadMultiKey, cache.multi)
  }

  /** Periods are 32-bit numbers. */
  predicate Periods32(cache: Cache) {
    && (forall key :: key in cache.single ==> key.1 < U32_LIMIT)
    && (forall key :: key in cache.multi ==> key.1 < U32_LIMIT)
  }

  /** No indicator of the cache has a colon in its name. */
  predicate PlainNames(cache: Cache) {
    && (forall key :: key in cache.single ==> NoColon(key.0))
    && (forall key :: key in cache.multi ==> NoColon(key.0))
  }

  method ToSerializable(cache: Cache) returns (snapshot: Snapshot)
    ensures Saved(cache, snapshot)
  {
    var single := Rekey(cache.single, key => Some(SingleKey(key)));
    var multi := Rekey(cache.multi, key => Some(MultiKey(key)));
    snapshot := Snapshot(single, multi);
  }

  method FromSerializable(snapshot: Snapshot) returns (cache: Cache)
    ensures Restored(snapshot, cache)
  {
    var single := Rekey(snapshot.single, ReadSingleKey);
    var multi := Rekey(snapshot.multi, ReadMultiKey);
    cache := Cache(single, multi);
  }

  lemma SingleRoundTrip(
    m: map<(string, nat), seq<Value>>, s: map<string, seq<Value>>, r: map<(string, nat), seq<Value>>)
    requires Rekeyed(m, key => Some(SingleKey(key)), s) && Rekeyed(s, ReadSingleKey, r)
    requires forall key :: key in m ==> key.1 < U32_LIMIT
    ensures r == m <==> forall key :: key in m ==> NoColon(key.0)
  {
    hide SingleKey, ReadSingleKey, NoColon;
    RekeyedBack(m, key => Some(SingleKey(key)), s, ReadSingleKey, r);
    forall key | key in m
      ensures NoColon(key.0) ==> ReadSingleKey(SingleKey(key)) == Some(key)
      ensures !NoColon(key.0) ==> key !in r
    {
      SingleKeyReadsBack(key);
    }
  }

  lemma MultiRoundTrip(
    m: map<(string, nat, string), seq<Value>>, s: map<string, seq<Value>>, r: map<(string, nat, string), seq<Value>>)
    requires Rekeyed(m, key => Some(MultiKey(key)), s) && Rekeyed(s, ReadMultiKey, r)
    requires forall key :: key in m ==> key.1 < U32_LIMIT
    ensures r == m <==> forall key :: key in m ==> NoColon(key.0)
  {
    hide MultiKey, ReadMultiKey, NoColon;
    RekeyedBack(m, key => Some(MultiKey(key)), s, ReadMultiKey, r);
    forall key | key in m
      ensures NoColon(key.0) ==> ReadMultiKey(MultiKey(key)) == Some(key)
      ensures !NoColon(key.0) ==> key !in r
    {
      MultiKeyReadsBack(key);
    }
  }

  /** A saved cache is restored unchanged exactly when no indicator name contains a colon; suffixes may. */
  lemma RoundTripIff(cache: Cache, snapshot: Snapshot, restored: Cache)
    requires Periods32(cache) && Saved(cache, snapshot) && Restored(snapshot, restored)
    ensures restored == cache <==> PlainNames(cache)
  {
    hide SingleKey, MultiKey, ReadSingleKey, ReadMultiKey, NoColon, Rekeyed;
    SingleRoundTrip(cache.single, snapshot.single, restored.single);
    MultiRoundTrip(cache.multi, snapshot.multi, restored.multi);
  }
}
