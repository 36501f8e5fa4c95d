/** PHP values as the library handles them: decoded JSON bodies, request data, config entries.
    Arrays are ordered key/value sequences with string keys. */
module PhpValue {
  import opened Wrappers
  import opened KeyOrder

  datatype Value =
    | Null
    | Bool(b: bool)
    | Int(i: int)
    | Str(s: string)
    | Arr(entries: seq<(string, Value)>)

  /** A PHP array with string keys, in insertion order. */
  type Array = seq<(string, Value)>

  /** The message every weak-mode type coercion failure (an array where a string is declared) raises. */
  const TypeError: string := "TypeError"

  /** `$a[$k]` when the key exists. */
  function Get(a: Array, k: string): Option<Value> {
    if |a| == 0 then None else if a[0].0 == k then Some(a[0].1) else Get(a[1..], k)
  }

  /** A lookup finds an entry of the array, and fails only when no entry has the key. */
  lemma {:induction false} GetSound(a: Array, k: string)
    ensures Get(a, k).Some? ==> (k, Get(a, k).value) in a
    ensures Get(a, k).None? ==> forall x :: x in a ==> x.0 != k
  {
    if |a| > 0 && a[0].0 != k {
      GetSound(a[1..], k);
      assert forall x :: x in a ==> x == a[0] || x in a[1..];
    }
  }

  lemma {:induction false} GetDistinct(a: Array, k: string, v: Value)
    requires DistinctKeys(a) && (k, v) in a
    ensures Get(a, k) == Some(v)
  {
    if a[0].0 != k {
      assert (k, v) in a[1..];
      assert DistinctKeys(a[1..]);
      GetDistinct(a[1..], k, v);
    }
  }

  /** The lookup finds an entry whose key no earlier entry carries. */
  lemma {:induction false} GetAt(a: Array, i: nat)
    requires i < |a|
    requires forall j :: 0 <= j < i ==> a[j].0 != a[i].0
    ensures Get(a, a[i].0) == Some(a[i].1)
  {
    if i > 0 {
      assert a[0].0 != a[i].0;
      GetAt(a[1..], i - 1);
    }
  }

  /** A key no entry carries is not found. */
  lemma {:induction false} GetAbsent(a: Array, k: string)
    requires forall i :: 0 <= i < |a| ==> a[i].0 != k
    ensures Get(a, k) == None
  {
    if |a| > 0 {
      GetAbsent(a[1..], k);
    }
  }

  /** Two arrays holding the same entries, with distinct keys, answer every lookup alike. */
  lemma GetPermuted(a: Array, b: Array, k: string)
    requires DistinctKeys(a) && DistinctKeys(b) && multiset(a) == multiset(b)
    ensures Get(a, k) == Get(b, k)
  {
    var r := Get(a, k);
    GetSound(a, k);
    GetSound(b, k);
    if r.Some? {
      assert (k, r.value) in multiset(b);
      GetDistinct(b, k, r.value);
    } else {
      forall x | x in b
        ensures x.0 != k
      {
        assert x in multiset(a);
      }
    }
  }

  /** `$a[$k] ?? …`: the value when the key exists and is not null. */
  function Isset(a: Array, k: string): Option<Value> {
    match Get(a, k)
    case Some(v) => if v == Null then None else Some(v)
    case None => None
  }

  /** `$v[$k] ?? …` where `$v` may be anything: only an array has entries. */
  function Index(v: Value, k: string): Option<Value> {
    if v.Arr? then Isset(v.entries, k) else None
  }

  /** `$a[$k] = $v`: overwrite in place, or append a new key. */
  function Put(a: Array, k: string, v: Value): (r: Array)
    ensures Get(r, k) == Some(v)
    ensures forall k' :: k' != k ==> Get(r, k') == Get(a, k')
    ensures forall x :: x in r ==> x == (k, v) || x in a
  {
    if |a| == 0 then [(k, v)]
    else if a[0].0 == k then [(k, v)] + a[1..]
    else [a[0]] + Put(a[1..], k, v)
  }

  lemma {:induction false} PutDistinct(a: Array, k: string, v: Value)
    requires DistinctKeys(a)
    ensures DistinctKeys(Put(a, k, v))
  {
    if |a| > 0 && a[0].0 != k {
      assert DistinctKeys(a[1..]);
      PutDistinct(a[1..], k, v);
      var t := Put(a[1..], k, v);
      forall j | 0 <= j < |t|
        ensures t[j].0 != a[0].0
      {
        assert t[j] in t;
        if t[j] != (k, v) {
          var m :| 0 <= m < |a[1..]| && a[1..][m] == t[j];
          assert a[m + 1] == t[j];
        }
      }
    } else if |a| > 0 {
      assert forall j :: 0 < j < |a| ==> a[j].0 != k;
    }
  }

  /** `array_merge($a, $b)` for string keys: `$b`'s entries overwrite or extend `$a`. */
  function Merge(a: Array, b: Array): (r: Array)
    ensures DistinctKeys(b) ==> forall k :: Get(r, k) == if Get(b, k).Some? then Get(b, k) else Get(a, k)
    ensures DistinctKeys(a) ==> DistinctKeys(r)
    decreases |b|
  {
    if |b| == 0 then a
    else
      assert DistinctKeys(b) ==> Get(b[1..], b[0].0).None? by {
        GetSound(b[1..], b[0].0);
      }
      assert DistinctKeys(a) ==> DistinctKeys(Put(a, b[0].0, b[0].1)) by {
        if DistinctKeys(a) { PutDistinct(a, b[0].0, b[0].1); }
      }
      Merge(Put(a, b[0].0, b[0].1), b[1..])
  }

  /** Merging in a single entry is assigning it. */
  lemma MergeSingle(a: Array, k: string, v: Value)
    ensures Merge(a, [(k, v)]) == Put(a, k, v)
  {
    assert [(k, v)][1..] == [];
  }

  /** PHP's `empty($v)`. */
  predicate IsEmpty(v: Value) {
    v == Null || v == Bool(false) || v == Int(0) || v == Str("") || v == Str("0") || v == Arr([])
  }

  function DigitChar(d: nat): char
    requires d < 10
  {
    ('0' as int + d) as char
  }

  /** Decimal digits of a natural number, as `(string)$n` prints them. */
  function NatToString(n: nat): (s: string)
    ensures |s| >= 1
    ensures forall i :: 0 <= i < |s| ==> '0' <= s[i] <= '9'
  {
    if n < 10 then [DigitChar(n)] else NatToString(n / 10) + [DigitChar(n % 10)]
  }

  /** `(string)$i` for an integer. */
  function IntToString(i: int): string {
    if i < 0 then "-" + NatToString(-i) else NatToString(i)
  }

  /** `(string)$v`, also string interpolation and `.`: arrays print as "Array". */
  function ToPhpString(v: Value): string {
    match v
    case Null => ""
    case Bool(b) => if b then "1" else ""
    case Int(i) => IntToString(i)
    case Str(s) => s
    case Arr(_) => "Array"
  }

  /** Weak-mode coercion of a value passed to (or returned as) a `?string`. */
  function CoerceNullableString(v: Option<Value>): (r: Result<Option<string>, string>)
    ensures r.Err? <==> v.Some? && v.value.Arr?
    ensures r == Ok(None) <==> v == None || v == Some(Null)
    ensures forall s :: v == Some(Str(s)) ==> r == Ok(Some(s))
  {
    match v
    case None => Ok(None)
    case Some(x) =>
      if x == Null then Ok(None) else if x.Arr? then Err(TypeError) else Ok(Some(ToPhpString(x)))
  }

  /** Weak-mode coercion of a value passed to a non-nullable `string`. */
  function CoerceString(v: Value): (r: Result<string, string>)
    ensures r.Err? <==> v == Null || v.Arr?
    ensures forall s :: v == Str(s) ==> r == Ok(s)
  {
    if v == Null || v.Arr? then Err(TypeError) else Ok(ToPhpString(v))
  }

  /** `ucfirst($s)`: upper-cases a leading ASCII letter. */
  function UcFirst(s: string): (r: string)
    ensures |r| == |s| && (|s| > 0 ==> r[1..] == s[1..])
    ensures |s| > 0 && 'a' <= s[0] <= 'z' ==> 'A' <= r[0] <= 'Z' && LowerChar(r[0]) == s[0]
    ensures |s| > 0 && !('a' <= s[0] <= 'z') ==> r == s
  {
    if |s| > 0 && 'a' <= s[0] <= 'z' then [(s[0] as int - 32) as char] + s[1..] else s
  }

  /** The lower-case form of an ASCII letter; every other character is kept. */
  function LowerChar(c: char): char {
    if 'A' <= c <= 'Z' then (c as int + 32) as char else c
  }

  /** `strtolower($s)` (ASCII letters only): no upper-case letter is left, and every other
      character is kept. */
  function StrToLower(s: string): (r: string)
    ensures |r| == |s|
    ensures forall i :: 0 <= i < |s| ==> !('A' <= r[i] <= 'Z')
    ensures forall i :: 0 <= i < |s| && !('A' <= s[i] <= 'Z') ==> r[i] == s[i]
    ensures forall i :: 0 <= i < |s| && 'A' <= s[i] <= 'Z' ==> r[i] as int == s[i] as int + 32
  {
    if |s| == 0 then "" else [LowerChar(s[0])] + StrToLower(s[1..])
  }

  /** `implode($sep, $parts)`. */
  function Implode(sep: string, parts: seq<string>): string {
    if |parts| == 0 then ""
    else if |parts| == 1 then parts[0]
    else parts[0] + sep + Implode(sep, parts[1..])
  }
}
