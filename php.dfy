/**
 * The part of PHP's value model that the theme's decision rules depend on:
 * decoded JSON / attribute values, truthiness ("falsy" values) and the
 * `$a[$k] ?? null` lookup.
 */
module Php {
  import opened Wrappers
  import Strings

  /**
   * A PHP value as produced by `json_decode(..., true)` or found in an
   * attribute array. Floats are not modelled. A JSON object becomes an
   * associative array with string keys; a JSON list becomes a positional array.
   */
  datatype Value =
    | Null
    | Bool(b: bool)
    | Int(i: int)
    | Str(s: string)
    | List(items: seq<Value>)
    | Assoc(entries: map<string, Value>)

  /** PHP's string-to-boolean conversion: "" and "0" are the falsy strings. */
  predicate StrTruthy(s: string) {
    s != "" && s != "0"
  }

  /** PHP's boolean conversion (what `if ($v)`, `$v ?: d` and `(bool) $v` test). */
  predicate Truthy(v: Value) {
    match v
    case Null => false
    case Bool(b) => b
    case Int(i) => i != 0
    case Str(s) => StrTruthy(s)
    case List(items) => |items| > 0
    case Assoc(entries) => |entries| > 0
  }

  /**
   * `$v[$key] ?? null` for a key that is not a numeric string: the entry of an
   * associative array, and null for every other value (a positional array's keys
   * are integers, and `??` never raises on scalars).
   */
  function Lookup(v: Value, key: string): Value {
    if v.Assoc? && key in v.entries then v.entries[key] else Null
  }

  /** `(string) $v` for the values that can reach a string concatenation. */
  function ToPhpString(v: Value): string {
    match v
    case Null => ""
    case Bool(b) => if b then "1" else ""
    case Int(i) => if i < 0 then "-" + Strings.NatToString(-i) else Strings.NatToString(i)
    case Str(s) => s
    case List(_) => "Array"
    case Assoc(_) => "Array"
  }

  /** A PHP array as its entries in order: key and value. */
  type Entries<K, V> = seq<(K, V)>

  function Keys<K, V>(a: Entries<K, V>): (r: seq<K>)
    ensures |r| == |a|
    ensures forall i :: 0 <= i < |a| ==> r[i] == a[i].0
  {
    if a == [] then [] else [a[0].0] + Keys(a[1..])
  }

  /**
   * `$a[$k] = $v` on an ordered array: an existing key keeps its position and
   * takes the new value; a new key is appended.
   */
  function Put<K(==), V>(a: Entries<K, V>, k: K, v: V): (r: Entries<K, V>)
    ensures k !in Keys(a) ==> r == a + [(k, v)]
    ensures k in Keys(a) ==> Keys(r) == Keys(a)
    ensures k in Keys(r)
  {
    if a == [] then [(k, v)]
    else if a[0].0 == k then [(k, v)] + a[1..]
    else
      assert Keys(a) == [a[0].0] + Keys(a[1..]);
      [a[0]] + Put(a[1..], k, v)
  }

  /** PHP arrays never repeat a key. */
  predicate UniqueKeys<K(==), V>(a: Entries<K, V>) {
    forall i, j :: 0 <= i < j < |a| ==> a[i].0 != a[j].0
  }

  /** `$a[$k]` where it is set, None where `isset($a[$k])` is false. */
  function Get<K(==), V>(a: Entries<K, V>, k: K): (r: Option<V>)
    ensures r.Some? <==> k in Keys(a)
  {
    if a == [] then None else if a[0].0 == k then Some(a[0].1) else Get(a[1..], k)
  }

  /** After `$a[$k] = $v`, `$a[$k]` is `$v` and every other key reads as before. */
  lemma {:induction false} PutGet<K, V>(a: Entries<K, V>, k: K, v: V, other: K)
    ensures Get(Put(a, k, v), k) == Some(v)
    ensures other != k ==> Get(Put(a, k, v), other) == Get(a, other)
  {
    if a != [] && a[0].0 != k {
      PutGet(a[1..], k, v, other);
      assert Put(a, k, v)[1..] == Put(a[1..], k, v);
    }
  }

  /** Assignment keeps the keys unique. */
  lemma {:induction false} PutKeepsUniqueKeys<K, V>(a: Entries<K, V>, k: K, v: V)
    requires UniqueKeys(a)
    ensures UniqueKeys(Put(a, k, v))
  {
    if k in Keys(a) {
      var r := Put(a, k, v);
      forall i | 0 <= i < |r| ensures r[i].0 == a[i].0 {
        assert Keys(r)[i] == Keys(a)[i];
      }
    } else {
      forall i | 0 <= i < |a| ensures a[i].0 != k {
        assert Keys(a)[i] == a[i].0;
      }
    }
  }

  /** Assignment never moves an existing key, so the old keys stay a prefix. */
  lemma PutKeepsPrefix<K, V>(a: Entries<K, V>, k: K, v: V)
    ensures Keys(a) <= Keys(Put(a, k, v))
  {
    if k !in Keys(a) {
      assert Keys(Put(a, k, v))[..|a|] == Keys(a);
    }
  }

  /** Appending a key that is not there yet keeps the keys unique and adds it last. */
  lemma AppendFresh<K, V>(a: Entries<K, V>, k: K, v: V)
    requires UniqueKeys(a) && k !in Keys(a)
    ensures UniqueKeys(a + [(k, v)])
    ensures Keys(a + [(k, v)]) == Keys(a) + [k]
  {
    forall i | 0 <= i < |a| ensures a[i].0 != k {
      assert Keys(a)[i] == a[i].0;
    }
  }
}
