/**
 * The data the scraper produces and exports: JSON-like values and records,
 * which are Python dicts with string keys. A dict keeps insertion order and
 * assigning an existing key overwrites its value in place; Record follows
 * those rules. Truthiness and str()/repr() are Python's for these values.
 */
module Records {
  import opened Exceptions
  import Text

  datatype Value =
    | Null                          // None
    | Str(s: string)
    | Bool(b: bool)
    | Num(n: int)
    | Real(r: real)                 // a Python float
    | List(items: seq<Value>)
    | Dict(entries: seq<Entry>)

  datatype Entry = Entry(key: string, value: Value)

  /** A dict with string keys, in insertion order. */
  type Record = seq<Entry>

  function Keys(r: Record): (ks: seq<string>)
    ensures |ks| == |r| && forall i :: 0 <= i < |r| ==> ks[i] == r[i].key
  {
    if r == [] then [] else [r[0].key] + Keys(r[1..])
  }

  predicate UniqueKeys(r: Record) {
    forall i, j :: 0 <= i < j < |r| ==> r[i].key != r[j].key
  }

  /** `r.get(k)`. */
  function Get(r: Record, k: string): Option<Value> {
    if r == [] then None else if r[0].key == k then Some(r[0].value) else Get(r[1..], k)
  }

  /** A key reads a value exactly when it is one of the record's keys. */
  lemma {:induction false} GetKeys(r: Record, k: string)
    ensures Get(r, k).Some? <==> k in Keys(r)
  {
    if r != [] {
      GetKeys(r[1..], k);
      assert Keys(r) == [r[0].key] + Keys(r[1..]);
    }
  }

  /** In a record without duplicate keys, each entry is what its key reads. */
  lemma {:induction false} GetAt(r: Record, i: nat)
    requires UniqueKeys(r) && i < |r|
    ensures Get(r, r[i].key) == Some(r[i].value)
  {
    if i > 0 {
      assert r[1..][i - 1] == r[i];
      GetAt(r[1..], i - 1);
    }
  }

  /** `r[k] = v`: overwrite in place when k is present, else append. */
  function Put(r: Record, k: string, v: Value): (r': Record)
  {
    if r == [] then [Entry(k, v)]
    else if r[0].key == k then [Entry(k, v)] + r[1..]
    else [r[0]] + Put(r[1..], k, v)
  }

  /** After `r[k] = v`, `r[k]` is v and every other key reads as before. */
  lemma {:induction false} PutGet(r: Record, k: string, v: Value)
    ensures Get(Put(r, k, v), k) == Some(v)
    ensures forall k' :: k' != k ==> Get(Put(r, k, v), k') == Get(r, k')
  {
    if r != [] && r[0].key != k {
      PutGet(r[1..], k, v);
    }
  }

  /** A new key is appended at the end; an existing key keeps its position. */
  lemma PutShape(r: Record, k: string, v: Value)
    ensures k !in Keys(r) ==> Put(r, k, v) == r + [Entry(k, v)]
    ensures k in Keys(r) ==> |Put(r, k, v)| == |r|
    ensures forall k' :: k' in Keys(Put(r, k, v)) <==> k' == k || k' in Keys(r)
  {
    if k in Keys(r) {
      PutPresentLength(r, k, v);
    } else {
      PutAbsent(r, k, v);
    }
    PutKeys(r, k, v);
  }

  /** A new key is appended at the end. */
  lemma {:induction false} PutAbsent(r: Record, k: string, v: Value)
    requires k !in Keys(r)
    ensures Put(r, k, v) == r + [Entry(k, v)]
  {
    if r != [] {
      assert Keys(r) == [r[0].key] + Keys(r[1..]);
      PutAbsent(r[1..], k, v);
    }
  }

  /** An existing key is overwritten in place. */
  lemma {:induction false} PutPresentLength(r: Record, k: string, v: Value)
    requires k in Keys(r)
    ensures |Put(r, k, v)| == |r|
  {
    assert Keys(r) == [r[0].key] + Keys(r[1..]);
    if r[0].key != k {
      PutPresentLength(r[1..], k, v);
    }
  }

  /** The keys after an assignment are the old keys and the assigned one. */
  lemma {:induction false} PutKeys(r: Record, k: string, v: Value)
    ensures forall k' :: k' in Keys(Put(r, k, v)) <==> k' == k || k' in Keys(r)
  {
    if r != [] {
      PutKeys(r[1..], k, v);
      assert Keys(r) == [r[0].key] + Keys(r[1..]);
      if r[0].key == k {
        assert Keys([Entry(k, v)] + r[1..]) == [k] + Keys(r[1..]);
      } else {
        assert Keys(Put(r, k, v)) == [r[0].key] + Keys(Put(r[1..], k, v));
      }
    }
  }

  /** Assignment never creates a duplicate key. */
  lemma {:induction false} PutUnique(r: Record, k: string, v: Value)
    requires UniqueKeys(r)
    ensures UniqueKeys(Put(r, k, v))
  {
    if r != [] {
      var p := Put(r, k, v);
      if r[0].key == k {
        forall i, j | 0 <= i < j < |p| ensures p[i].key != p[j].key {
          assert p[j] == r[j];
          if i > 0 { assert p[i] == r[i]; }
        }
      } else {
        PutUnique(r[1..], k, v);
        PutKeys(r[1..], k, v);
        var q := Put(r[1..], k, v);
        assert p == [r[0]] + q;
        forall j | 0 < j < |p| ensures p[0].key != p[j].key {
          assert Keys(q)[j - 1] == p[j].key;
          assert r[0].key !in Keys(r[1..]);
        }
      }
    }
  }

  /** Python truthiness: None, "", False, 0 and empty containers are falsy. */
  predicate Truthy(v: Value) {
    match v
    case Null => false
    case Str(s) => s != ""
    case Bool(b) => b
    case Num(n) => n != 0
    case Real(r) => r != 0.0
    case List(items) => items != []
    case Dict(entries) => entries != []
  }

  /** `any(r.values())`. */
  predicate AnyTruthy(r: Record) {
    exists i :: 0 <= i < |r| && Truthy(r[i].value)
  }

  /** str() of a Python int. */
  function IntToString(n: int): (s: string)
    ensures n >= 0 ==> s == Text.NatToString(n)
  {
    if n < 0 then "-" + Text.NatToString(-n) else Text.NatToString(n)
  }

  function Join(sep: string, parts: seq<string>): string {
    if parts == [] then "" else if |parts| == 1 then parts[0] else parts[0] + sep + Join(sep, parts[1..])
  }

  /** repr() of a value: strings in single quotes, containers bracketed. */
  function Repr(v: Value): string
    decreases v
  {
    match v
    case Str(s) => "'" + s + "'"
    case List(items) =>
      "[" + Join(", ", seq(|items|, i requires 0 <= i < |items| => Repr(items[i]))) + "]"
    case Dict(entries) =>
      "{" + Join(", ", seq(|entries|, i requires 0 <= i < |entries| =>
        "'" + entries[i].key + "': " + Repr(entries[i].value))) + "}"
    case Null => "None"
    case Bool(b) => if b then "True" else "False"
    case Num(n) => IntToString(n)
    case Real(r) => FloatToString(r)
  }

  /** str() of a float: integral values print with ".0"; other values print
      with at most six decimals (Python prints the shortest round-trip form). */
  function FloatToString(r: real): string {
    if r < 0.0 then "-" + UnsignedFloat(-r) else UnsignedFloat(r)
  }

  function UnsignedFloat(r: real): string
    requires r >= 0.0
  {
    var whole := r.Floor;
    var micros := ((r - whole as real) * 1000000.0).Floor;
    if micros <= 0 then Text.NatToString(whole) + ".0"
    else Text.NatToString(whole) + "." + DropTrailingZeros(PadLeft(Text.NatToString(micros), 6))
  }

  function PadLeft(s: string, n: nat): (r: string)
    ensures |r| >= |s|
  {
    if |s| >= n then s else Text.Repeat('0', n - |s|) + s
  }

  function DropTrailingZeros(s: string): string {
    if |s| > 1 && s[|s| - 1] == '0' then DropTrailingZeros(s[..|s| - 1]) else s
  }

  /** str() of a value. */
  function PyStr(v: Value): (s: string)
    ensures !v.Str? ==> s == Repr(v)
  {
    match v
    case Null => "None"
    case Str(s) => s
    case Bool(b) => if b then "True" else "False"
    case Num(n) => IntToString(n)
    case Real(r) => FloatToString(r)
    case List(_) => Repr(v)
    case Dict(_) => Repr(v)
  }

  /** A record of string fields, in order: `{k0: v0, k1: v1, ...}`. */
  function StrRecord(keys: seq<string>, values: seq<string>): (r: Record)
    requires |keys| == |values|
    ensures Keys(r) == keys
    ensures forall i :: 0 <= i < |r| ==> r[i].value == Str(values[i])
  {
    if keys == [] then [] else [Entry(keys[0], Str(values[0]))] + StrRecord(keys[1..], values[1..])
  }
}
