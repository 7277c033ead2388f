/** JavaScript values as the launcher sees them.

    Objects are association lists: the order of the pairs is the order in
    which `Object.keys` enumerates the own properties, and a well-formed
    object never repeats a key (`UniqueKeys`). Numbers are integers. A
    function value is opaque and only identified by a tag.
 */
module Js {

  datatype Option<+T> = None | Some(value: T)

  datatype Value =
    | Undefined
    | Null
    | Bool(b: bool)
    | Num(n: int)
    | Str(s: string)
    | Arr(items: seq<Value>)
    | Obj(props: seq<(string, Value)>)
    | Fn(tag: nat)

  type Props = seq<(string, Value)>

  /** `v == null` in JavaScript: true for both `null` and `undefined`. */
  predicate Nullish(v: Value) {
    v.Undefined? || v.Null?
  }

  /** JavaScript truthiness (`!!v`). */
  predicate Truthy(v: Value) {
    match v
    case Undefined => false
    case Null => false
    case Bool(b) => b
    case Num(n) => n != 0
    case Str(s) => s != ""
    case _ => true
  }

  /** The `typeof` operator. */
  function TypeOf(v: Value): string {
    match v
    case Undefined => "undefined"
    case Bool(_) => "boolean"
    case Num(_) => "number"
    case Str(_) => "string"
    case Fn(_) => "function"
    case _ => "object"
  }

  /** How a property read on `null` or `undefined` names its receiver in a TypeError. */
  function NullishName(v: Value): string {
    if v.Null? then "null" else "undefined"
  }

  /** `Object.keys`, in enumeration order. */
  function Keys(ps: Props): (ks: seq<string>)
    ensures |ks| == |ps|
  {
    if ps == [] then [] else [ps[0].0] + Keys(ps[1..])
  }

  /** The i-th enumerated key is the key of the i-th property. */
  lemma {:induction false} KeysAt(ps: Props)
    ensures forall i :: 0 <= i < |ps| ==> Keys(ps)[i] == ps[i].0
  {
    if ps != [] {
      KeysAt(ps[1..]);
      assert forall i :: 1 <= i < |ps| ==> Keys(ps)[i] == Keys(ps[1..])[i - 1];
    }
  }

  /** No own property appears twice, as in every real JavaScript object. */
  predicate UniqueKeys(ps: Props) {
    forall i, j :: 0 <= i < j < |ps| ==> ps[i].0 != ps[j].0
  }

  /** Property read `o[k]`: `undefined` when the key is absent. */
  function Lookup(ps: Props, k: string): (v: Value)
    ensures k !in Keys(ps) ==> v == Undefined
    ensures k in Keys(ps) ==> exists i :: 0 <= i < |ps| && ps[i] == (k, v)
  {
    if ps == [] then Undefined
    else if ps[0].0 == k then ps[0].1
    else Lookup(ps[1..], k)
  }

  /** Property write `o[k] = v`: an existing key keeps its position, a new
      key is enumerated last. JavaScript enumerates array-index keys ("0",
      "42") before all others; the model keeps plain insertion order, which
      agrees with JavaScript whenever no key is an array index. */
  function Put(ps: Props, k: string, v: Value): (r: Props)
    ensures Lookup(r, k) == v
    ensures forall k' :: k' != k ==> Lookup(r, k') == Lookup(ps, k')
    ensures k in Keys(ps) ==> Keys(r) == Keys(ps)
    ensures k !in Keys(ps) ==> Keys(r) == Keys(ps) + [k]
    ensures UniqueKeys(ps) ==> UniqueKeys(r)
  {
    if ps == [] then [(k, v)]
    else
      var rest := if ps[0].0 == k then ps[1..] else Put(ps[1..], k, v);
      var r := [if ps[0].0 == k then (k, v) else ps[0]] + rest;
      assert r[1..] == rest;
      assert Keys(r) == [r[0].0] + Keys(rest);
      if UniqueKeys(ps) then
        TailUnique(ps);
        ConsUnique(r[0], rest);
        r
      else r
  }

  /** A key no pair carries is not among the keys. */
  lemma NotAKey(ps: Props, k: string)
    requires forall i :: 0 <= i < |ps| ==> ps[i].0 != k
    ensures k !in Keys(ps)
  {
    KeysAt(ps);
  }

  /** Every pair's key is among the keys. */
  lemma IsAKey(ps: Props, i: int)
    requires 0 <= i < |ps|
    ensures ps[i].0 in Keys(ps)
  {
    KeysAt(ps);
    assert Keys(ps)[i] == ps[i].0;
  }

  /** The tail of an object with unique keys has unique keys, none of them
      its first key. */
  lemma TailUnique(ps: Props)
    requires UniqueKeys(ps) && ps != []
    ensures UniqueKeys(ps[1..])
    ensures ps[0].0 !in Keys(ps[1..])
  {
    var rest := ps[1..];
    KeysAt(ps);
    KeysAt(rest);
    forall i | 0 <= i < |rest| ensures Keys(rest)[i] != ps[0].0 {
      assert rest[i] == ps[i + 1];
    }
  }

  /** Putting a key that is not among the others in front keeps the keys
      unique. */
  lemma ConsUnique(p: (string, Value), rest: Props)
    requires UniqueKeys(rest) && p.0 !in Keys(rest)
    ensures UniqueKeys([p] + rest)
  {
    var r := [p] + rest;
    KeysAt(rest);
    KeysAt(r);
    forall i, j | 0 <= i < j < |r| ensures r[i].0 != r[j].0 {
      assert r[j] == rest[j - 1];
      if i > 0 {
        assert r[i] == rest[i - 1];
      } else {
        assert Keys(rest)[j - 1] == r[j].0;
      }
    }
  }

  /** The keys of an object with unique keys: its first key, then the
      others, which never repeat the first. */
  lemma HeadKey(ps: Props)
    requires UniqueKeys(ps) && ps != []
    ensures forall k :: k in Keys(ps) <==> k == ps[0].0 || k in Keys(ps[1..])
    ensures ps[0].0 !in Keys(ps[1..])
    ensures UniqueKeys(ps[1..])
  {
    var rest := ps[1..];
    KeysAt(ps);
    KeysAt(rest);
    forall k ensures k in Keys(ps) <==> k == ps[0].0 || k in Keys(rest) {
      if k in Keys(ps) && k != ps[0].0 {
        var i :| 0 <= i < |ps| && Keys(ps)[i] == k;
        assert Keys(rest)[i - 1] == k;
      }
      if k in Keys(rest) {
        var i :| 0 <= i < |rest| && Keys(rest)[i] == k;
        assert Keys(ps)[i + 1] == k;
      }
    }
    forall i | 0 <= i < |rest| ensures Keys(rest)[i] != ps[0].0 {
      assert rest[i] == ps[i + 1];
    }
  }


  /** In a well-formed object the i-th enumerated key reads back the i-th value. */
  lemma {:induction false} LookupAt(ps: Props, i: int)
    requires UniqueKeys(ps)
    requires 0 <= i < |ps|
    ensures Lookup(ps, ps[i].0) == ps[i].1
  {
    if i > 0 {
      assert ps[0].0 != ps[i].0;
      assert ps[1..][i - 1] == ps[i];
      LookupAt(ps[1..], i - 1);
    }
  }

  /** Writing the same key twice keeps only the second write. */
  lemma {:induction false} PutPut(ps: Props, k: string, v1: Value, v2: Value)
    ensures Put(Put(ps, k, v1), k, v2) == Put(ps, k, v2)
  {
    if ps != [] && ps[0].0 != k {
      PutPut(ps[1..], k, v1, v2);
      assert Put(ps, k, v1)[1..] == Put(ps[1..], k, v1);
    }
  }

  /** Writing a key with the value it already holds changes nothing. */
  lemma {:induction false} PutSame(ps: Props, k: string)
    requires k in Keys(ps)
    ensures Put(ps, k, Lookup(ps, k)) == ps
  {
    if ps[0].0 != k {
      PutSame(ps[1..], k);
    }
  }

  /** Property access `v.k` on any value: `None` stands for the TypeError
      raised on `null` and `undefined`; only plain objects have own
      properties in this model. */
  function Get(v: Value, k: string): (r: Option<Value>)
    ensures r.None? <==> Nullish(v)
    ensures v.Obj? ==> r == Some(Lookup(v.props, k))
  {
    match v
    case Undefined => None
    case Null => None
    case Obj(ps) => Some(Lookup(ps, k))
    case _ => Some(Undefined)
  }

  function Digit(d: nat): char
    requires d < 10
  {
    "0123456789"[d]
  }

  /** Decimal text of a natural number, as `String(n)` prints it. */
  function NatToString(n: nat): (s: string)
    ensures |s| >= 1
    ensures forall i :: 0 <= i < |s| ==> '0' <= s[i] <= '9'
    ensures n >= 10 ==> s[0] != '0'
    decreases n
  {
    if n < 10 then [Digit(n)] else NatToString(n / 10) + [Digit(n % 10)]
  }

  /** Decimal text of an integer, with a leading '-' when negative. */
  function IntToString(i: int): (s: string)
    ensures i >= 0 ==> s == NatToString(i)
    ensures i < 0 ==> s == "-" + NatToString(-i)
  {
    if i < 0 then "-" + NatToString(-i) else NatToString(i)
  }

  /** Text-to-number: the decimal reading of a run of digits. */
  function DigitsValue(s: string): nat
    requires forall i :: 0 <= i < |s| ==> '0' <= s[i] <= '9'
  {
    if s == [] then 0 else DigitsValue(s[..|s| - 1]) * 10 + (s[|s| - 1] - '0') as nat
  }

  /** Printing a natural number and reading it back gives the number:
      distinct ports give distinct node URLs. */
  lemma {:induction false} NatToStringRoundTrip(n: nat)
    ensures DigitsValue(NatToString(n)) == n
    decreases n
  {
    var s := NatToString(n);
    if n >= 10 {
      NatToStringRoundTrip(n / 10);
      assert s[..|s| - 1] == NatToString(n / 10);
    }
  }
}
