/**
 * The JavaScript values that cross the host/worker link, and the few
 * language operations the core applies to them: property reads, the `in`
 * operator, truthiness, `String(...)`, iteration (for-of and spread) and
 * the message of a thrown value.
 *
 * Numbers are unbounded integers here; see README.md for what that leaves out.
 */
module JsValue {
  import opened Wrappers

  datatype Value =
    | Undefined
    | Null
    | Bool(b: bool)
    | Num(n: int)
    | Str(s: string)
    | Arr(items: seq<Value>)
    | Obj(props: seq<Prop>)   // own properties in insertion order

  datatype Prop = Prop(key: string, val: Value)

  predicate HasKey(props: seq<Prop>, key: string) {
    exists i :: 0 <= i < |props| && props[i].key == key
  }

  /** No key occurs twice, as in every JavaScript object. */
  predicate DistinctKeys(props: seq<Prop>) {
    forall i, j :: 0 <= i < j < |props| ==> props[i].key != props[j].key
  }

  /** The value stored under `key`: that of the first property with that key. */
  function Lookup(props: seq<Prop>, key: string): (r: Value)
    ensures !HasKey(props, key) ==> r == Undefined
    ensures HasKey(props, key) ==>
      exists i :: 0 <= i < |props| && props[i] == Prop(key, r) &&
        forall j :: 0 <= j < i ==> props[j].key != key
  {
    if props == [] then Undefined
    else if props[0].key == key then props[0].val
    else
      var r := Lookup(props[1..], key);
      assert HasKey(props, key) ==> HasKey(props[1..], key) by {
        if HasKey(props, key) {
          var i :| 0 <= i < |props| && props[i].key == key;
          assert props[1..][i - 1].key == key;
        }
      }
      assert HasKey(props, key) ==>
        (exists i :: 0 <= i < |props| && props[i] == Prop(key, r) && forall j :: 0 <= j < i ==> props[j].key != key) by {
        if HasKey(props, key) {
          var i :| 0 <= i < |props[1..]| && props[1..][i] == Prop(key, r) &&
            forall j :: 0 <= j < i ==> props[1..][j].key != key;
          assert props[i + 1] == Prop(key, r);
          assert forall j :: 0 <= j < i + 1 ==> props[j].key != key by {
            forall j | 0 <= j < i + 1 ensures props[j].key != key {
              if j > 0 { assert props[j] == props[1..][j - 1]; }
            }
          }
        }
      }
      r
  }

  /** Reading a key of an object that starts with a given property. */
  lemma LookupCons(p: Prop, rest: seq<Prop>, key: string)
    ensures Lookup([p] + rest, key) == if p.key == key then p.val else Lookup(rest, key)
    ensures HasKey([p] + rest, key) <==> p.key == key || HasKey(rest, key)
  {
    var q := [p] + rest;
    assert q[0] == p && q[1..] == rest;
    if HasKey(q, key) && p.key != key {
      var i :| 0 <= i < |q| && q[i].key == key;
      assert rest[i - 1].key == key;
    }
    if HasKey(rest, key) {
      var i :| 0 <= i < |rest| && rest[i].key == key;
      assert q[i + 1].key == key;
    }
    assert p.key == key ==> q[0].key == key;
  }

  lemma Lookup1(a: Prop, key: string)
    ensures Lookup([a], key) == if a.key == key then a.val else Undefined
    ensures HasKey([a], key) <==> a.key == key
  {
    LookupCons(a, [], key);
    assert [a] + [] == [a];
  }

  lemma Lookup2(a: Prop, b: Prop, key: string)
    ensures Lookup([a, b], key) == if a.key == key then a.val else if b.key == key then b.val else Undefined
    ensures HasKey([a, b], key) <==> a.key == key || b.key == key
  {
    Lookup1(b, key);
    LookupCons(a, [b], key);
    assert [a] + [b] == [a, b];
  }

  lemma Lookup3(a: Prop, b: Prop, c: Prop, key: string)
    ensures Lookup([a, b, c], key) ==
      if a.key == key then a.val else if b.key == key then b.val else if c.key == key then c.val else Undefined
    ensures HasKey([a, b, c], key) <==> a.key == key || b.key == key || c.key == key
  {
    Lookup2(b, c, key);
    LookupCons(a, [b, c], key);
    assert [a] + [b, c] == [a, b, c];
  }

  lemma Lookup4(a: Prop, b: Prop, c: Prop, d: Prop, key: string)
    ensures Lookup([a, b, c, d], key) ==
      if a.key == key then a.val else if b.key == key then b.val else if c.key == key then c.val
      else if d.key == key then d.val else Undefined
    ensures HasKey([a, b, c, d], key) <==> a.key == key || b.key == key || c.key == key || d.key == key
  {
    Lookup3(b, c, d, key);
    LookupCons(a, [b, c, d], key);
    assert [a] + [b, c, d] == [a, b, c, d];
  }

  /** The same for two properties. */
  lemma Object2(a: Prop, b: Prop)
    requires a.key != b.key && WellFormed(a.val) && WellFormed(b.val)
    ensures WellFormed(Obj([a, b]))
    ensures Defined(a.val) && Defined(b.val) ==> Defined(Obj([a, b]))
  {
    var ps := [a, b];
    forall i, j | 0 <= i < j < |ps| ensures ps[i].key != ps[j].key {
    }
  }

  /** The same for three properties. */
  lemma Object3(a: Prop, b: Prop, c: Prop)
    requires a.key != b.key && a.key != c.key && b.key != c.key
    requires WellFormed(a.val) && WellFormed(b.val) && WellFormed(c.val)
    ensures WellFormed(Obj([a, b, c]))
    ensures Defined(a.val) && Defined(b.val) && Defined(c.val) ==> Defined(Obj([a, b, c]))
  {
    var ps := [a, b, c];
    forall i, j | 0 <= i < j < |ps| ensures ps[i].key != ps[j].key {
    }
  }

  /** An object literal of four properties with distinct keys is well-formed and, without `undefined`, defined. */
  lemma Object4(a: Prop, b: Prop, c: Prop, d: Prop)
    requires a.key != b.key && a.key != c.key && a.key != d.key && b.key != c.key && b.key != d.key && c.key != d.key
    requires WellFormed(a.val) && WellFormed(b.val) && WellFormed(c.val) && WellFormed(d.val)
    ensures WellFormed(Obj([a, b, c, d]))
    ensures Defined(a.val) && Defined(b.val) && Defined(c.val) && Defined(d.val) ==> Defined(Obj([a, b, c, d]))
  {
    var ps := [a, b, c, d];
    forall i, j | 0 <= i < j < |ps| ensures ps[i].key != ps[j].key {
    }
  }

  /** `v[key]` on a value that is not null or undefined (primitives and arrays have none of the keys the core reads). */
  function Get(v: Value, key: string): Value {
    if v.Obj? then Lookup(v.props, key) else Undefined
  }

  /** `key in v` for an object. */
  predicate Has(v: Value, key: string) {
    v.Obj? && HasKey(v.props, key)
  }

  /** `v.key` as JavaScript evaluates it: reading a property of null or undefined throws a TypeError. */
  function Read(v: Value, key: string): (r: Result<Value>)
    ensures r.Err? <==> v.Undefined? || v.Null?
    ensures r.Ok? ==> r.value == Get(v, key)
  {
    if v.Undefined? then Err("Cannot read properties of undefined (reading '" + key + "')")
    else if v.Null? then Err("Cannot read properties of null (reading '" + key + "')")
    else Ok(Get(v, key))
  }

  /** JavaScript truthiness. */
  predicate Truthy(v: Value) {
    match v
    case Undefined => false
    case Null => false
    case Bool(b) => b
    case Num(n) => n != 0
    case Str(s) => s != ""
    case Arr(_) => true
    case Obj(_) => true
  }

  predicate IsDigit(c: char) { '0' <= c <= '9' }

  function DigitChar(d: nat): (c: char)
    requires d < 10
    ensures IsDigit(c)
  {
    ('0' as int + d) as char
  }

  function DigitValue(c: char): nat
    requires IsDigit(c)
  {
    (c as int) - ('0' as int)
  }

  /** The decimal numeral of a natural number, without leading zeros. */
  function NatToString(n: nat): (r: string)
    ensures |r| >= 1
    ensures forall i :: 0 <= i < |r| ==> IsDigit(r[i])
    ensures r[0] == '0' <==> n == 0
    ensures n == 0 ==> r == "0"
  {
    if n < 10 then [DigitChar(n)] else NatToString(n / 10) + [DigitChar(n % 10)]
  }

  /** `String(n)` for an integer. */
  function IntToString(n: int): (r: string)
    ensures |r| >= 1
    ensures r[0] == '-' <==> n < 0
  {
    if n < 0 then "-" + NatToString(-n) else NatToString(n)
  }

  /** The value of a string of decimal digits. */
  function DigitsValue(ds: string): nat
    requires forall i :: 0 <= i < |ds| ==> IsDigit(ds[i])
  {
    if ds == [] then 0 else DigitsValue(ds[..|ds| - 1]) * 10 + DigitValue(ds[|ds| - 1])
  }

  /** Reading back a numeral gives the number. */
  lemma {:induction false} DigitsValueOfNatToString(n: nat)
    ensures DigitsValue(NatToString(n)) == n
  {
    var r := NatToString(n);
    if n >= 10 {
      DigitsValueOfNatToString(n / 10);
      assert r[..|r| - 1] == NatToString(n / 10);
    }
  }

  /** `String(v)`; an array is joined with "," (null and undefined elements give ""). */
  function ToString(v: Value): string {
    match v
    case Undefined => "undefined"
    case Null => "null"
    case Bool(b) => if b then "true" else "false"
    case Num(n) => IntToString(n)
    case Str(s) => s
    case Arr(items) => JoinElements(items)
    case Obj(_) => "[object Object]"
  }

  function JoinElements(items: seq<Value>): string {
    if items == [] then ""
    else
      var first := if items[0].Undefined? || items[0].Null? then "" else ToString(items[0]);
      if |items| == 1 then first else first + "," + JoinElements(items[1..])
  }

  /** What for-of and spread iterate over: the elements of an array, the characters of a string; anything else throws. */
  function Iterate(v: Value): (r: Option<seq<Value>>)
    ensures r.Some? <==> v.Arr? || v.Str?
    ensures v.Arr? ==> r == Some(v.items)
    ensures v.Str? ==>
      (r.Some? && |r.value| == |v.s| && forall i :: 0 <= i < |v.s| ==> r.value[i] == Str([v.s[i]]))
  {
    match v
    case Arr(items) => Some(items)
    case Str(s) => Some(seq(|s|, i requires 0 <= i < |s| => Str([s[i]])))
    case _ => None
  }

  /** A thrown value: an Error object, or any other value. */
  datatype Exception = ErrorObject(message: string) | Thrown(value: Value)

  /** The message a catch block reports: an Error's own message, otherwise the thrown value converted to a string. */
  function ExceptionMessage(e: Exception): string {
    match e
    case ErrorObject(m) => m
    case Thrown(v) => ToString(v)
  }

  /** Every object inside has distinct keys: true of any value a JavaScript program builds. */
  predicate WellFormed(v: Value) {
    match v
    case Arr(items) => forall i :: 0 <= i < |items| ==> WellFormed(items[i])
    case Obj(props) => DistinctKeys(props) && forall i :: 0 <= i < |props| ==> WellFormed(props[i].val)
    case _ => true
  }

  /** No `undefined` anywhere inside: what JSON text can represent. */
  predicate Defined(v: Value) {
    match v
    case Undefined => false
    case Arr(items) => forall i :: 0 <= i < |items| ==> Defined(items[i])
    case Obj(props) => forall i :: 0 <= i < |props| ==> Defined(props[i].val)
    case _ => true
  }
}
