/**
 * JSON text as `JSON.stringify` writes it and `JSON.parse` reads it
 * (ECMA-262, sections 25.5.1 and 25.5.2), for the values of `JsValue`.
 *
 * `Serialize` follows the standard's SerializeJSONProperty with a gap (the
 * `space` argument) and the current indentation: `undefined` members are
 * left out of objects and become `null` in arrays.  `Parse` accepts the JSON
 * grammar with integer numbers and rejects everything else.  The round trip
 * `Parse(Serialize(v)) == Some(Strip(v))` is proved for every well-formed
 * value and every white-space gap, where `Strip` is exactly what JSON loses.
 */
module Json {
  import opened Wrappers
  import opened JsValue
  import opened Text

  // ---------------------------------------------------------------- writing

  function HexDigit(d: nat): (c: char)
    requires d < 16
  {
    if d < 10 then DigitChar(d) else ('a' as int + d - 10) as char
  }

  /** How `JSON.stringify` writes one character inside a string literal. */
  function EscapeChar(c: char): string {
    if c == '"' then ['\\', '"']
    else if c == '\\' then ['\\', '\\']
    else if c as int == 8 then ['\\', 'b']
    else if c == '\t' then ['\\', 't']
    else if c == '\n' then ['\\', 'n']
    else if c as int == 12 then ['\\', 'f']
    else if c == '\r' then ['\\', 'r']
    else if (c as int) < 0x20 then ['\\', 'u', '0', '0', HexDigit(c as int / 16), HexDigit(c as int % 16)]
    else [c]
  }

  function Escape(s: string): string {
    if s == [] then [] else EscapeChar(s[0]) + Escape(s[1..])
  }

  /** A string literal. */
  function Quote(s: string): string {
    "\"" + Escape(s) + "\""
  }

  /**
   * The text of `v` (which is not `undefined`) with the given gap, written at
   * the given indentation.  It is never empty and starts with a character
   * that is neither white space nor a closing bracket.
   */
  function Serialize(v: Value, gap: string, indent: string): (r: string)
    requires v != Undefined
    ensures |r| >= 1 && !IsWs(r[0]) && r[0] != ']' && r[0] != '}'
  {
    match v
    case Null => "null"
    case Bool(b) => if b then "true" else "false"
    case Num(n) => IntToString(n)
    case Str(s) => Quote(s)
    case Arr(items) => Bracket('[', ElementTexts(items, gap, indent + gap), ']', gap, indent)
    case Obj(props) => Bracket('{', MemberTexts(props, gap, indent + gap), '}', gap, indent)
  }

  /** An array or object body: empty, on one line, or one part per line indented by one more gap. */
  function Bracket(open: char, parts: seq<string>, close: char, gap: string, indent: string): (r: string)
    ensures |r| >= 2 && r[0] == open
  {
    if parts == [] then [open, close]
    else [open] + Lead(gap, indent) + Join(parts, "," + Lead(gap, indent)) + Closing(gap, indent, close)
  }

  /** What comes before each part: nothing without a gap, otherwise a new line at one more level of indentation. */
  function Lead(gap: string, indent: string): string {
    if gap == "" then "" else "\n" + indent + gap
  }

  /** The closing bracket, on a new line at the enclosing indentation when there is a gap. */
  function Closing(gap: string, indent: string, close: char): string {
    (if gap == "" then "" else "\n" + indent) + [close]
  }

  /** One text per array element; `undefined` elements are written as `null`. */
  function ElementTexts(items: seq<Value>, gap: string, indent: string): (r: seq<string>)
    ensures |r| == |items|
  {
    if items == [] then []
    else [if items[0] == Undefined then "null" else Serialize(items[0], gap, indent)] + ElementTexts(items[1..], gap, indent)
  }

  /** One `"key":value` text per property whose value is not `undefined`, in property order. */
  function MemberTexts(props: seq<Prop>, gap: string, indent: string): seq<string> {
    if props == [] then []
    else
      var rest := MemberTexts(props[1..], gap, indent);
      if props[0].val == Undefined then rest
      else [Quote(props[0].key) + ":" + (if gap == "" then "" else " ") + Serialize(props[0].val, gap, indent)] + rest
  }

  /** `JSON.stringify(v)`: no text at all for `undefined`. */
  function Stringify(v: Value): (r: Option<string>)
    ensures r.None? <==> v == Undefined
  {
    if v == Undefined then None else Some(Serialize(v, "", ""))
  }

  /** What is left of a value after a trip through JSON text. */
  function Strip(v: Value): Value {
    match v
    case Arr(items) => Arr(StripItems(items))
    case Obj(props) => Obj(StripProps(props))
    case _ => v
  }

  function StripItems(items: seq<Value>): (r: seq<Value>)
    ensures |r| == |items|
  {
    if items == [] then [] else [if items[0] == Undefined then Null else Strip(items[0])] + StripItems(items[1..])
  }

  function StripProps(props: seq<Prop>): seq<Prop> {
    if props == [] then []
    else
      var rest := StripProps(props[1..]);
      if props[0].val == Undefined then rest else [Prop(props[0].key, Strip(props[0].val))] + rest
  }

  // ---------------------------------------------------------------- reading

  /** White space in the JSON grammar (narrower than JavaScript's). */
  predicate IsWs(c: char) {
    c == ' ' || c == '\t' || c == '\n' || c == '\r'
  }

  predicate AllWs(s: string) {
    forall i :: 0 <= i < |s| ==> IsWs(s[i])
  }

  function SkipWs(s: string): (r: string)
    ensures |r| <= |s|
    ensures r == [] || !IsWs(r[0])
  {
    if s != [] && IsWs(s[0]) then SkipWs(s[1..]) else s
  }

  predicate IsHexChar(c: char) {
    IsDigit(c) || ('a' <= c <= 'f') || ('A' <= c <= 'F')
  }

  function HexCharValue(c: char): (d: nat)
    requires IsHexChar(c)
    ensures d < 16
  {
    if IsDigit(c) then DigitValue(c)
    else if 'a' <= c <= 'f' then (c as int) - ('a' as int) + 10
    else (c as int) - ('A' as int) + 10
  }

  function HexValue(h: string): (n: nat)
    requires |h| == 4 && forall i :: 0 <= i < 4 ==> IsHexChar(h[i])
    ensures n < 0x10000
  {
    HexCharValue(h[0]) * 0x1000 + HexCharValue(h[1]) * 0x100 + HexCharValue(h[2]) * 0x10 + HexCharValue(h[3])
  }

  /** The character a one-letter escape stands for. */
  function Unescape(e: char): Option<char> {
    if e == '"' || e == '\\' || e == '/' then Some(e)
    else if e == 'b' then Some(8 as char)
    else if e == 'f' then Some(12 as char)
    else if e == 'n' then Some('\n')
    else if e == 'r' then Some('\r')
    else if e == 't' then Some('\t')
    else None
  }

  /** The rest of a string literal after its opening quote, appended to `acc`, and the text after the closing quote. */
  function ParseString(s: string, acc: string): (r: Option<(string, string)>)
    ensures r.Some? ==> |r.value.1| < |s|
  {
    if s == [] then None
    else if s[0] == '"' then Some((acc, s[1..]))
    else if s[0] == '\\' then
      if |s| < 2 then None
      else if s[1] == 'u' then
        if |s| >= 6 && forall i :: 2 <= i < 6 ==> IsHexChar(s[i]) then
          var code := HexValue(s[2..6]);
          if 0xD800 <= code < 0xE000 then None   // surrogate halves, paired or not, are rejected here
          else ParseString(s[6..], acc + [code as char])
        else None
      else
        match Unescape(s[1])
        case None => None
        case Some(c) => ParseString(s[2..], acc + [c])
    else if (s[0] as int) < 0x20 then None
    else ParseString(s[1..], acc + [s[0]])
  }

  /** Length of the run of digits that starts `s`. */
  function DigitRun(s: string): (k: nat)
    ensures k <= |s|
    ensures forall i :: 0 <= i < k ==> IsDigit(s[i])
    ensures k == |s| || !IsDigit(s[k])
  {
    if s != [] && IsDigit(s[0]) then 1 + DigitRun(s[1..]) else 0
  }

  /** An integer literal: an optional minus, then `0` or a digit run not starting with `0`; fractions and exponents are refused. */
  function ParseNumber(t: string): (r: Option<(Value, string)>)
    ensures r.Some? ==> |r.value.1| < |t| && r.value.0.Num?
  {
    var neg := t != [] && t[0] == '-';
    var u := if neg then t[1..] else t;
    if u == [] || !IsDigit(u[0]) then None
    else
      var k := if u[0] == '0' then 1 else DigitRun(u);
      var rest := u[k..];
      if rest != [] && (rest[0] == '.' || rest[0] == 'e' || rest[0] == 'E') then None
      else
        var m: int := DigitsValue(u[..k]);
        Some((Num(if neg then -m else m), rest))
  }

  /** Sets `key` as a parsed object literal does: a repeated key keeps its place and takes the later value. */
  function SetProp(props: seq<Prop>, key: string, v: Value): (r: seq<Prop>)
    ensures forall k :: HasKey(r, k) <==> HasKey(props, k) || k == key
  {
    if props == [] then
      HasKeyCons(Prop(key, v), []);
      assert [Prop(key, v)] + [] == [Prop(key, v)];
      [Prop(key, v)]
    else if props[0].key == key then
      var r := [Prop(key, v)] + props[1..];
      HasKeyCons(Prop(key, v), props[1..]);
      HasKeyCons(props[0], props[1..]);
      assert [props[0]] + props[1..] == props;
      r
    else
      var r := [props[0]] + SetProp(props[1..], key, v);
      HasKeyCons(props[0], SetProp(props[1..], key, v));
      HasKeyCons(props[0], props[1..]);
      assert [props[0]] + props[1..] == props;
      r
  }

  lemma HasKeyCons(p: Prop, props: seq<Prop>)
    ensures forall k :: HasKey([p] + props, k) <==> p.key == k || HasKey(props, k)
  {
    forall k ensures HasKey([p] + props, k) <==> p.key == k || HasKey(props, k) {
      var q := [p] + props;
      if HasKey(q, k) && p.key != k {
        var i :| 0 <= i < |q| && q[i].key == k;
        assert props[i - 1].key == k;
      }
      if HasKey(props, k) {
        var i :| 0 <= i < |props| && props[i].key == k;
        assert q[i + 1].key == k;
      }
      if p.key == k {
        assert q[0].key == k;
      }
    }
  }

  /** One JSON value after optional white space, and the text after it. */
  function ParseValue(s: string): (r: Option<(Value, string)>)
    ensures r.Some? ==> |r.value.1| < |s|
    decreases |s|, 0
  {
    var t := SkipWs(s);
    if t == [] then None
    else if t[0] == '{' then ParseObject(t[1..])
    else if t[0] == '[' then ParseArray(t[1..])
    else if t[0] == '"' then
      match ParseString(t[1..], "")
      case None => None
      case Some((str, rest)) => Some((Str(str), rest))
    else if t[0] == '-' || IsDigit(t[0]) then ParseNumber(t)
    else if |t| >= 4 && t[..4] == "true" then Some((Bool(true), t[4..]))
    else if |t| >= 5 && t[..5] == "false" then Some((Bool(false), t[5..]))
    else if |t| >= 4 && t[..4] == "null" then Some((Null, t[4..]))
    else None
  }

  /** An array after its `[`. */
  function ParseArray(s: string): (r: Option<(Value, string)>)
    ensures r.Some? ==> |r.value.1| < |s|
    decreases |s|, 2
  {
    var t := SkipWs(s);
    if t != [] && t[0] == ']' then Some((Arr([]), t[1..]))
    else ParseElements(t, [])
  }

  /** Array elements, each followed by `,` or by the closing `]`; `acc` holds the elements read so far. */
  function ParseElements(s: string, acc: seq<Value>): (r: Option<(Value, string)>)
    ensures r.Some? ==> |r.value.1| < |s|
    decreases |s|, 1
  {
    match ParseValue(s)
    case None => None
    case Some((v, rest)) =>
      var t := SkipWs(rest);
      if t == [] then None
      else if t[0] == ',' then ParseElements(t[1..], acc + [v])
      else if t[0] == ']' then Some((Arr(acc + [v]), t[1..]))
      else None
  }

  /** An object after its `{`. */
  function ParseObject(s: string): (r: Option<(Value, string)>)
    ensures r.Some? ==> |r.value.1| < |s|
    decreases |s|, 2
  {
    var t := SkipWs(s);
    if t != [] && t[0] == '}' then Some((Obj([]), t[1..]))
    else ParseMembers(t, [])
  }

  /** Object members `"key": value`, each followed by `,` or by the closing `}`; `acc` holds the properties read so far. */
  function ParseMembers(s: string, acc: seq<Prop>): (r: Option<(Value, string)>)
    ensures r.Some? ==> |r.value.1| < |s|
    decreases |s|, 1
  {
    var t := SkipWs(s);
    if t == [] || t[0] != '"' then None
    else
      match ParseString(t[1..], "")
      case None => None
      case Some((key, r1)) =>
        var r2 := SkipWs(r1);
        if r2 == [] || r2[0] != ':' then None
        else
          match ParseValue(r2[1..])
          case None => None
          case Some((v, r3)) =>
            var r4 := SkipWs(r3);
            if r4 == [] then None
            else if r4[0] == ',' then ParseMembers(r4[1..], SetProp(acc, key, v))
            else if r4[0] == '}' then Some((Obj(SetProp(acc, key, v)), r4[1..]))
            else None
  }

  /** `JSON.parse(text)`: one value with nothing but white space around it; `None` where `JSON.parse` throws a SyntaxError. */
  function Parse(text: string): Option<Value> {
    match ParseValue(text)
    case None => None
    case Some((v, rest)) => if SkipWs(rest) == [] then Some(v) else None
  }
}
