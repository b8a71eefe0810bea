/**
 * What the JSON text of `Json` guarantees: reading back what was written
 * gives the value minus what JSON cannot carry, compact text is one line,
 * parsed values are well-formed and free of `undefined`.
 */
module JsonLemmas {
  import opened Wrappers
  import opened JsValue
  import opened Text
  import opened Json

  /** Text that may follow a value: end of text, a separator, a closing bracket or white space. */
  predicate Delimited(rest: string) {
    rest == [] || rest[0] == ',' || rest[0] == ']' || rest[0] == '}' || IsWs(rest[0])
  }

  // ------------------------------------------------------------ white space

  lemma AllWsAppend(a: string, b: string)
    requires AllWs(a) && AllWs(b)
    ensures AllWs(a + b)
  {
    forall i | 0 <= i < |a + b| ensures IsWs((a + b)[i]) {
      if i >= |a| { assert (a + b)[i] == b[i - |a|]; }
    }
  }

  lemma {:induction false} SkipWsPrefix(w: string, x: string)
    requires AllWs(w)
    ensures SkipWs(w + x) == SkipWs(x)
  {
    if w != [] {
      assert (w + x)[0] == w[0];
      assert (w + x)[1..] == w[1..] + x;
      SkipWsPrefix(w[1..], x);
    } else {
      assert w + x == x;
    }
  }

  /** A closing bracket after white space: skipping the white space lands on the bracket. */
  lemma CloseSkip(close: string, rest: string)
    requires |close| >= 1 && AllWs(close[..|close| - 1])
    requires close[|close| - 1] == ']' || close[|close| - 1] == '}'
    ensures SkipWs(close + rest) == [close[|close| - 1]] + rest
  {
    var w := close[..|close| - 1];
    assert close + rest == w + ([close[|close| - 1]] + rest);
    SkipWsPrefix(w, [close[|close| - 1]] + rest);
  }

  lemma CloseDelimited(close: string, rest: string)
    requires |close| >= 1 && AllWs(close[..|close| - 1])
    requires close[|close| - 1] == ']' || close[|close| - 1] == '}'
    ensures Delimited(close + rest)
  {
    if |close| > 1 {
      assert close[..|close| - 1][0] == close[0];
    }
  }

  lemma ParseValueWs(w: string, x: string)
    requires AllWs(w)
    ensures ParseValue(w + x) == ParseValue(x)
  {
    SkipWsPrefix(w, x);
  }

  lemma ParseElementsWs(w: string, x: string, acc: seq<Value>)
    requires AllWs(w)
    ensures ParseElements(w + x, acc) == ParseElements(x, acc)
  {
    ParseValueWs(w, x);
  }

  lemma ParseMembersWs(w: string, x: string, acc: seq<Prop>)
    requires AllWs(w)
    ensures ParseMembers(w + x, acc) == ParseMembers(x, acc)
  {
    SkipWsPrefix(w, x);
  }

  // ---------------------------------------------------------------- strings

  /** Reading one written character back. */
  lemma EscapeCharRoundTrip(c: char, x: string, acc: string)
    ensures ParseString(EscapeChar(c) + x, acc) == ParseString(x, acc + [c])
  {
    var s := EscapeChar(c) + x;
    if c == '"' || c == '\\' || c as int == 8 || c == '\t' || c == '\n' || c as int == 12 || c == '\r' {
      assert s[0] == '\\' && s[2..] == x;
    } else if (c as int) < 0x20 {
      var n := c as int;
      var h1 := HexDigit(n / 16);
      var h2 := HexDigit(n % 16);
      assert s[0] == '\\' && s[1] == 'u' && s[6..] == x;
      assert s[2..6] == ['0', '0', h1, h2];
      assert HexCharValue(h1) == n / 16 && HexCharValue(h2) == n % 16;
      assert HexValue(s[2..6]) == n;
    } else {
      assert s[0] == c && s[1..] == x;
    }
  }

  lemma {:induction false} EscapeRoundTrip(str: string, x: string, acc: string)
    ensures ParseString(Escape(str) + x, acc) == ParseString(x, acc + str)
  {
    if str == [] {
      assert Escape(str) + x == x && acc + str == acc;
    } else {
      assert Escape(str) + x == EscapeChar(str[0]) + (Escape(str[1..]) + x);
      EscapeCharRoundTrip(str[0], Escape(str[1..]) + x, acc);
      EscapeRoundTrip(str[1..], x, acc + [str[0]]);
      assert acc + [str[0]] + str[1..] == acc + str;
    }
  }

  /** A written string literal reads back as the string, whatever follows it. */
  lemma QuoteRoundTrip(str: string, rest: string)
    ensures ParseString((Quote(str) + rest)[1..], "") == Some((str, rest))
  {
    assert (Quote(str) + rest)[1..] == Escape(str) + ("\"" + rest);
    EscapeRoundTrip(str, "\"" + rest, "");
    assert "" + str == str;
  }

  // ---------------------------------------------------------------- numbers

  lemma {:induction false} DigitRunPrefix(ds: string, rest: string)
    requires forall i :: 0 <= i < |ds| ==> IsDigit(ds[i])
    requires rest == [] || !IsDigit(rest[0])
    ensures DigitRun(ds + rest) == |ds|
  {
    if ds == [] {
      assert ds + rest == rest;
    } else {
      assert (ds + rest)[1..] == ds[1..] + rest;
      DigitRunPrefix(ds[1..], rest);
    }
  }

  /** The digits of a natural number are read as one run whatever follows, unless more digits follow. */
  lemma UnsignedRoundTrip(m: nat, rest: string)
    requires rest == [] || !IsDigit(rest[0])
    ensures var u := NatToString(m) + rest;
            var k := if u[0] == '0' then 1 else DigitRun(u);
            k == |NatToString(m)| && u[k..] == rest && u[..k] == NatToString(m) && DigitsValue(u[..k]) == m
  {
    var d := NatToString(m);
    var u := d + rest;
    DigitsValueOfNatToString(m);
    assert u[0] == d[0];
    if d[0] == '0' {
      assert d == "0";
    } else {
      DigitRunPrefix(d, rest);
    }
    assert u[|d|..] == rest && u[..|d|] == d;
  }

  /** A written integer reads back as itself when what follows cannot continue a number. */
  lemma NumberRoundTrip(n: int, rest: string)
    requires rest == [] || !(IsDigit(rest[0]) || rest[0] == '.' || rest[0] == 'e' || rest[0] == 'E')
    ensures ParseNumber(IntToString(n) + rest) == Some((Num(n), rest))
  {
    var m: nat := if n < 0 then -n else n;
    var d := NatToString(m);
    var u := d + rest;
    UnsignedRoundTrip(m, rest);
    if n < 0 {
      var t := "-" + u;
      assert IntToString(n) == "-" + d;
      assert IntToString(n) + rest == t by { Assoc("-", d, rest); }
      assert t[0] == '-' && t[1..] == u;
    } else {
      assert IntToString(n) + rest == u && u[0] == d[0] && IsDigit(d[0]);
    }
  }

  // ------------------------------------------------------------- containers

  lemma SetPropNew(props: seq<Prop>, key: string, v: Value)
    requires !HasKey(props, key)
    ensures SetProp(props, key, v) == props + [Prop(key, v)]
  {
    if props != [] {
      HasKeyCons(props[0], props[1..]);
      assert [props[0]] + props[1..] == props;
      SetPropNew(props[1..], key, v);
      assert [props[0]] + (props[1..] + [Prop(key, v)]) == props + [Prop(key, v)];
    }
  }

  lemma DistinctAppend(props: seq<Prop>, p: Prop)
    requires DistinctKeys(props) && !HasKey(props, p.key)
    ensures DistinctKeys(props + [p])
  {
    var q := props + [p];
    forall i, j | 0 <= i < j < |q| ensures q[i].key != q[j].key {
      if j == |props| {
        assert q[i] == props[i];
      }
    }
  }

  lemma DistinctTail(props: seq<Prop>)
    requires props != [] && DistinctKeys(props)
    ensures DistinctKeys(props[1..])
    ensures !HasKey(props[1..], props[0].key)
    ensures forall k :: HasKey(props[1..], k) ==> HasKey(props, k)
  {
    forall i, j | 0 <= i < j < |props[1..]| ensures props[1..][i].key != props[1..][j].key {
      assert props[1..][i] == props[i + 1] && props[1..][j] == props[j + 1];
    }
    HasKeyCons(props[0], props[1..]);
    assert [props[0]] + props[1..] == props;
    forall i | 0 <= i < |props[1..]| ensures props[1..][i].key != props[0].key {
      assert props[1..][i] == props[i + 1];
    }
  }

  /** An object writes no member exactly when nothing of it survives the trip. */
  lemma {:induction false} NoMembers(props: seq<Prop>, gap: string, indent: string)
    requires MemberTexts(props, gap, indent) == []
    ensures StripProps(props) == []
  {
    if props != [] {
      NoMembers(props[1..], gap, indent);
    }
  }

  lemma JoinFirst(parts: seq<string>, sep: string, x: string)
    requires parts != [] && parts[0] != []
    ensures (Join(parts, sep) + x)[0] == parts[0][0]
  {
  }

  // ------------------------------------------------------------- round trip

  /** Null, booleans, numbers and strings read back as themselves. */
  lemma ParseAtom(v: Value, gap: string, indent: string, rest: string)
    requires v.Null? || v.Bool? || v.Num? || v.Str?
    requires Delimited(rest)
    ensures ParseValue(Serialize(v, gap, indent) + rest) == Some((v, rest))
  {
    var s := Serialize(v, gap, indent) + rest;
    assert SkipWs(s) == s;
    match v
    case Null => assert s[..4] == "null" && s[4..] == rest && s[0] == 'n';
    case Bool(b) =>
      if b { assert s[..4] == "true" && s[4..] == rest; }
      else { assert s[..5] == "false" && s[5..] == rest && s[..4] != "true"; }
    case Num(n) => NumberRoundTrip(n, rest);
    case Str(str) => QuoteRoundTrip(str, rest);
  }

  /**
   * Reading back the text of a well-formed value, written with a white-space
   * gap at any white-space indentation, gives the value as JSON keeps it and
   * stops exactly where the text ends.
   */
  lemma {:induction false} ParseSerialized(v: Value, gap: string, indent: string, rest: string)
    requires v != Undefined && WellFormed(v)
    requires AllWs(gap) && AllWs(indent) && Delimited(rest)
    ensures ParseValue(Serialize(v, gap, indent) + rest) == Some((Strip(v), rest))
    decreases v
  {
    match v
    case Null => ParseAtom(v, gap, indent, rest);
    case Bool(_) => ParseAtom(v, gap, indent, rest);
    case Num(_) => ParseAtom(v, gap, indent, rest);
    case Str(_) => ParseAtom(v, gap, indent, rest);
    case Arr(items) => ParseArrayText(items, gap, indent, rest);
    case Obj(props) => ParseObjectText(props, gap, indent, rest);
  }

  lemma ParseValueOpen(c: char, x: string)
    requires c == '[' || c == '{'
    ensures ParseValue([c] + x) == if c == '[' then ParseArray(x) else ParseObject(x)
  {
    assert SkipWs([c] + x) == [c] + x;
    assert ([c] + x)[1..] == x;
  }

  lemma Assoc(a: string, b: string, c: string)
    ensures (a + b) + c == a + (b + c)
  {
  }

  lemma LayoutShape(gap: string, indent: string, close: char)
    requires AllWs(gap) && AllWs(indent)
    requires close == ']' || close == '}'
    ensures AllWs(indent + gap) && AllWs(Lead(gap, indent))
    ensures var c := Closing(gap, indent, close);
            |c| >= 1 && c[|c| - 1] == close && AllWs(c[..|c| - 1])
  {
    AllWsAppend(indent, gap);
    AllWsAppend("\n", indent);
    AllWsAppend("\n" + indent, gap);
    var w := if gap == "" then "" else "\n" + indent;
    assert Closing(gap, indent, close)[..|Closing(gap, indent, close)| - 1] == w;
  }

  /** The text of a non-empty bracket, then what follows it, split after the opening bracket and the lead. */
  lemma BracketOpen(open: char, parts: seq<string>, close: char, gap: string, indent: string, rest: string)
    requires parts != []
    ensures var lead := Lead(gap, indent);
            Bracket(open, parts, close, gap, indent) + rest
            == [open] + (lead + (Join(parts, "," + lead) + Closing(gap, indent, close) + rest))
  {
    var lead, c := Lead(gap, indent), Closing(gap, indent, close);
    var j := Join(parts, "," + lead);
    Assoc([open] + lead + j, c, rest);
    Assoc([open] + lead, j, c + rest);
    Assoc([open], lead, j + (c + rest));
    Assoc(j, c, rest);
  }

  lemma {:induction false} ParseArrayText(items: seq<Value>, gap: string, indent: string, rest: string)
    requires forall i :: 0 <= i < |items| ==> WellFormed(items[i])
    requires AllWs(gap) && AllWs(indent) && Delimited(rest)
    ensures ParseValue(Serialize(Arr(items), gap, indent) + rest) == Some((Arr(StripItems(items)), rest))
    decreases items, 3
  {
    var parts := ElementTexts(items, gap, indent + gap);
    assert Serialize(Arr(items), gap, indent) == Bracket('[', parts, ']', gap, indent);
    if items == [] {
      assert Serialize(Arr(items), gap, indent) + rest == ['['] + ("]" + rest);
      ParseValueOpen('[', "]" + rest);
    } else {
      ParseArrayParts(items, gap, indent, rest);
    }
  }

  lemma {:induction false} ParseArrayParts(items: seq<Value>, gap: string, indent: string, rest: string)
    requires items != []
    requires forall i :: 0 <= i < |items| ==> WellFormed(items[i])
    requires AllWs(gap) && AllWs(indent) && Delimited(rest)
    ensures ParseValue(Bracket('[', ElementTexts(items, gap, indent + gap), ']', gap, indent) + rest)
            == Some((Arr(StripItems(items)), rest))
    decreases items, 2
  {
    var ind := indent + gap;
    LayoutShape(gap, indent, ']');
    var parts := ElementTexts(items, gap, ind);
    var lead := Lead(gap, indent);
    var sep := "," + lead;
    var close := Closing(gap, indent, ']');
    var body := Join(parts, sep) + close + rest;
    BracketOpen('[', parts, ']', gap, indent, rest);
    ParseValueOpen('[', lead + body);
    SkipWsPrefix(lead, body);
    JoinFirst(parts, sep, close + rest);
    Assoc(Join(parts, sep), close, rest);
    assert sep[1..] == lead;
    ParseElementTexts(items, gap, ind, sep, close, rest, []);
    assert [] + StripItems(items) == StripItems(items);
  }

  lemma {:induction false} ParseObjectText(props: seq<Prop>, gap: string, indent: string, rest: string)
    requires DistinctKeys(props) && forall i :: 0 <= i < |props| ==> WellFormed(props[i].val)
    requires AllWs(gap) && AllWs(indent) && Delimited(rest)
    ensures ParseValue(Serialize(Obj(props), gap, indent) + rest) == Some((Obj(StripProps(props)), rest))
    decreases props, 4
  {
    var parts := MemberTexts(props, gap, indent + gap);
    assert Serialize(Obj(props), gap, indent) == Bracket('{', parts, '}', gap, indent);
    if parts == [] {
      NoMembers(props, gap, indent + gap);
      assert Serialize(Obj(props), gap, indent) + rest == ['{'] + ("}" + rest);
      ParseValueOpen('{', "}" + rest);
    } else {
      ParseObjectParts(props, gap, indent, rest);
    }
  }

  lemma {:induction false} ParseObjectParts(props: seq<Prop>, gap: string, indent: string, rest: string)
    requires MemberTexts(props, gap, indent + gap) != []
    requires DistinctKeys(props) && forall i :: 0 <= i < |props| ==> WellFormed(props[i].val)
    requires AllWs(gap) && AllWs(indent) && Delimited(rest)
    ensures ParseValue(Bracket('{', MemberTexts(props, gap, indent + gap), '}', gap, indent) + rest)
            == Some((Obj(StripProps(props)), rest))
    decreases props, 3
  {
    var ind := indent + gap;
    LayoutShape(gap, indent, '}');
    var parts := MemberTexts(props, gap, ind);
    var lead := Lead(gap, indent);
    var sep := "," + lead;
    var close := Closing(gap, indent, '}');
    var body := Join(parts, sep) + close + rest;
    BracketOpen('{', parts, '}', gap, indent, rest);
    ParseValueOpen('{', lead + body);
    SkipWsPrefix(lead, body);
    MemberTextsStart(props, gap, ind);
    JoinFirst(parts, sep, close + rest);
    Assoc(Join(parts, sep), close, rest);
    assert sep[1..] == lead;
    ParseMemberTexts(props, gap, ind, sep, close, rest, []);
    assert [] + StripProps(props) == StripProps(props);
  }

  lemma {:induction false} MemberTextsStart(props: seq<Prop>, gap: string, indent: string)
    requires MemberTexts(props, gap, indent) != []
    ensures MemberTexts(props, gap, indent)[0] != [] && MemberTexts(props, gap, indent)[0][0] == '"'
  {
    if props[0].val == Undefined {
      MemberTextsStart(props[1..], gap, indent);
    }
  }

  /** The text of the first part, then what follows it. */
  lemma JoinUnfold(parts: seq<string>, sep: string, close: string, rest: string)
    requires parts != []
    ensures |parts| == 1 ==> Join(parts, sep) + close + rest == parts[0] + (close + rest)
    ensures |parts| > 1 ==>
      Join(parts, sep) + close + rest == parts[0] + (sep + (Join(parts[1..], sep) + close + rest))
  {
  }

  /** The text of a first member `"key":value`, then what follows it. */
  lemma MemberUnfold(key: string, sp: string, vt: string, tail: seq<string>, sep: string, close: string, rest: string)
    ensures tail == [] ==>
      Join([Quote(key) + ":" + sp + vt] + tail, sep) + close + rest == Quote(key) + (":" + (sp + (vt + (close + rest))))
    ensures tail != [] ==>
      Join([Quote(key) + ":" + sp + vt] + tail, sep) + close + rest
      == Quote(key) + (":" + (sp + (vt + (sep + (Join(tail, sep) + close + rest)))))
  {
    var m0 := Quote(key) + ":" + sp + vt;
    JoinUnfold([m0] + tail, sep, close, rest);
    assert ([m0] + tail)[1..] == tail;
    var x := if tail == [] then close + rest else sep + (Join(tail, sep) + close + rest);
    Assoc(Quote(key) + ":" + sp, vt, x);
    Assoc(Quote(key) + ":", sp, vt + x);
    Assoc(Quote(key), ":", sp + (vt + x));
  }

  /** The last element: its value, the closing white space and `]`. */
  lemma ElementsLast(s: string, v: Value, close: string, rest: string, acc: seq<Value>)
    requires |close| >= 1 && close[|close| - 1] == ']' && AllWs(close[..|close| - 1])
    requires ParseValue(s) == Some((v, close + rest))
    ensures ParseElements(s, acc) == Some((Arr(acc + [v]), rest))
  {
    CloseSkip(close, rest);
  }

  /** An element followed by a comma and white space: reading goes on after them. */
  lemma ElementsNext(s: string, v: Value, sep: string, x: string, acc: seq<Value>)
    requires |sep| >= 1 && sep[0] == ',' && AllWs(sep[1..])
    requires ParseValue(s) == Some((v, sep + x))
    ensures ParseElements(s, acc) == ParseElements(x, acc + [v])
  {
    assert SkipWs(sep + x) == sep + x;
    assert (sep + x)[1..] == sep[1..] + x;
    ParseElementsWs(sep[1..], x, acc + [v]);
  }

  /** A member `"key":` and white space before a value that reads back, then the closing white space and `}`. */
  lemma MembersLast(key: string, sp: string, x: string, v: Value, close: string, rest: string, acc: seq<Prop>)
    requires AllWs(sp)
    requires |close| >= 1 && close[|close| - 1] == '}' && AllWs(close[..|close| - 1])
    requires ParseValue(x) == Some((v, close + rest))
    ensures ParseMembers(Quote(key) + (":" + (sp + x)), acc) == Some((Obj(SetProp(acc, key, v)), rest))
  {
    var r1 := ":" + (sp + x);
    QuoteRoundTrip(key, r1);
    assert SkipWs(Quote(key) + r1) == Quote(key) + r1;
    assert SkipWs(r1) == r1 && r1[1..] == sp + x;
    ParseValueWs(sp, x);
    CloseSkip(close, rest);
  }

  /** A member followed by a comma and white space: reading goes on after them. */
  lemma MembersNext(key: string, sp: string, x: string, v: Value, sep: string, y: string, acc: seq<Prop>)
    requires AllWs(sp)
    requires |sep| >= 1 && sep[0] == ',' && AllWs(sep[1..])
    requires ParseValue(x) == Some((v, sep + y))
    ensures ParseMembers(Quote(key) + (":" + (sp + x)), acc) == ParseMembers(y, SetProp(acc, key, v))
  {
    var r1 := ":" + (sp + x);
    QuoteRoundTrip(key, r1);
    assert SkipWs(Quote(key) + r1) == Quote(key) + r1;
    assert SkipWs(r1) == r1 && r1[1..] == sp + x;
    ParseValueWs(sp, x);
    assert SkipWs(sep + y) == sep + y;
    assert (sep + y)[1..] == sep[1..] + y;
    ParseMembersWs(sep[1..], y, SetProp(acc, key, v));
  }

  lemma {:induction false} ParseElementTexts(items: seq<Value>, gap: string, indent: string,
                                             sep: string, close: string, rest: string, acc: seq<Value>)
    requires items != []
    requires forall i :: 0 <= i < |items| ==> WellFormed(items[i])
    requires AllWs(gap) && AllWs(indent)
    requires |sep| >= 1 && sep[0] == ',' && AllWs(sep[1..])
    requires |close| >= 1 && close[|close| - 1] == ']' && AllWs(close[..|close| - 1])
    requires Delimited(rest)
    ensures ParseElements(Join(ElementTexts(items, gap, indent), sep) + close + rest, acc)
            == Some((Arr(acc + StripItems(items)), rest))
    decreases items, 1
  {
    if |items| == 1 {
      ParseLastElement(items, gap, indent, sep, close, rest, acc);
    } else {
      ParseMoreElements(items, gap, indent, sep, close, rest, acc);
    }
  }

  /** The text of a single element, or of an undefined one as `null`. */
  lemma ElementText(items: seq<Value>, gap: string, indent: string)
    requires items != []
    ensures var x := if items[0] == Undefined then Null else items[0];
            var parts := ElementTexts(items, gap, indent);
            parts[0] == Serialize(x, gap, indent) && parts[1..] == ElementTexts(items[1..], gap, indent) &&
            StripItems(items) == [Strip(x)] + StripItems(items[1..])
  {
  }

  lemma {:induction false} ParseLastElement(items: seq<Value>, gap: string, indent: string,
                                            sep: string, close: string, rest: string, acc: seq<Value>)
    requires |items| == 1
    requires forall i :: 0 <= i < |items| ==> WellFormed(items[i])
    requires AllWs(gap) && AllWs(indent)
    requires |sep| >= 1 && sep[0] == ',' && AllWs(sep[1..])
    requires |close| >= 1 && close[|close| - 1] == ']' && AllWs(close[..|close| - 1])
    requires Delimited(rest)
    ensures ParseElements(Join(ElementTexts(items, gap, indent), sep) + close + rest, acc)
            == Some((Arr(acc + StripItems(items)), rest))
    decreases items, 0
  {
    var parts := ElementTexts(items, gap, indent);
    var x := if items[0] == Undefined then Null else items[0];
    var sx := Strip(x);
    ElementText(items, gap, indent);
    JoinUnfold(parts, sep, close, rest);
    CloseDelimited(close, rest);
    if items[0] == Undefined {
      ParseAtom(Null, gap, indent, close + rest);
    } else {
      ParseSerialized(items[0], gap, indent, close + rest);
    }
    ElementsLast(parts[0] + (close + rest), sx, close, rest, acc);
    assert items[1..] == [];
    assert acc + StripItems(items) == acc + [sx];
  }

  lemma {:induction false} ParseMoreElements(items: seq<Value>, gap: string, indent: string,
                                             sep: string, close: string, rest: string, acc: seq<Value>)
    requires |items| > 1
    requires forall i :: 0 <= i < |items| ==> WellFormed(items[i])
    requires AllWs(gap) && AllWs(indent)
    requires |sep| >= 1 && sep[0] == ',' && AllWs(sep[1..])
    requires |close| >= 1 && close[|close| - 1] == ']' && AllWs(close[..|close| - 1])
    requires Delimited(rest)
    ensures ParseElements(Join(ElementTexts(items, gap, indent), sep) + close + rest, acc)
            == Some((Arr(acc + StripItems(items)), rest))
    decreases items, 0
  {
    var parts := ElementTexts(items, gap, indent);
    var x := if items[0] == Undefined then Null else items[0];
    var sx := Strip(x);
    ElementText(items, gap, indent);
    JoinUnfold(parts, sep, close, rest);
    var tailText := Join(parts[1..], sep) + close + rest;
    if items[0] == Undefined {
      ParseAtom(Null, gap, indent, sep + tailText);
    } else {
      ParseSerialized(items[0], gap, indent, sep + tailText);
    }
    ElementsNext(parts[0] + (sep + tailText), sx, sep, tailText, acc);
    forall i | 0 <= i < |items[1..]| ensures WellFormed(items[1..][i]) {
      assert items[1..][i] == items[i + 1];
    }
    ParseElementTexts(items[1..], gap, indent, sep, close, rest, acc + [sx]);
    AppendAssoc(acc, [sx], StripItems(items[1..]));
  }

  /** Properties read so far and those still to come have no key in common, before and after one more is read. */
  lemma KeysStayApart(acc: seq<Prop>, props: seq<Prop>)
    requires props != [] && DistinctKeys(props)
    requires DistinctKeys(acc) && forall k :: HasKey(acc, k) ==> !HasKey(props, k)
    ensures !HasKey(acc, props[0].key)
    ensures var acc' := acc + [Prop(props[0].key, Strip(props[0].val))];
            DistinctKeys(acc') && forall k :: HasKey(acc', k) ==> !HasKey(props[1..], k)
  {
    var p := props[0];
    DistinctTail(props);
    HasKeyCons(p, props[1..]);
    assert [p] + props[1..] == props;
    var acc' := acc + [Prop(p.key, Strip(p.val))];
    DistinctAppend(acc, Prop(p.key, Strip(p.val)));
    forall k | HasKey(acc', k) ensures !HasKey(props[1..], k) {
      var i :| 0 <= i < |acc'| && acc'[i].key == k;
      if i < |acc| {
        assert acc[i].key == k;
      }
    }
  }

  lemma {:induction false} ParseMemberTexts(props: seq<Prop>, gap: string, indent: string,
                                            sep: string, close: string, rest: string, acc: seq<Prop>)
    requires MemberTexts(props, gap, indent) != []
    requires DistinctKeys(props) && forall i :: 0 <= i < |props| ==> WellFormed(props[i].val)
    requires AllWs(gap) && AllWs(indent)
    requires |sep| >= 1 && sep[0] == ',' && AllWs(sep[1..])
    requires |close| >= 1 && close[|close| - 1] == '}' && AllWs(close[..|close| - 1])
    requires Delimited(rest)
    requires DistinctKeys(acc) && forall k :: HasKey(acc, k) ==> !HasKey(props, k)
    ensures ParseMembers(Join(MemberTexts(props, gap, indent), sep) + close + rest, acc)
            == Some((Obj(acc + StripProps(props)), rest))
    decreases props, 2
  {
    if props[0].val == Undefined {
      DistinctTail(props);
      forall i | 0 <= i < |props[1..]| ensures WellFormed(props[1..][i].val) {
        assert props[1..][i] == props[i + 1];
      }
      ParseMemberTexts(props[1..], gap, indent, sep, close, rest, acc);
    } else {
      ParseFirstMember(props, gap, indent, sep, close, rest, acc);
    }
  }

  lemma AppendAssoc<T>(a: seq<T>, b: seq<T>, c: seq<T>)
    ensures a + b + c == a + (b + c)
  {
  }

  /** A written first property survives, stripped, at the head. */
  lemma StripHead(props: seq<Prop>)
    requires props != [] && props[0].val != Undefined
    ensures StripProps(props) == [Prop(props[0].key, Strip(props[0].val))] + StripProps(props[1..])
  {
  }

  /** The step of `ParseMemberTexts` for a first property that is written. */
  lemma {:induction false} ParseFirstMember(props: seq<Prop>, gap: string, indent: string,
                                            sep: string, close: string, rest: string, acc: seq<Prop>)
    requires props != [] && props[0].val != Undefined
    requires DistinctKeys(props) && forall i :: 0 <= i < |props| ==> WellFormed(props[i].val)
    requires AllWs(gap) && AllWs(indent)
    requires |sep| >= 1 && sep[0] == ',' && AllWs(sep[1..])
    requires |close| >= 1 && close[|close| - 1] == '}' && AllWs(close[..|close| - 1])
    requires Delimited(rest)
    requires DistinctKeys(acc) && forall k :: HasKey(acc, k) ==> !HasKey(props, k)
    ensures ParseMembers(Join(MemberTexts(props, gap, indent), sep) + close + rest, acc)
            == Some((Obj(acc + StripProps(props)), rest))
    decreases props, 1
  {
    var p := props[0];
    var sp := if gap == "" then "" else " ";
    var vt := Serialize(p.val, gap, indent);
    var tail := MemberTexts(props[1..], gap, indent);
    if tail == [] {
      assert MemberTexts(props, gap, indent) == [Quote(p.key) + ":" + sp + vt] + tail;
      var sv := Strip(p.val);
      assert StripProps(props) == [Prop(p.key, sv)] + StripProps(props[1..]);
      KeysStayApart(acc, props);
      SetPropNew(acc, p.key, sv);
      MemberUnfold(p.key, sp, vt, tail, sep, close, rest);
      CloseDelimited(close, rest);
      ParseSerialized(p.val, gap, indent, close + rest);
      MembersLast(p.key, sp, vt + (close + rest), sv, close, rest, acc);
      NoMembers(props[1..], gap, indent);
      assert acc + StripProps(props) == acc + [Prop(p.key, sv)];
    } else {
      ParseMoreMembers(props, gap, indent, sep, close, rest, acc);
    }
  }

  /** A written first property followed by more written ones. */
  lemma {:induction false} ParseMoreMembers(props: seq<Prop>, gap: string, indent: string,
                                            sep: string, close: string, rest: string, acc: seq<Prop>)
    requires props != [] && props[0].val != Undefined && MemberTexts(props[1..], gap, indent) != []
    requires DistinctKeys(props) && forall i :: 0 <= i < |props| ==> WellFormed(props[i].val)
    requires AllWs(gap) && AllWs(indent)
    requires |sep| >= 1 && sep[0] == ',' && AllWs(sep[1..])
    requires |close| >= 1 && close[|close| - 1] == '}' && AllWs(close[..|close| - 1])
    requires Delimited(rest)
    requires DistinctKeys(acc) && forall k :: HasKey(acc, k) ==> !HasKey(props, k)
    ensures ParseMembers(Join(MemberTexts(props, gap, indent), sep) + close + rest, acc)
            == Some((Obj(acc + StripProps(props)), rest))
    decreases props, 0
  {
    var p := props[0];
    var sp := if gap == "" then "" else " ";
    var vt := Serialize(p.val, gap, indent);
    var tail := MemberTexts(props[1..], gap, indent);
    assert MemberTexts(props, gap, indent) == [Quote(p.key) + ":" + sp + vt] + tail;
    var sv := Strip(p.val);
    var acc' := acc + [Prop(p.key, sv)];
    KeysStayApart(acc, props);
    SetPropNew(acc, p.key, sv);
    MemberUnfold(p.key, sp, vt, tail, sep, close, rest);
    var tailText := Join(tail, sep) + close + rest;
    ParseSerialized(p.val, gap, indent, sep + tailText);
    MembersNext(p.key, sp, vt + (sep + tailText), sv, sep, tailText, acc);
    DistinctTail(props);
    forall i | 0 <= i < |props[1..]| ensures WellFormed(props[1..][i].val) {
      assert props[1..][i] == props[i + 1];
    }
    StripHead(props);
    AppendAssoc(acc, [Prop(p.key, sv)], StripProps(props[1..]));
    ParseMemberTexts(props[1..], gap, indent, sep, close, rest, acc');
  }

  // ------------------------------------------------------------ consequences

  /** `JSON.parse(JSON.stringify(v, null, gap))` for a white-space gap: the value as JSON keeps it. */
  lemma ParseStringify(v: Value, gap: string)
    requires v != Undefined && WellFormed(v) && AllWs(gap)
    ensures Parse(Serialize(v, gap, "")) == Some(Strip(v))
  {
    ParseSerialized(v, gap, "", "");
    assert Serialize(v, gap, "") + "" == Serialize(v, gap, "");
  }

  /** For a value without `undefined` inside, nothing is lost: the round trip is exact. */
  lemma {:induction false} StripDefined(v: Value)
    requires Defined(v)
    ensures Strip(v) == v
    decreases v
  {
    match v
    case Arr(items) => StripItemsDefined(items);
    case Obj(props) => StripPropsDefined(props);
    case _ =>
  }

  lemma {:induction false} StripItemsDefined(items: seq<Value>)
    requires forall i :: 0 <= i < |items| ==> Defined(items[i])
    ensures StripItems(items) == items
    decreases items
  {
    if items != [] {
      StripDefined(items[0]);
      forall i | 0 <= i < |items[1..]| ensures Defined(items[1..][i]) {
        assert items[1..][i] == items[i + 1];
      }
      StripItemsDefined(items[1..]);
      assert [items[0]] + items[1..] == items;
    }
  }

  lemma {:induction false} StripPropsDefined(props: seq<Prop>)
    requires forall i :: 0 <= i < |props| ==> Defined(props[i].val)
    ensures StripProps(props) == props
    decreases props
  {
    if props != [] {
      StripDefined(props[0].val);
      forall i | 0 <= i < |props[1..]| ensures Defined(props[1..][i].val) {
        assert props[1..][i] == props[i + 1];
      }
      StripPropsDefined(props[1..]);
      assert [Prop(props[0].key, props[0].val)] + props[1..] == props;
    }
  }

  /** Exact round trip of the compact text of a value JSON can carry in full. */
  lemma ParseStringifyExact(v: Value)
    requires Defined(v) && WellFormed(v)
    ensures Stringify(v).Some? && Parse(Stringify(v).value) == Some(v)
  {
    ParseStringify(v, "");
    StripDefined(v);
  }

  // ------------------------------------------------------------- one line

  lemma {:induction false} JoinNoLineFeed(parts: seq<string>, sep: string)
    requires '\n' !in sep && forall i :: 0 <= i < |parts| ==> '\n' !in parts[i]
    ensures '\n' !in Join(parts, sep)
  {
    if |parts| > 1 {
      JoinNoLineFeed(parts[1..], sep);
    }
  }

  /** Without a gap a bracket of one-line parts is one line. */
  lemma BracketOneLine(open: char, parts: seq<string>, close: char, indent: string)
    requires open != '\n' && close != '\n'
    requires forall i :: 0 <= i < |parts| ==> '\n' !in parts[i]
    ensures '\n' !in Bracket(open, parts, close, "", indent)
  {
    if parts != [] {
      assert Lead("", indent) == "" && "," + "" == ",";
      JoinNoLineFeed(parts, ",");
      assert Closing("", indent, close) == "" + [close] == [close];
      assert Bracket(open, parts, close, "", indent) == [open] + "" + Join(parts, ",") + [close];
    }
  }

  lemma {:induction false} EscapeNoLineFeed(s: string)
    ensures '\n' !in Escape(s)
  {
    if s != [] {
      EscapeNoLineFeed(s[1..]);
      var e := EscapeChar(s[0]);
      if (s[0] as int) < 0x20 && !(s[0] as int == 8 || s[0] == '\t' || s[0] == '\n' || s[0] as int == 12 || s[0] == '\r') {
        assert e == ['\\', 'u', '0', '0', HexDigit(s[0] as int / 16), HexDigit(s[0] as int % 16)];
      }
      assert '\n' !in e;
    }
  }

  lemma NatToStringNoLineFeed(n: nat)
    ensures '\n' !in NatToString(n)
  {
    var r := NatToString(n);
    forall i | 0 <= i < |r| ensures r[i] != '\n' {
      assert IsDigit(r[i]);
    }
  }

  /**
   * Without a gap the text of a value is a single line: this is what lets a
   * stream of such texts be framed by line feeds.
   */
  lemma {:induction false} CompactOneLine(v: Value, indent: string)
    requires v != Undefined
    ensures '\n' !in Serialize(v, "", indent)
    decreases v
  {
    match v
    case Null =>
    case Bool(_) =>
    case Num(n) =>
      NatToStringNoLineFeed(if n < 0 then -n else n);
    case Str(s) => EscapeNoLineFeed(s);
    case Arr(items) =>
      var parts := ElementTexts(items, "", indent + "");
      ElementsOneLine(items, indent + "");
      BracketOneLine('[', parts, ']', indent);
      assert Serialize(v, "", indent) == Bracket('[', parts, ']', "", indent);
    case Obj(props) =>
      var parts := MemberTexts(props, "", indent + "");
      MembersOneLine(props, indent + "");
      BracketOneLine('{', parts, '}', indent);
      assert Serialize(v, "", indent) == Bracket('{', parts, '}', "", indent);
  }

  lemma {:induction false} ElementsOneLine(items: seq<Value>, indent: string)
    ensures forall i :: 0 <= i < |items| ==> '\n' !in ElementTexts(items, "", indent)[i]
    decreases items
  {
    if items != [] {
      if items[0] != Undefined {
        CompactOneLine(items[0], indent);
      }
      ElementsOneLine(items[1..], indent);
      var r := ElementTexts(items, "", indent);
      forall i | 0 <= i < |items| ensures '\n' !in r[i] {
        if i > 0 { assert r[i] == ElementTexts(items[1..], "", indent)[i - 1]; }
      }
    }
  }

  lemma {:induction false} MembersOneLine(props: seq<Prop>, indent: string)
    ensures forall i :: 0 <= i < |MemberTexts(props, "", indent)| ==> '\n' !in MemberTexts(props, "", indent)[i]
    decreases props
  {
    if props != [] {
      MembersOneLine(props[1..], indent);
      var tail := MemberTexts(props[1..], "", indent);
      if props[0].val != Undefined {
        CompactOneLine(props[0].val, indent);
        EscapeNoLineFeed(props[0].key);
        var m0 := Quote(props[0].key) + ":" + "" + Serialize(props[0].val, "", indent);
        assert '\n' !in m0;
        var r := [m0] + tail;
        forall i | 0 <= i < |r| ensures '\n' !in r[i] {
          if i > 0 { assert r[i] == tail[i - 1]; }
        }
      }
    }
  }
}
