/**
 * The string operations both endpoints use to cut a stream into lines:
 * `split("\n")`, joining, and `trim()` with JavaScript's notion of white space.
 */
module Text {

  /** `parts` with `sep` between consecutive parts (`Array.prototype.join`). */
  function Join(parts: seq<string>, sep: string): string {
    if parts == [] then ""
    else if |parts| == 1 then parts[0]
    else parts[0] + sep + Join(parts[1..], sep)
  }

  /**
   * `s.split("\n")`: the pieces between line feeds, in order.  There is always
   * at least one piece, the pieces hold no line feed, and joining them with
   * line feeds gives `s` back.
   */
  function Split(s: string): (r: seq<string>)
    ensures |r| >= 1
    ensures forall i :: 0 <= i < |r| ==> '\n' !in r[i]
    ensures Join(r, "\n") == s
  {
    if s == [] then [""]
    else
      var rest := Split(s[1..]);
      if s[0] == '\n' then
        assert Join([""] + rest, "\n") == "" + "\n" + Join(rest, "\n") by {
          assert ([""] + rest)[1..] == rest;
        }
        [""] + rest
      else
        var r := [[s[0]] + rest[0]] + rest[1..];
        assert Join(r, "\n") == [s[0]] + Join(rest, "\n") by {
          if |rest| > 1 {
            assert r[1..] == rest[1..];
          }
        }
        r
  }

  /** Pieces free of line feeds are recovered exactly by splitting their join: `Split` is the only such decomposition. */
  lemma {:induction false} SplitJoin(parts: seq<string>)
    requires |parts| >= 1
    requires forall i :: 0 <= i < |parts| ==> '\n' !in parts[i]
    ensures Split(Join(parts, "\n")) == parts
  {
    var w := parts[0];
    if |parts| == 1 {
      SplitNoFeed(w, "");
      assert w + "" == w;
    } else {
      var j := Join(parts[1..], "\n");
      SplitJoin(parts[1..]);
      assert Join(parts, "\n") == w + ("\n" + j);
      SplitNoFeed(w, "\n" + j);
      assert ("\n" + j)[1..] == j;
      assert Split("\n" + j) == [""] + Split(j);
      assert w + "" == w;
      assert [w] + parts[1..] == parts;
    }
  }

  /** A prefix without line feeds becomes the start of the first piece. */
  lemma {:induction false} SplitNoFeed(w: string, s: string)
    requires '\n' !in w
    ensures Split(w + s) == [w + Split(s)[0]] + Split(s)[1..]
  {
    var r := Split(s);
    if w == [] {
      assert w + s == s && w + r[0] == r[0];
      assert [r[0]] + r[1..] == r;
    } else {
      SplitNoFeed(w[1..], s);
      assert (w + s)[1..] == w[1..] + s;
      var rest := Split(w[1..] + s);
      assert rest == [w[1..] + r[0]] + r[1..];
      assert rest[1..] == r[1..];
      assert (w + s)[0] == w[0] && w[0] != '\n';
      assert Split(w + s) == [[w[0]] + rest[0]] + rest[1..];
      assert [w[0]] + (w[1..] + r[0]) == w + r[0];
    }
  }

  /** Every line followed by a line feed, concatenated. */
  function Terminated(lines: seq<string>): string {
    if lines == [] then "" else lines[0] + "\n" + Terminated(lines[1..])
  }

  /** Joining complete lines and a final partial line is writing out each complete line with its line feed, then the partial one. */
  lemma {:induction false} JoinAsTerminated(lines: seq<string>, last: string)
    ensures Join(lines + [last], "\n") == Terminated(lines) + last
  {
    if lines != [] {
      JoinAsTerminated(lines[1..], last);
      assert (lines + [last])[1..] == lines[1..] + [last];
    }
  }

  /**
   * Framing a stream: the pieces before the last are complete lines, each
   * followed by its line feed, and the last piece is the partial line after them.
   */
  lemma SplitLines(s: string)
    ensures var p := Split(s);
            s == Terminated(p[..|p| - 1]) + p[|p| - 1] && '\n' !in p[|p| - 1] &&
            forall i :: 0 <= i < |p| - 1 ==> '\n' !in p[i]
  {
    var p := Split(s);
    assert p == p[..|p| - 1] + [p[|p| - 1]];
    JoinAsTerminated(p[..|p| - 1], p[|p| - 1]);
  }

  /** The characters `String.prototype.trim` removes: white space and line terminators. */
  predicate IsJsSpace(c: char) {
    var n := c as int;
    n == 0x09 || n == 0x0A || n == 0x0B || n == 0x0C || n == 0x0D || n == 0x20 ||
    n == 0xA0 || n == 0x1680 || (0x2000 <= n <= 0x200A) || n == 0x2028 || n == 0x2029 ||
    n == 0x202F || n == 0x205F || n == 0x3000 || n == 0xFEFF
  }

  /** Nothing but white space. */
  predicate IsBlank(s: string) {
    forall i :: 0 <= i < |s| ==> IsJsSpace(s[i])
  }

  function TrimStart(s: string): string {
    if s != [] && IsJsSpace(s[0]) then TrimStart(s[1..]) else s
  }

  function TrimEnd(s: string): string {
    if s != [] && IsJsSpace(s[|s| - 1]) then TrimEnd(s[..|s| - 1]) else s
  }

  /** `s.trim()`. */
  function Trim(s: string): string {
    TrimEnd(TrimStart(s))
  }

  /** A line is skipped as empty exactly when it consists of white space only. */
  lemma TrimEmptyIffBlank(s: string)
    ensures Trim(s) == "" <==> IsBlank(s)
  {
    TrimStartBlank(s);
    TrimEndBlank(TrimStart(s));
  }

  lemma {:induction false} TrimStartBlank(s: string)
    ensures IsBlank(TrimStart(s)) <==> IsBlank(s)
  {
    if s != [] && IsJsSpace(s[0]) {
      TrimStartBlank(s[1..]);
      assert IsBlank(s) <==> IsBlank(s[1..]) by {
        if IsBlank(s[1..]) {
          forall i | 0 <= i < |s| ensures IsJsSpace(s[i]) {
            if i > 0 { assert s[i] == s[1..][i - 1]; }
          }
        }
      }
    }
  }

  lemma {:induction false} TrimEndBlank(s: string)
    ensures TrimEnd(s) == "" <==> IsBlank(s)
  {
    if s != [] && IsJsSpace(s[|s| - 1]) {
      TrimEndBlank(s[..|s| - 1]);
      assert IsBlank(s) <==> IsBlank(s[..|s| - 1]) by {
        if IsBlank(s[..|s| - 1]) {
          forall i | 0 <= i < |s| ensures IsJsSpace(s[i]) {
            if i < |s| - 1 { assert s[i] == s[..|s| - 1][i]; }
          }
        }
      }
    } else if s != [] {
      assert !IsJsSpace(s[|s| - 1]);
    }
  }
}
