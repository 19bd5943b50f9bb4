/** Strings as the JavaScript and Go code of the repository handles them: splitting,
    joining, trimming, substring search. Characters are compared one by one; neither
    side normalises Unicode. */
module Text {

  datatype Option<+T> = None | Some(value: T)

  /** The JavaScript regex class `\s`, which is also what `trim` removes. */
  predicate IsJsSpace(c: char) {
    || c == ' ' || '\t' <= c <= '\r'
    || c in {'\U{00A0}', '\U{1680}', '\U{2028}', '\U{2029}', '\U{202F}', '\U{205F}', '\U{3000}', '\U{FEFF}'}
    || '\U{2000}' <= c <= '\U{200A}'
  }

  /** The characters at which the regex flag `m` lets `^` and `$` match, and that `.` excludes. */
  predicate IsLineEnd(c: char) {
    c == '\n' || c == '\r' || c == '\U{2028}' || c == '\U{2029}'
  }

  /** Go's `unicode.IsSpace`: unlike JavaScript it has U+0085 and lacks U+FEFF. */
  predicate IsGoSpace(c: char) {
    || c == ' ' || '\t' <= c <= '\r'
    || c in {'\U{0085}', '\U{00A0}', '\U{1680}', '\U{2028}', '\U{2029}', '\U{202F}', '\U{205F}', '\U{3000}'}
    || '\U{2000}' <= c <= '\U{200A}'
  }

  predicate Contains(s: string, t: string) {
    t <= s || (s != "" && Contains(s[1..], t))
  }

  /** No character of s satisfies p. */
  predicate Free(s: string, p: char -> bool) {
    forall i | 0 <= i < |s| :: !p(s[i])
  }

  function TrimStart(s: string, ws: char -> bool): (r: string)
    ensures |r| <= |s| && r == s[|s| - |r|..]
    ensures r != "" ==> !ws(r[0])
  {
    if s != "" && ws(s[0]) then TrimStart(s[1..], ws) else s
  }

  function TrimEnd(s: string, ws: char -> bool): (r: string)
    ensures r <= s
    ensures r != "" ==> !ws(r[|r| - 1])
  {
    if s != "" && ws(s[|s| - 1]) then TrimEnd(s[..|s| - 1], ws) else s
  }

  function Trim(s: string, ws: char -> bool): string {
    TrimEnd(TrimStart(s, ws), ws)
  }

  /** The pieces of s between occurrences of c: always at least one. */
  function Split(s: string, c: char): (r: seq<string>)
    ensures |r| >= 1
  {
    if s == "" then [""]
    else
      var r := Split(s[1..], c);
      if s[0] == c then [""] + r else [[s[0]] + r[0]] + r[1..]
  }

  function Join(lines: seq<string>, sep: char): string {
    if lines == [] then ""
    else if |lines| == 1 then lines[0]
    else lines[0] + [sep] + Join(lines[1..], sep)
  }

  /** Every line followed by a newline. */
  function Unlines(lines: seq<string>): string {
    if lines == [] then "" else lines[0] + "\n" + Unlines(lines[1..])
  }

  predicate NoneHas(lines: seq<string>, c: char) {
    forall i | 0 <= i < |lines| :: c !in lines[i]
  }

  // ----- Lemmas -----

  lemma Assoc<T>(a: seq<T>, b: seq<T>, c: seq<T>)
    ensures (a + b) + c == a + (b + c)
  {
  }

  lemma {:induction false} SplitOff(a: string, c: char, rest: string)
    requires c !in a
    ensures Split(a + [c] + rest, c) == [a] + Split(rest, c)
    decreases a
  {
    var s := a + [c] + rest;
    if a == "" {
      assert s[1..] == rest;
    } else {
      SplitOff(a[1..], c, rest);
      assert s[1..] == a[1..] + [c] + rest;
      assert [a[0]] + a[1..] == a;
    }
  }

  lemma {:induction false} SplitWhole(a: string, c: char)
    requires c !in a
    ensures Split(a, c) == [a]
  {
    if a != "" {
      SplitWhole(a[1..], c);
      assert [a[0]] + a[1..] == a;
    }
  }

  /** Splitting undoes joining, when no line holds the separator. */
  lemma {:induction false} SplitJoin(lines: seq<string>, c: char)
    requires lines != [] && NoneHas(lines, c)
    ensures Split(Join(lines, c), c) == lines
  {
    if |lines| == 1 {
      SplitWhole(lines[0], c);
    } else {
      SplitJoin(lines[1..], c);
      SplitOff(lines[0], c, Join(lines[1..], c));
    }
  }

  lemma {:induction false} SplitPieces(s: string, c: char)
    ensures NoneHas(Split(s, c), c)
  {
    if s != "" {
      SplitPieces(s[1..], c);
    }
  }

  lemma {:induction false} SplitUnlines(lines: seq<string>, rest: string)
    requires NoneHas(lines, '\n')
    ensures Split(Unlines(lines) + rest, '\n') == lines + Split(rest, '\n')
  {
    if lines == [] {
      assert Unlines(lines) + rest == rest;
    } else {
      hide Split;
      SplitUnlines(lines[1..], rest);
      SplitOff(lines[0], '\n', Unlines(lines[1..]) + rest);
      assert [lines[0]] + (lines[1..] + Split(rest, '\n')) == lines + Split(rest, '\n');
      assert Unlines(lines) + rest == lines[0] + ['\n'] + (Unlines(lines[1..]) + rest);
    }
  }

  lemma {:induction false} JoinUnlines(lines: seq<string>)
    requires lines != []
    ensures Join(lines, '\n') + "\n" == Unlines(lines)
  {
    if |lines| > 1 {
      JoinUnlines(lines[1..]);
      assert Join(lines, '\n') + "\n" == lines[0] + "\n" + (Join(lines[1..], '\n') + "\n");
    }
  }

  lemma {:induction false} UnlinesAppend(a: seq<string>, b: seq<string>)
    ensures Unlines(a + b) == Unlines(a) + Unlines(b)
  {
    if a == [] {
      assert a + b == b;
    } else {
      UnlinesAppend(a[1..], b);
      assert (a + b)[1..] == a[1..] + b;
    }
  }

  /** Text lacking a character of t does not contain t. */
  lemma {:induction false} LacksChar(s: string, t: string, c: char)
    requires c in t && c !in s
    ensures !Contains(s, t)
  {
    var i :| 0 <= i < |t| && t[i] == c;
    assert i < |s| ==> s[i] != t[i];
    if s != "" {
      LacksChar(s[1..], t, c);
    }
  }

  /** No occurrence of t spans a character that t lacks. */
  lemma {:induction false} SpansNot(a: string, c: char, b: string, t: string)
    requires t != "" && c !in t
    requires !Contains(a, t) && !Contains(b, t)
    ensures !Contains(a + [c] + b, t)
  {
    var s := a + [c] + b;
    assert |a| < |t| ==> t[|a|] != s[|a|];
    assert |t| <= |a| ==> a[..|t|] == s[..|t|];
    if a == "" {
      assert s[1..] == b;
    } else {
      SpansNot(a[1..], c, b, t);
      assert s[1..] == a[1..] + [c] + b;
    }
  }

  lemma {:induction false} TrimStartSpaces(pad: string, body: string, ws: char -> bool)
    requires forall i | 0 <= i < |pad| :: ws(pad[i])
    requires body != "" && !ws(body[0])
    ensures TrimStart(pad + body, ws) == body
  {
    if pad == "" {
      assert pad + body == body;
    } else {
      TrimStartSpaces(pad[1..], body, ws);
      assert (pad + body)[1..] == pad[1..] + body;
    }
  }

  lemma {:induction false} TrimEndSuffix(body: string, pad: string, ws: char -> bool)
    requires forall i | 0 <= i < |pad| :: ws(pad[i])
    requires body != "" ==> !ws(body[|body| - 1])
    ensures TrimEnd(body + pad, ws) == body
  {
    if pad == "" {
      assert body + pad == body;
    } else {
      var s := body + pad;
      assert s[..|s| - 1] == body + pad[..|pad| - 1];
      TrimEndSuffix(body, pad[..|pad| - 1], ws);
    }
  }
}
