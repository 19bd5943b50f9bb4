/** What joining and flattening do to the text of a RouterOS script
    (worker/internal/clab/startup_config.go). */
module ScriptJoining {
  import opened Text
  import opened RouterScript

  // ----- No text is lost -----

  /** The visible characters, in order. */
  function Visible(s: string): string {
    if s == "" then "" else (if IsGoSpace(s[0]) then "" else [s[0]]) + Visible(s[1..])
  }

  function VisibleAll(lines: seq<string>): string {
    if lines == [] then "" else VisibleAll(lines[..|lines| - 1]) + Visible(lines[|lines| - 1])
  }

  lemma {:induction false} VisibleAppend(s: string, t: string)
    ensures Visible(s + t) == Visible(s) + Visible(t)
    decreases s
  {
    hide IsGoSpace;
    if s == "" {
      assert s + t == t;
    } else {
      VisibleAppend(s[1..], t);
      assert (s + t)[1..] == s[1..] + t;
      Assoc(if IsGoSpace(s[0]) then "" else [s[0]], Visible(s[1..]), Visible(t));
    }
  }

  lemma {:induction false} BlankIsInvisible(s: string)
    requires forall i | 0 <= i < |s| :: IsGoSpace(s[i])
    ensures Visible(s) == ""
  {
    hide IsGoSpace;
    if s != "" {
      BlankIsInvisible(s[1..]);
    }
  }

  lemma {:induction false} TrimEndVisible(s: string, ws: char -> bool)
    requires forall c | ws(c) :: IsGoSpace(c)
    ensures Visible(TrimEnd(s, ws)) == Visible(s)
  {
    hide IsGoSpace;
    if s != "" && ws(s[|s| - 1]) {
      var init, last := s[..|s| - 1], s[|s| - 1];
      TrimEndVisible(init, ws);
      assert init + [last] == s;
      VisibleAppend(init, [last]);
      BlankIsInvisible([last]);
      assert Visible(init) + "" == Visible(init);
    }
  }

  lemma {:induction false} TrimStartVisible(s: string)
    ensures Visible(TrimStart(s, IsGoSpace)) == Visible(s)
  {
    hide IsGoSpace;
    if s != "" && IsGoSpace(s[0]) {
      TrimStartVisible(s[1..]);
    }
  }

  predicate IsReturn(c: char) { c == '\r' }

  predicate IsSpaceChar(c: char) { c == ' ' }

  lemma {:induction false} TrimEndSame(s: string, p: char -> bool, q: char -> bool)
    requires forall c :: p(c) == q(c)
    ensures TrimEnd(s, p) == TrimEnd(s, q)
  {
    if s != "" {
      TrimEndSame(s[..|s| - 1], p, q);
    }
  }

  /** A raw line as it stands when it is looked at for a final backslash: a continuation is trimmed,
      any other line only loses its carriage returns. */
  function LineText(raw: string, continues: bool): string {
    var line := TrimEnd(raw, IsReturn);
    if continues then Trim(line, IsGoSpace) else line
  }

  predicate EndsInBackslash(s: string) {
    s != "" && s[|s| - 1] == '\\'
  }

  /** The visible characters of the raw lines, without the backslash that ends a line that is continued. */
  function VisibleRaw(raw: seq<string>, continues: bool): string {
    if raw == [] then ""
    else
      var open := EndsInBackslash(LineText(raw[0], continues));
      var v := Visible(raw[0]);
      (if open && |raw| > 1 && v != "" then v[..|v| - 1] else v) + VisibleRaw(raw[1..], open)
  }

  lemma LineTextVisible(raw: string, continues: bool)
    ensures Visible(LineText(raw, continues)) == Visible(raw)
  {
    hide IsGoSpace;
    CarriageReturnIsSpace();
    TrimEndVisible(raw, IsReturn);
    var line := TrimEnd(raw, IsReturn);
    TrimStartVisible(line);
    TrimEndVisible(TrimStart(line, IsGoSpace), IsGoSpace);
  }

  lemma CarriageReturnIsSpace()
    ensures IsGoSpace('\r') && IsGoSpace(' ') && !IsGoSpace('\\')
  {
  }

  lemma VisibleOfOpen(s: string)
    requires EndsInBackslash(s)
    ensures Visible(s) == Visible(s[..|s| - 1]) + "\\"
  {
    CarriageReturnIsSpace();
    assert s == s[..|s| - 1] + "\\";
    VisibleAppend(s[..|s| - 1], "\\");
    assert Visible("\\") == "\\";
  }

  lemma VisibleAllLast(lines: seq<string>, line: string)
    ensures VisibleAll(lines + [line]) == VisibleAll(lines) + Visible(line)
  {
    assert (lines + [line])[..|lines|] == lines;
  }

  function DropLast(s: string): string {
    if s == "" then "" else s[..|s| - 1]
  }

  /** What one raw line does to the joined lines, in terms of what is visible. */
  lemma AddLineVisible(lines: seq<string>, raw: string)
    ensures var open := lines != [] && EndsOpen(Last(lines));
      var t, next := LineText(raw, open), AddLine(lines, raw);
      && next != [] && (EndsOpen(Last(next)) <==> EndsInBackslash(t))
      && VisibleAll(next) == (if open then DropLast(VisibleAll(lines)) else VisibleAll(lines)) + Visible(raw)
  {
    hide IsGoSpace, Visible, VisibleAll, TrimStart, Trim;
    var open := lines != [] && EndsOpen(Last(lines));
    var t := LineText(raw, open);
    TrimEndSame(raw, IsCR, IsReturn);
    LineTextVisible(raw, open);
    if open {
      var init, last := lines[..|lines| - 1], Last(lines);
      var prev := TrimEnd(last[..|last| - 1], IsBlank);
      assert lines == init + [last] && AddLine(lines, raw) == init + [prev + " " + t];
      VisibleAllLast(init, last);
      VisibleAllLast(init, prev + " " + t);
      PrevVisible(last);
      ContinuedVisible(prev, t);
      assert VisibleAll(init) + (Visible(prev) + "\\") == VisibleAll(init) + Visible(prev) + "\\";
      Assoc(VisibleAll(init), Visible(prev), Visible(t));
      assert Last(AddLine(lines, raw)) == prev + " " + t;
    } else {
      VisibleAllLast(lines, t);
      assert AddLine(lines, raw) == lines + [t];
    }
  }

  lemma PrevVisible(last: string)
    requires EndsOpen(last)
    ensures Visible(last) == Visible(TrimEnd(last[..|last| - 1], IsBlank)) + "\\"
  {
    hide IsGoSpace, Visible;
    CarriageReturnIsSpace();
    VisibleOfOpen(last);
    TrimEndVisible(last[..|last| - 1], IsBlank);
  }

  lemma ContinuedVisible(prev: string, t: string)
    ensures Visible(prev + " " + t) == Visible(prev) + Visible(t)
  {
    hide IsGoSpace;
    CarriageReturnIsSpace();
    VisibleAppend(prev + " ", t);
    VisibleAppend(prev, " ");
    BlankIsInvisible(" ");
    assert Visible(prev) + "" == Visible(prev);
  }

  lemma {:induction false} AddLinesVisible(lines: seq<string>, raw: seq<string>)
    ensures var open := lines != [] && EndsOpen(Last(lines));
      VisibleAll(AddLines(lines, raw))
      == (if open && raw != [] then DropLast(VisibleAll(lines)) else VisibleAll(lines)) + VisibleRaw(raw, open)
    decreases raw
  {
    hide Visible, VisibleAll, AddLine, LineText;
    var open := lines != [] && EndsOpen(Last(lines));
    if raw == [] {
      assert VisibleAll(lines) + "" == VisibleAll(lines);
    } else {
      var next, t := AddLine(lines, raw[0]), LineText(raw[0], open);
      AddLineVisible(lines, raw[0]);
      AddLinesVisible(next, raw[1..]);
      var before := if open then DropLast(VisibleAll(lines)) else VisibleAll(lines);
      var v := Visible(raw[0]);
      if EndsInBackslash(t) {
        VisibleOfOpen(t);
        LineTextVisible(raw[0], open);
        assert DropLast(before + v) == before + DropLast(v);
      }
      Assoc(before, v, VisibleRaw(raw[1..], EndsInBackslash(t)));
      Assoc(before, DropLast(v), VisibleRaw(raw[1..], EndsInBackslash(t)));
    }
  }

  /** Joining loses and reorders no text: the visible characters of the joined lines are those of the
      content, in order, without the backslashes that end continued lines. */
  lemma JoiningKeepsText(content: string)
    ensures VisibleAll(Joined(content)) == VisibleRaw(Split(content, '\n'), false)
  {
    hide AddLines, VisibleRaw;
    AddLinesVisible([], Split(content, '\n'));
    assert "" + VisibleRaw(Split(content, '\n'), false) == VisibleRaw(Split(content, '\n'), false);
  }

  // ----- Laws that determine the joined lines -----

  predicate OnOneLine(s: string) {
    '\n' !in s && '\r' !in s
  }

  lemma NothingToTrim(s: string)
    requires OnOneLine(s)
    ensures TrimEnd(s, IsCR) == s
  {
    if s != "" {
      assert s[|s| - 1] in s;
    }
  }

  /** A single line is itself. */
  lemma JoinedLine(a: string)
    requires OnOneLine(a)
    ensures Joined(a) == [a]
  {
    hide Split, TrimEnd;
    SplitWhole(a, '\n');
    NothingToTrim(a);
    assert AddLine([], a) == [a];
    assert [a][1..] == [];
  }

  function TwoAsOne(a: string, b: string): string {
    TrimEnd(a, IsSpaceChar) + " " + Trim(b, IsGoSpace)
  }

  lemma FirstTwo(a: string, b: string)
    requires OnOneLine(a) && OnOneLine(b)
    ensures AddLine(AddLine([], a + "\\"), b) == [TwoAsOne(a, b)] && OnOneLine(TwoAsOne(a, b))
  {
    hide Trim, TrimEnd;
    NothingToTrim(a + "\\");
    NothingToTrim(b);
    TrimEndSame(a, IsBlank, IsSpaceChar);
    assert (a + "\\")[..|a|] == a;
    assert AddLine([], a + "\\") == [a + "\\"];
    assert [a + "\\"][..0] == [];
    TrimmedOnOneLine(a, b);
  }

  lemma TrimmedOnOneLine(a: string, b: string)
    requires OnOneLine(a) && OnOneLine(b)
    ensures OnOneLine(TwoAsOne(a, b))
  {
    hide TrimEnd, TrimStart;
    PrefixOnOneLine(TrimEnd(a, IsSpaceChar), a);
    var y := TrimStart(b, IsGoSpace);
    assert forall i | 0 <= i < |y| :: y[i] == b[i + (|b| - |y|)];
    PrefixOnOneLine(TrimEnd(y, IsGoSpace), y);
  }

  lemma PrefixOnOneLine(p: string, s: string)
    requires p <= s && OnOneLine(s)
    ensures OnOneLine(p)
  {
    assert forall i | 0 <= i < |p| :: p[i] == s[i];
  }

  lemma AddTwo(p: string, q: string, more: seq<string>)
    ensures AddLines([], [p] + ([q] + more)) == AddLines(AddLine(AddLine([], p), q), more)
  {
    hide AddLine;
    var raw := [p] + ([q] + more);
    assert raw[1..] == [q] + more && ([q] + more)[1..] == more;
    assert AddLines([], raw) == AddLines(AddLine([], p), [q] + more);
  }

  /** A line that ends in a backslash and the one after it are one line: the first without its trailing
      blanks, one space, and the second trimmed. */
  lemma TwoLinesJoin(a: string, b: string)
    requires OnOneLine(a) && OnOneLine(b)
    ensures Joined(a + "\\" + "\n" + b) == [TrimEnd(a, IsSpaceChar) + " " + Trim(b, IsGoSpace)]
  {
    hide Split, AddLine, Trim, TrimEnd;
    assert a + "\\" + "\n" + b == (a + "\\") + ['\n'] + b;
    SplitOff(a + "\\", '\n', b);
    SplitWhole(b, '\n');
    FirstTwo(a, b);
    AddTwo(a + "\\", b, []);
    assert [b] + [] == [b];
  }

  /** The same holds with more lines to follow, which continue the joined line or not as it ends. */
  lemma FirstTwoLinesJoin(a: string, b: string, rest: string)
    requires OnOneLine(a) && OnOneLine(b)
    ensures Joined(a + "\\" + "\n" + (b + "\n" + rest))
         == Joined(TrimEnd(a, IsSpaceChar) + " " + Trim(b, IsGoSpace) + "\n" + rest)
  {
    hide Split, AddLine, Trim, TrimEnd;
    var more := Split(rest, '\n');
    var x := TwoAsOne(a, b);
    assert a + "\\" + "\n" + (b + "\n" + rest) == (a + "\\") + ['\n'] + (b + ['\n'] + rest);
    SplitOff(a + "\\", '\n', b + ['\n'] + rest);
    SplitOff(b, '\n', rest);
    FirstTwo(a, b);
    assert x + "\n" + rest == x + ['\n'] + rest;
    SplitOff(x, '\n', rest);
    OneLineFirst(x);
    AddTwo(a + "\\", b, more);
    assert b + "\n" + rest == b + ['\n'] + rest;
    assert ([x] + more)[1..] == more;
  }

  lemma OneLineFirst(x: string)
    requires OnOneLine(x)
    ensures AddLine([], x) == [x]
  {
    hide TrimEnd;
    NothingToTrim(x);
  }

  lemma {:induction false} ClosedPrefix(pre: seq<string>, lines: seq<string>, raw: seq<string>)
    requires lines == [] ==> pre == [] || !EndsOpen(Last(pre))
    ensures AddLines(pre + lines, raw) == pre + AddLines(lines, raw)
    decreases raw
  {
    hide TrimEnd, Trim, EndsOpen;
    if raw != [] {
      assert lines != [] ==> Last(pre + lines) == Last(lines);
      assert lines == [] ==> pre + lines == pre;
      var next := AddLine(lines, raw[0]);
      assert lines != [] ==> (pre + lines)[..|pre + lines| - 1] == pre + lines[..|lines| - 1];
      assert AddLine(pre + lines, raw[0]) == pre + next;
      ClosedPrefix(pre, next, raw[1..]);
    }
  }

  /** A line that does not end in a backslash stands alone, and the rest is joined as if it were not there. */
  lemma ClosedLineStands(a: string, rest: string)
    requires OnOneLine(a) && !EndsInBackslash(a)
    ensures Joined(a + "\n" + rest) == [a] + Joined(rest)
  {
    hide Split, AddLine;
    assert a + "\n" + rest == a + ['\n'] + rest;
    SplitOff(a, '\n', rest);
    OneLineFirst(a);
    assert ([a] + Split(rest, '\n'))[1..] == Split(rest, '\n');
    assert [a] + [] == [a];
    ClosedPrefix([a], [], Split(rest, '\n'));
  }

  /** A carriage return before the end of a line makes no difference. */
  lemma ReturnIgnored(a: string, rest: string)
    requires '\n' !in a
    ensures Joined(a + "\r" + "\n" + rest) == Joined(a + "\n" + rest)
  {
    hide Split, Trim;
    assert a + "\r" + "\n" + rest == (a + "\r") + ['\n'] + rest && a + "\n" + rest == a + ['\n'] + rest;
    SplitOff(a + "\r", '\n', rest);
    SplitOff(a, '\n', rest);
    assert (a + "\r")[..|a|] == a;
    assert AddLine([], a + "\r") == AddLine([], a);
    assert ([a + "\r"] + Split(rest, '\n'))[1..] == Split(rest, '\n') == ([a] + Split(rest, '\n'))[1..];
  }
}
