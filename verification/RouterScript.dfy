/** Flattening a RouterOS script into commands that need no context
    (worker/internal/clab/startup_config.go). */
module RouterScript {
  import opened Text

  predicate IsCR(c: char) { c == '\r' }

  predicate IsBlank(c: char) { c == ' ' }

  function TakeWord(s: string): (w: string)
    ensures w <= s && (s != "" && !IsGoSpace(s[0]) ==> w != "")
  {
    if s == "" || IsGoSpace(s[0]) then "" else [s[0]] + TakeWord(s[1..])
  }

  /** `strings.Fields`: the maximal runs of visible characters. */
  function Fields(s: string): seq<string>
    decreases |s|
  {
    if s == "" then []
    else if IsGoSpace(s[0]) then Fields(s[1..])
    else var w := TakeWord(s); [w] + Fields(s[|w|..])
  }

  predicate IsAction(word: string) {
    word == "add" || word == "set" || word == "remove" || word == "print"
  }

  predicate HasAction(line: string) {
    exists i :: 0 <= i < |Fields(line)| && IsAction(Fields(line)[i])
  }

  function Last(lines: seq<string>): string
    requires lines != []
  {
    lines[|lines| - 1]
  }

  predicate EndsOpen(line: string) {
    line != "" && line[|line| - 1] == '\\'
  }

  /** One raw line joins the lines so far: it continues the last one if that ends in a backslash. */
  function AddLine(lines: seq<string>, raw: string): seq<string> {
    var line := TrimEnd(raw, IsCR);
    if lines != [] && EndsOpen(Last(lines)) then
      var prev := TrimEnd(Last(lines)[..|Last(lines)| - 1], IsBlank);
      lines[..|lines| - 1] + [prev + " " + Trim(line, IsGoSpace)]
    else lines + [line]
  }

  function AddLines(lines: seq<string>, raw: seq<string>): seq<string>
    decreases raw
  {
    if raw == [] then lines else AddLines(AddLine(lines, raw[0]), raw[1..])
  }

  function Joined(content: string): seq<string> {
    AddLines([], Split(content, '\n'))
  }

  predicate IsComment(line: string) {
    line == "" || line[0] == '#'
  }

  predicate IsContext(line: string) {
    line != "" && line[0] == '/' && !HasAction(line)
  }

  /** The commands of the lines, read under a context. */
  function Commands(lines: seq<string>, context: string): seq<string>
    decreases lines
  {
    if lines == [] then [] else
    var line := Trim(lines[0], IsGoSpace);
    if IsComment(line) then Commands(lines[1..], context)
    else if IsContext(line) then Commands(lines[1..], line)
    else [if line[0] == '/' || context == "" then line else context + " " + line] + Commands(lines[1..], context)
  }

  function Flattened(config: string): seq<string> {
    Commands(Joined(config), "")
  }

  // ----- The loops -----

  method JoinContinuationLines(content: string) returns (result: seq<string>)
    ensures result == Joined(content)
  {
    hide TrimEnd, Trim, Split;
    var raw := Split(content, '\n');
    result := [];
    for i := 0 to |raw|
      invariant AddLines(result, raw[i..]) == AddLines([], raw)
    {
      var line := TrimEnd(raw[i], IsCR);
      assert raw[i..][0] == raw[i] && raw[i..][1..] == raw[i + 1..];
      if |result| > 0 && EndsOpen(Last(result)) {
        var last := Last(result);
        var prev := TrimEnd(last[..|last| - 1], IsBlank);
        result := result[..|result| - 1] + [prev + " " + Trim(line, IsGoSpace)];
      } else {
        result := result + [line];
      }
    }
  }

  lemma CommandsFrom(lines: seq<string>, i: nat, context: string)
    requires i < |lines|
    ensures var line, rest := Trim(lines[i], IsGoSpace), lines[i + 1..];
            Commands(lines[i..], context)
            == if IsComment(line) then Commands(rest, context)
               else if IsContext(line) then Commands(rest, line)
               else [if line[0] == '/' || context == "" then line else context + " " + line] + Commands(rest, context)
  {
    hide Trim, HasAction;
    assert lines[i..][0] == lines[i] && lines[i..][1..] == lines[i + 1..];
  }

  method FlattenRSC(config: string) returns (commands: seq<string>)
    ensures commands == Flattened(config)
  {
    hide HasAction, Trim, Joined, IsGoSpace, TrimStart;
    var joined := JoinContinuationLines(config);
    commands := [];
    var currentContext := "";
    for i := 0 to |joined|
      invariant commands + Commands(joined[i..], currentContext) == Commands(joined, "")
    {
      hide Commands;
      var line := Trim(joined[i], IsGoSpace);
      ghost var rest := Commands(joined[i + 1..], currentContext);
      CommandsFrom(joined, i, currentContext);
      if line == "" || line[0] == '#' {
        continue;
      }
      if line[0] == '/' {
        var hasAction := FindAction(line);
        if hasAction {
          Assoc(commands, [line], rest);
          commands := commands + [line];
          continue;
        }
        currentContext := line;
        continue;
      }
      if currentContext != "" {
        Assoc(commands, [currentContext + " " + line], rest);
        commands := commands + [currentContext + " " + line];
      } else {
        Assoc(commands, [line], rest);
        commands := commands + [line];
      }
    }
  }

  method FindAction(line: string) returns (hasAction: bool)
    ensures hasAction == HasAction(line)
  {
    var parts := Fields(line);
    for i := 0 to |parts|
      invariant forall j | 0 <= j < i :: !IsAction(parts[j])
    {
      if IsAction(parts[i]) {
        return true;
      }
    }
    hasAction := false;
  }

  // ----- Continuation lines -----

  /** A line that ends in a backslash gets the next one appended, so only the last can be left open. */
  predicate OnlyLastOpen(lines: seq<string>) {
    forall i | 0 <= i < |lines| - 1 :: !EndsOpen(lines[i])
  }

  lemma {:induction false} JoiningClosesLines(lines: seq<string>, raw: seq<string>)
    requires OnlyLastOpen(lines)
    ensures OnlyLastOpen(AddLines(lines, raw))
    decreases raw
  {
    hide TrimEnd, Trim;
    if raw != [] {
      JoiningClosesLines(AddLine(lines, raw[0]), raw[1..]);
    }
  }

  lemma OnlyLastJoinedLineOpen(content: string)
    ensures OnlyLastOpen(Joined(content))
  {
    JoiningClosesLines([], Split(content, '\n'));
  }

  // ----- What a command looks like -----

  /** Trimmed, visible, on one line, and not a comment. */
  predicate IsCommand(cmd: string) {
    && cmd != "" && cmd[0] != '#' && '\n' !in cmd
    && !IsGoSpace(cmd[0]) && !IsGoSpace(cmd[|cmd| - 1])
  }

  predicate OneLine(lines: seq<string>) {
    NoneHas(lines, '\n')
  }

  lemma TrimmedPart(s: string)
    ensures var t := Trim(s, IsGoSpace);
      && ('\n' !in s ==> '\n' !in t)
      && (t != "" ==> !IsGoSpace(t[0]) && !IsGoSpace(t[|t| - 1]))
  {
    var u := TrimStart(s, IsGoSpace);
    assert TrimEnd(u, IsGoSpace) <= u;
  }

  lemma {:induction false} CommandsAreCommands(lines: seq<string>, context: string)
    requires OneLine(lines) && (context == "" || (IsCommand(context) && context[0] == '/'))
    ensures forall i | 0 <= i < |Commands(lines, context)| :: IsCommand(Commands(lines, context)[i])
    decreases lines
  {
    hide Trim, HasAction, IsGoSpace, IsCommand;
    if lines != [] {
      var line := Trim(lines[0], IsGoSpace);
      TrimmedLine(lines[0], context);
      CommandsAreCommands(lines[1..], if IsContext(line) then line else context);
    }
  }

  lemma TrimmedLine(s: string, context: string)
    requires '\n' !in s && (context == "" || (IsCommand(context) && context[0] == '/'))
    ensures var line := Trim(s, IsGoSpace);
      !IsComment(line) ==> IsCommand(line) && (context != "" ==> IsCommand(context + " " + line))
  {
    hide Trim, IsGoSpace;
    TrimmedPart(s);
  }

  lemma AddedLineIsOneLine(lines: seq<string>, raw: string)
    requires OneLine(lines) && '\n' !in raw
    ensures OneLine(AddLine(lines, raw))
  {
    hide TrimEnd, Trim;
    var line := TrimEnd(raw, IsCR);
    assert line <= raw && '\n' !in line;
    TrimmedPart(line);
    if lines != [] && EndsOpen(Last(lines)) {
      JoinedLineHasNoNewline(Last(lines), Trim(line, IsGoSpace));
    }
  }

  lemma JoinedLineHasNoNewline(last: string, line: string)
    requires last != "" && '\n' !in last && '\n' !in line
    ensures '\n' !in TrimEnd(last[..|last| - 1], IsBlank) + " " + line
  {
    hide TrimEnd;
    assert TrimEnd(last[..|last| - 1], IsBlank) <= last[..|last| - 1];
  }

  lemma {:induction false} JoinedIsOneLine(lines: seq<string>, raw: seq<string>)
    requires OneLine(lines) && OneLine(raw)
    ensures OneLine(AddLines(lines, raw))
    decreases raw
  {
    hide AddLine;
    if raw != [] {
      AddedLineIsOneLine(lines, raw[0]);
      JoinedIsOneLine(AddLine(lines, raw[0]), raw[1..]);
    }
  }

  lemma FlattenedCommands(config: string)
    ensures forall i | 0 <= i < |Flattened(config)| :: IsCommand(Flattened(config)[i])
  {
    hide IsCommand, AddLines, Commands;
    SplitPieces(config, '\n');
    JoinedIsOneLine([], Split(config, '\n'));
    CommandsAreCommands(Joined(config), "");
  }

  // ----- Flattening twice -----

  /** The text of a list of commands, one a line. */
  function Script(cmds: seq<string>): string {
    Join(cmds, '\n')
  }

  predicate NoContexts(cmds: seq<string>) {
    forall i | 0 <= i < |cmds| :: !IsContext(cmds[i])
  }

  /** Each command is read the same without its neighbours: none but the last asks for a
      continuation, and none is a mere context line. */
  predicate StandAlone(cmds: seq<string>) {
    OnlyLastOpen(cmds) && NoContexts(cmds)
  }

  lemma TrimKeepsCommand(cmd: string)
    requires IsCommand(cmd)
    ensures Trim(cmd, IsGoSpace) == cmd && TrimEnd(cmd, IsCR) == cmd
  {
    assert IsGoSpace('\r');
  }

  lemma {:induction false} JoinedLength(lines: seq<string>, raw: seq<string>)
    ensures |lines| <= |AddLines(lines, raw)| <= |lines| + |raw|
    decreases raw
  {
    hide TrimEnd, Trim;
    if raw != [] {
      JoinedLength(AddLine(lines, raw[0]), raw[1..]);
    }
  }

  /** Closed commands are left as they are; an open one that is not last swallows the next. */
  lemma {:induction false} JoiningCommands(lines: seq<string>, cmds: seq<string>)
    requires forall i | 0 <= i < |cmds| :: IsCommand(cmds[i])
    requires lines == [] || !EndsOpen(Last(lines))
    ensures OnlyLastOpen(cmds) ==> AddLines(lines, cmds) == lines + cmds
    ensures !OnlyLastOpen(cmds) ==> |AddLines(lines, cmds)| < |lines| + |cmds|
    decreases cmds
  {
    hide TrimEnd, Trim, IsCommand;
    if cmds != [] {
      TrimKeepsCommand(cmds[0]);
      var next, rest := lines + [cmds[0]], cmds[1..];
      assert AddLine(lines, cmds[0]) == next;
      if EndsOpen(cmds[0]) {
        if rest == [] {
          assert OnlyLastOpen(cmds);
        } else {
          assert !EndsOpen(cmds[|cmds| - 1]) || !OnlyLastOpen(cmds);
          JoinedLength(AddLine(next, rest[0]), rest[1..]);
        }
      } else {
        JoiningCommands(next, rest);
        assert OnlyLastOpen(cmds) == OnlyLastOpen(rest) by { ClosedFirst(cmds); }
      }
    }
  }

  lemma ClosedFirst(cmds: seq<string>)
    requires cmds != [] && !EndsOpen(cmds[0])
    ensures OnlyLastOpen(cmds) == OnlyLastOpen(cmds[1..])
  {
    if !OnlyLastOpen(cmds) {
      var i :| 0 <= i < |cmds| - 1 && EndsOpen(cmds[i]);
      assert cmds[1..][i - 1] == cmds[i];
    }
  }

  lemma {:induction false} CommandsLength(lines: seq<string>, context: string)
    ensures |Commands(lines, context)| <= |lines|
    decreases lines
  {
    hide Trim, HasAction;
    if lines != [] {
      var line := Trim(lines[0], IsGoSpace);
      CommandsLength(lines[1..], if IsContext(line) then line else context);
    }
  }

  /** Without a context before it, a command that is no context line is emitted unchanged. */
  lemma {:induction false} CommandsOfCommands(cmds: seq<string>)
    requires forall i | 0 <= i < |cmds| :: IsCommand(cmds[i])
    ensures NoContexts(cmds) ==> Commands(cmds, "") == cmds
    ensures !NoContexts(cmds) ==> |Commands(cmds, "")| < |cmds|
    decreases cmds
  {
    hide Trim, HasAction;
    if cmds != [] {
      TrimKeepsCommand(cmds[0]);
      if IsContext(cmds[0]) {
        CommandsLength(cmds[1..], cmds[0]);
      } else {
        CommandsOfCommands(cmds[1..]);
        assert forall i | 0 <= i < |cmds[1..]| :: cmds[1..][i] == cmds[i + 1];
      }
    }
  }

  /** Flattening its own output again changes nothing exactly when every command stands alone. */
  lemma FlattenTwice(config: string)
    ensures var cmds := Flattened(config);
      Flattened(Script(cmds)) == cmds <==> StandAlone(cmds)
  {
    hide IsCommand, Commands, AddLines, IsContext, EndsOpen, Split, Join;
    var cmds := Flattened(config);
    FlattenedCommands(config);
    if cmds == [] {
      NothingToFlatten();
    } else {
      assert NoneHas(cmds, '\n') by { CommandsHaveNoNewline(cmds); }
      SplitJoin(cmds, '\n');
      JoiningCommands([], cmds);
      assert [] + cmds == cmds;
      CommandsLength(Joined(Script(cmds)), "");
      CommandsOfCommands(cmds);
    }
  }

  lemma CommandsHaveNoNewline(cmds: seq<string>)
    requires forall i | 0 <= i < |cmds| :: IsCommand(cmds[i])
    ensures NoneHas(cmds, '\n')
  {
  }

  lemma NothingToFlatten()
    ensures Flattened(Script([])) == []
  {
    assert Split("", '\n') == [""];
    assert AddLine([], "") == [""];
    assert AddLines([""], []) == [""];
  }

  // ----- The condition on the script itself -----

  lemma {:induction false} WordStopsAtSpace(a: string, b: string)
    ensures TakeWord(a + " " + b) == TakeWord(a)
    decreases a
  {
    var s := a + " " + b;
    if a != "" && !IsGoSpace(a[0]) {
      WordStopsAtSpace(a[1..], b);
      assert s[1..] == a[1..] + " " + b;
    } else if a == "" {
      assert s[0] == ' ';
    }
  }

  lemma {:induction false} FieldsOfBoth(a: string, b: string)
    ensures Fields(a + " " + b) == Fields(a) + Fields(b)
    decreases |a|
  {
    var s := a + " " + b;
    if a == "" {
      assert s[1..] == b && Fields(a) + Fields(b) == Fields(b);
    } else if IsGoSpace(a[0]) {
      FieldsOfBoth(a[1..], b);
      assert s[1..] == a[1..] + " " + b;
    } else {
      WordStopsAtSpace(a, b);
      var w := TakeWord(a);
      FieldsOfBoth(a[|w|..], b);
      assert s[|w|..] == a[|w|..] + " " + b;
      assert [w] + (Fields(a[|w|..]) + Fields(b)) == [w] + Fields(a[|w|..]) + Fields(b);
    }
  }

  lemma ActionOfBoth(context: string, line: string)
    ensures HasAction(context + " " + line) <==> HasAction(context) || HasAction(line)
  {
    hide Fields;
    FieldsOfBoth(context, line);
    var f, g, h := Fields(context), Fields(line), Fields(context + " " + line);
    assert forall i | 0 <= i < |g| :: h[|f| + i] == g[i];
    assert forall i | 0 <= i < |f| :: h[i] == f[i];
  }

  /** A line that becomes a command: visible, and neither a comment nor a context line. */
  predicate Emits(line: string) {
    !IsComment(line) && !IsContext(line)
  }

  /** Under a context, every subcommand has one of the four action words. */
  predicate SubcommandsAct(lines: seq<string>, underContext: bool)
    decreases lines
  {
    lines == [] ||
    var line := Trim(lines[0], IsGoSpace);
    && (Emits(line) && underContext && line[0] != '/' ==> HasAction(line))
    && SubcommandsAct(lines[1..], underContext || IsContext(line))
  }

  predicate NoneEmits(lines: seq<string>) {
    forall i | 0 <= i < |lines| :: !Emits(Trim(lines[i], IsGoSpace))
  }

  /** No line that becomes a command ends in a backslash, unless no command follows it. */
  predicate NoStrayBackslash(lines: seq<string>)
    decreases lines
  {
    lines == [] ||
    var line := Trim(lines[0], IsGoSpace);
    (Emits(line) && EndsOpen(line) ==> NoneEmits(lines[1..])) && NoStrayBackslash(lines[1..])
  }

  lemma {:induction false} ActingMeansNoContext(lines: seq<string>, context: string)
    requires context == "" || IsContext(context)
    ensures SubcommandsAct(lines, context != "")
       <==> NoContexts(Commands(lines, context))
    decreases lines
  {
    hide Trim, HasAction;
    if lines != [] {
      var line := Trim(lines[0], IsGoSpace);
      if IsComment(line) {
        assert !IsContext(line);
        ActingMeansNoContext(lines[1..], context);
        assert Commands(lines, context) == Commands(lines[1..], context);
        assert SubcommandsAct(lines, context != "") == SubcommandsAct(lines[1..], context != "");
      } else if IsContext(line) {
        ActingMeansNoContext(lines[1..], line);
        assert Commands(lines, context) == Commands(lines[1..], line);
        assert SubcommandsAct(lines, context != "") == SubcommandsAct(lines[1..], line != "");
      } else {
        ActingMeansNoContext(lines[1..], context);
        ActionOfBoth(context, line);
        HeadAndTail(Commands(lines, context), Commands(lines[1..], context));
      }
    }
  }

  lemma HeadAndTail(cmds: seq<string>, rest: seq<string>)
    requires cmds != [] && cmds[1..] == rest
    ensures NoContexts(cmds) <==> !IsContext(cmds[0]) && NoContexts(rest)
  {
    hide IsContext;
    assert forall i | 0 <= i < |rest| :: rest[i] == cmds[i + 1];
    assert forall i | 0 < i < |cmds| :: cmds[i] == rest[i - 1];
  }

  lemma {:induction false} NoneEmitsNothing(lines: seq<string>, context: string)
    ensures NoneEmits(lines) <==> Commands(lines, context) == []
    decreases lines
  {
    hide Trim, IsContext;
    if lines != [] {
      var line := Trim(lines[0], IsGoSpace);
      NoneEmitsNothing(lines[1..], if IsContext(line) && !IsComment(line) then line else context);
      assert NoneEmits(lines) <==> !Emits(line) && NoneEmits(lines[1..]) by {
        assert forall i | 0 <= i < |lines[1..]| :: lines[1..][i] == lines[i + 1];
        assert forall i | 0 < i < |lines| :: lines[i] == lines[1..][i - 1];
      }
    }
  }

  lemma {:induction false} StrayMeansOpen(lines: seq<string>, context: string)
    ensures NoStrayBackslash(lines) <==> OnlyLastOpen(Commands(lines, context))
    decreases lines
  {
    hide Trim, IsContext;
    if lines != [] {
      var line := Trim(lines[0], IsGoSpace);
      var next := if IsContext(line) && !IsComment(line) then line else context;
      StrayMeansOpen(lines[1..], next);
      NoneEmitsNothing(lines[1..], next);
      if Emits(line) {
        var cmds := Commands(lines, context);
        assert cmds[1..] == Commands(lines[1..], context);
        assert EndsOpen(cmds[0]) == EndsOpen(line);
        OpenHead(cmds);
      }
    }
  }

  lemma OpenHead(cmds: seq<string>)
    requires cmds != []
    ensures OnlyLastOpen(cmds) <==> (EndsOpen(cmds[0]) ==> cmds[1..] == []) && OnlyLastOpen(cmds[1..])
  {
    hide EndsOpen;
    assert forall i | 0 <= i < |cmds[1..]| :: cmds[1..][i] == cmds[i + 1];
    assert forall i | 0 < i < |cmds| :: cmds[i] == cmds[1..][i - 1];
  }

  /** Flattening the newline-joined commands gives the same commands again if and only if, in
      the script, every subcommand under a context has an action word and no line that becomes
      a command ends in a stray backslash. */
  lemma FlattenIdempotentIff(config: string)
    ensures Flattened(Script(Flattened(config))) == Flattened(config)
       <==> SubcommandsAct(Joined(config), false) && NoStrayBackslash(Joined(config))
  {
    hide Commands, AddLines, IsContext, OnlyLastOpen, NoStrayBackslash, SubcommandsAct, Joined, Script;
    FlattenTwice(config);
    ActingMeansNoContext(Joined(config), "");
    StrayMeansOpen(Joined(config), "");
  }

  lemma {:induction false} OneWord(w: string)
    requires w != "" && forall i | 0 <= i < |w| :: !IsGoSpace(w[i])
    ensures TakeWord(w) == w && Fields(w) == [w]
  {
    hide IsGoSpace;
    if |w| > 1 {
      OneWord(w[1..]);
    } else {
      assert TakeWord(w[1..]) == "";
    }
    assert [w[0]] + w[1..] == w;
    assert Fields(w[|w|..]) == [];
  }

  lemma NoActions()
    ensures !HasAction("/a") && !HasAction("/a b")
  {
    hide Fields;
    OneWord("/a");
    OneWord("b");
    FieldsOfBoth("/a", "b");
    assert "/a" + " " + "b" == "/a b";
  }

  lemma TwoLinesJoined()
    ensures Joined("/a\nb") == ["/a", "b"] && Joined("/a b") == ["/a b"]
    ensures forall cmd | cmd in {"/a", "b", "/a b"} :: Trim(cmd, IsGoSpace) == cmd
  {
    hide Trim, TrimEnd, Split, AddLines, OnlyLastOpen, IsCommand;
    TwoCommands();
    assert "/a\nb" == "/a" + ['\n'] + "b";
    SplitOff("/a", '\n', "b");
    SplitWhole("b", '\n');
    SplitWhole("/a b", '\n');
    TrimKeepsCommand("/a");
    TrimKeepsCommand("b");
    TrimKeepsCommand("/a b");
    JoiningCommands([], ["/a", "b"]);
    JoiningCommands([], ["/a b"]);
    assert [] + ["/a", "b"] == ["/a", "b"] && [] + ["/a b"] == ["/a b"];
    assert ["/a"] + ["b"] == ["/a", "b"];
  }

  lemma TwoCommands()
    ensures IsCommand("/a") && IsCommand("b") && IsCommand("/a b")
    ensures OnlyLastOpen(["/a", "b"]) && OnlyLastOpen(["/a b"])
  {
  }

  /** A subcommand without an action word: its command is taken for a context the second time. */
  lemma SecondFlatteningDiffers()
    ensures Flattened("/a\nb") == ["/a b"] && Flattened(Script(["/a b"])) == []
  {
    hide HasAction, Trim, Joined, Commands;
    TwoLinesJoined();
    NoActions();
    NoLines("/a");
    NoLines("/a b");
    CommandsFrom(["/a", "b"], 0, "");
    CommandsFrom(["/a", "b"], 1, "/a");
    CommandsFrom(["/a b"], 0, "");
    assert ["/a", "b"][0..] == ["/a", "b"] && ["/a", "b"][2..] == [];
    assert ["/a b"][0..] == ["/a b"] && ["/a b"][1..] == [];
    assert "/a" + " " + "b" == "/a b";
  }

  lemma NoLines(context: string)
    ensures Commands([], context) == []
  {
  }
}
