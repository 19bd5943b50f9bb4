/** Which command each line of a RouterOS script becomes, line by line and without a running context
    (worker/internal/clab/startup_config.go). */
module ScriptContexts {
  import opened Text
  import opened RouterScript

  // ----- Action words -----

  predicate IsWord(w: string) {
    w != "" && forall i | 0 <= i < |w| :: !IsGoSpace(w[i])
  }

  lemma WordActs(w: string)
    requires IsWord(w)
    ensures HasAction(w) <==> w in {"add", "set", "remove", "print"}
  {
    hide Fields, IsGoSpace;
    OneWord(w);
    assert Fields(w)[0] == w;
  }

  /** A line of words, one blank apart, acts exactly when one of its words is an action word. */
  lemma {:induction false} WordsAct(words: seq<string>)
    requires forall i | 0 <= i < |words| :: IsWord(words[i])
    ensures HasAction(Join(words, ' '))
       <==> exists i :: 0 <= i < |words| && words[i] in {"add", "set", "remove", "print"}
  {
    hide IsWord, HasAction;
    if words == [] {
      NothingActs();
    } else if |words| == 1 {
      WordActs(words[0]);
    } else {
      var rest := words[1..];
      assert forall i | 0 <= i < |rest| :: rest[i] == words[i + 1];
      WordsAct(rest);
      WordActs(words[0]);
      ActionOfBoth(words[0], Join(rest, ' '));
      assert Join(words, ' ') == words[0] + " " + Join(rest, ' ');
      if i :| 0 <= i < |words| && words[i] in {"add", "set", "remove", "print"} {
        assert i > 0 ==> rest[i - 1] == words[i];
      }
    }
  }

  lemma NothingActs()
    ensures !HasAction("")
  {
  }

  // ----- The nearest context -----

  predicate SetsContext(line: string) {
    line != "" && line[0] == '/' && !HasAction(line)
  }

  /** The last context line, or what was in force before if there is none. */
  function NearestContext(lines: seq<string>, before: string): string {
    if lines == [] then before
    else
      var last := Trim(lines[|lines| - 1], IsGoSpace);
      if SetsContext(last) then last else NearestContext(lines[..|lines| - 1], before)
  }

  /** What the line after these becomes: nothing for a blank line, a comment or a context; itself if it
      starts with a slash or no context precedes it; otherwise itself behind the nearest context. */
  function CommandAfter(lines: seq<string>, raw: string, before: string): seq<string> {
    var line := Trim(raw, IsGoSpace);
    if line == "" || line[0] == '#' || SetsContext(line) then []
    else if line[0] == '/' || NearestContext(lines, before) == "" then [line]
    else [NearestContext(lines, before) + " " + line]
  }

  function LineByLine(lines: seq<string>, before: string): seq<string> {
    if lines == [] then []
    else
      var init := lines[..|lines| - 1];
      LineByLine(init, before) + CommandAfter(init, lines[|lines| - 1], before)
  }

  lemma {:induction false} OneMoreLine(lines: seq<string>, raw: string, before: string)
    ensures Commands(lines + [raw], before) == Commands(lines, before) + CommandAfter(lines, raw, before)
    decreases lines
  {
    hide Trim, HasAction;
    if lines == [] {
      assert lines + [raw] == [raw] && [raw][1..] == [];
    } else {
      var line := Trim(lines[0], IsGoSpace);
      var now := if SetsContext(line) then line else before;
      assert (lines + [raw])[1..] == lines[1..] + [raw];
      OneMoreLine(lines[1..], raw, now);
      ContextFromFirst(lines, before);
      if !IsComment(line) && !SetsContext(line) {
        var cmd := if line[0] == '/' || before == "" then line else before + " " + line;
        Assoc([cmd], Commands(lines[1..], before), CommandAfter(lines, raw, before));
      }
    }
  }

  lemma {:induction false} ContextFromFirst(lines: seq<string>, before: string)
    requires lines != []
    ensures var line := Trim(lines[0], IsGoSpace);
      NearestContext(lines, before) == NearestContext(lines[1..], if SetsContext(line) then line else before)
    decreases lines
  {
    hide Trim, SetsContext;
    if |lines| > 1 {
      var init := lines[..|lines| - 1];
      ContextFromFirst(init, before);
      assert lines[1..][..|lines[1..]| - 1] == init[1..];
    } else {
      assert lines[..0] == [] && lines[1..] == [];
    }
  }

  lemma {:induction false} CommandsLineByLine(lines: seq<string>, before: string)
    ensures Commands(lines, before) == LineByLine(lines, before)
  {
    hide CommandAfter;
    if lines == [] {
      NoLines(before);
    } else {
      hide Commands;
      var init := lines[..|lines| - 1];
      CommandsLineByLine(init, before);
      OneMoreLine(init, lines[|lines| - 1], before);
      assert init + [lines[|lines| - 1]] == lines;
    }
  }

  /** The running context of the loop is the nearest context line above: each command can be told from
      the lines above it alone. */
  lemma FlattenLineByLine(config: string)
    ensures Flattened(config) == LineByLine(Joined(config), "")
  {
    hide Commands, LineByLine, Joined;
    CommandsLineByLine(Joined(config), "");
  }
}
