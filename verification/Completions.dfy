/** Tab completion of shell commands (frontend/app/src/lib/completions.ts). Case is ignored
    through a per-character map `low`, whatever map that is. */
module Completions {
  import opened Text

  function Lower(s: string, low: char -> char): (r: string)
    ensures |r| == |s| && forall i | 0 <= i < |s| :: r[i] == low(s[i])
  {
    if s == "" then "" else [low(s[0])] + Lower(s[1..], low)
  }

  /** c starts with p, case ignored. */
  predicate Extends(c: string, p: string, low: char -> char) {
    Lower(p, low) <= Lower(c, low)
  }

  function Matching(dict: seq<string>, p: string, low: char -> char): (r: seq<string>)
    ensures forall c :: c in r <==> c in dict && Extends(c, p, low)
  {
    if dict == [] then []
    else (if Extends(dict[0], p, low) then [dict[0]] else []) + Matching(dict[1..], p, low)
  }

  /** Every candidate starts with t, case ignored. */
  predicate CommonTo(t: string, candidates: seq<string>, low: char -> char) {
    forall c | c in candidates :: Extends(c, t, low)
  }

  /** No text longer than n is common to all candidates. */
  ghost predicate NoLonger(n: int, candidates: seq<string>, low: char -> char) {
    forall t :: CommonTo(t, candidates, low) ==> |t| <= n
  }

  /** The completed text and the candidates. With two or more candidates the text extends the
      trimmed input, is common to all of them, and no longer text is. */
  method GetCompletions(input: string, dict: seq<string>, low: char -> char)
    returns (completed: string, candidates: seq<string>)
    ensures var trimmed := TrimStart(input, IsJsSpace);
      && candidates == (if trimmed == "" then [] else Matching(dict, trimmed, low))
      && (|candidates| == 0 ==> completed == input)
      && (|candidates| == 1 ==> completed == candidates[0] + " ")
      && (|candidates| >= 2 ==>
            && Extends(completed, trimmed, low)
            && CommonTo(completed, candidates, low)
            && NoLonger(|completed|, candidates, low))
  {
    hide Extends, CommonTo, NoLonger, TrimStart, Lower, IsJsSpace;
    var trimmed := TrimStart(input, IsJsSpace);
    if trimmed == "" {
      return input, [];
    }
    var matches := Matching(dict, trimmed, low);
    if |matches| == 0 {
      return input, [];
    }
    if |matches| == 1 {
      return matches[0] + " ", matches;
    }
    var prefix := LongestCommonPrefix(matches, low);
    completed := if |prefix| > |trimmed| then prefix else trimmed;
    PrefixReachesInput(matches, trimmed, prefix, low);
    candidates := matches;
  }

  lemma PrefixReachesInput(matches: seq<string>, trimmed: string, prefix: string, low: char -> char)
    requires |matches| >= 1 && CommonTo(prefix, matches, low) && NoLonger(|prefix|, matches, low)
    requires forall c | c in matches :: Extends(c, trimmed, low)
    ensures var completed := if |prefix| > |trimmed| then prefix else trimmed;
      && Extends(completed, trimmed, low) && CommonTo(completed, matches, low) && NoLonger(|completed|, matches, low)
  {
    assert CommonTo(trimmed, matches, low);
    assert Extends(matches[0], prefix, low) && Extends(matches[0], trimmed, low);
  }

  /** The two nested loops: the prefix shrinks until the next match starts with it. */
  method LongestCommonPrefix(matches: seq<string>, low: char -> char) returns (prefix: string)
    requires |matches| >= 1
    ensures CommonTo(prefix, matches, low) && NoLonger(|prefix|, matches, low)
  {
    hide Extends, NoLonger, Lower;
    prefix := matches[0];
    FirstIsLongest(matches, low);
    for i := 1 to |matches|
      invariant prefix <= matches[0] && NoLonger(|prefix|, matches, low)
      invariant forall j | 0 <= j < i :: Extends(matches[j], prefix, low)
    {
      while !Extends(matches[i], prefix, low)
        invariant prefix <= matches[0] && NoLonger(|prefix|, matches, low)
        invariant forall j | 0 <= j < i :: Extends(matches[j], prefix, low)
        decreases |prefix|
      {
        NoneAsLong(matches, i, prefix, low);
        forall j | 0 <= j < i ensures Extends(matches[j], prefix[..|prefix| - 1], low) {
          ShorterStillExtends(matches[j], prefix, low);
        }
        prefix := prefix[..|prefix| - 1];
      }
    }
  }

  lemma FirstIsLongest(matches: seq<string>, low: char -> char)
    requires |matches| >= 1
    ensures NoLonger(|matches[0]|, matches, low) && Extends(matches[0], matches[0], low)
  {
    forall t | CommonTo(t, matches, low) ensures |t| <= |matches[0]| {
      assert Extends(matches[0], t, low);
    }
  }

  lemma ShorterStillExtends(c: string, prefix: string, low: char -> char)
    requires prefix != "" && Extends(c, prefix, low)
    ensures Extends(c, prefix[..|prefix| - 1], low)
  {
  }

  /** A common text as long as a prefix of the first match would be that prefix. */
  lemma NoneAsLong(matches: seq<string>, i: nat, prefix: string, low: char -> char)
    requires i < |matches| && prefix <= matches[0] && !Extends(matches[i], prefix, low)
    requires NoLonger(|prefix|, matches, low)
    ensures prefix != "" && NoLonger(|prefix| - 1, matches, low)
  {
    forall t | CommonTo(t, matches, low) ensures |t| < |prefix| {
      assert Extends(matches[0], t, low) && Extends(matches[i], t, low);
      SameLengthSameText(t, prefix, matches[0], low);
    }
  }

  lemma SameLengthSameText(t: string, prefix: string, c: string, low: char -> char)
    requires Extends(c, t, low) && prefix <= c
    ensures |t| == |prefix| ==> Lower(t, low) == Lower(prefix, low)
  {
  }
}
