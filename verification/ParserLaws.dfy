/** How the scanner treats each kind of line, in any text, printed by the builder or not
    (frontend/app/src/lib/yaml-parser.ts). */
module ParserLaws {
  import opened Text
  import opened TopologyParser
  import opened TopologyRoundTrip

  predicate IsPad(pad: string) {
    forall i | 0 <= i < |pad| :: pad[i] == ' '
  }

  /** A word no white space splits, and that no comment sign starts. */
  predicate IsKeyWord(w: string) {
    w != "" && w[0] != '#' && Free(w, IsJsSpace)
  }

  predicate IsPropertyWord(w: string) {
    w in {"kind", "image", "binds", "exec", "ports", "env", "labels", "network-mode", "cmd", "entrypoint", "user",
          "group", "startup-config", "startup-delay", "enforce-startup-config", "auto-remove", "publish", "memory",
          "cpu", "cpu-set", "runtime", "extras", "config", "type", "license", "mgmt-ipv4", "mgmt-ipv6", "dns"}
  }

  predicate IsBlankOrComment(line: string) {
    Trim(line, IsJsSpace) == "" || Trim(line, IsJsSpace)[0] == '#'
  }

  lemma PaddedLine(pad: string, body: string)
    requires IsPad(pad) && body != "" && !IsJsSpace(body[0]) && body[0] != '#'
    ensures !IsSkipped(pad + body) && Indent(pad + body) == |pad|
  {
    hide IsSkipped, Indent;
    assert IsJsSpace(' ');
    IndentedLine(pad, body);
  }

  lemma KeyLine(pad: string, w: string)
    requires IsPad(pad) && pad != "" && IsKeyWord(w)
    ensures !IsSkipped(pad + w + ":") && Indent(pad + w + ":") == |pad| && NameOnLine(pad + w + ":") == Some(w)
  {
    hide IsJsSpace, TrimEnd, TrimStart, IsSkipped, Indent, Trim;
    var body := w + ":";
    assert pad + w + ":" == pad + body && body[..|body| - 1] == w;
    PaddedLine(pad, body);
    TrimmedKey(pad, w);
  }

  lemma TrimmedKey(pad: string, w: string)
    requires IsPad(pad) && IsKeyWord(w)
    ensures Trim(pad + (w + ":"), IsJsSpace) == w + ":"
  {
    hide IsJsSpace, TrimEnd, TrimStart;
    ColonIsVisible();
    var body := w + ":";
    assert forall i | 0 <= i < |pad| :: IsJsSpace(pad[i]);
    TrimStartSpaces(pad, body, IsJsSpace);
    TrimEndSuffix(body, "", IsJsSpace);
    assert body + "" == body;
  }

  lemma ColonIsVisible()
    ensures IsJsSpace(' ') && !IsJsSpace(':')
  {
  }

  // ----- The cases of the scan -----

  /** A blank line or a comment is as if it were not there. */
  lemma {:induction false} CommentsIgnored(a: seq<string>, c: string, b: seq<string>, ni: int, mi: int,
                                           current: Option<ParsedNode>)
    requires IsBlankOrComment(c)
    ensures ScanNodes(a + [c] + b, ni, mi, current) == ScanNodes(a + b, ni, mi, current)
    decreases a
  {
    hide Trim, Token, NameOnLine, Indent;
    if a == [] {
      assert a + [c] + b == [c] + b && a + b == b && ([c] + b)[1..] == b;
    } else {
      var line, rest := a[0], a[1..];
      assert (a + [c] + b)[1..] == rest + [c] + b && (a + b)[1..] == rest + b;
      var m := NameOnLine(line);
      if m.Some? {
        CommentsIgnored(rest, c, b, ni, mi, Some(ParsedNode(m.value, "linux", "", [])));
      }
      if current.Some? {
        CommentsIgnored(rest, c, b, ni, mi, Some(WithProperties(current.value, line)));
      }
      CommentsIgnored(rest, c, b, ni, mi, current);
    }
  }

  /** A name on the level of the names opens a node of kind linux without an image, and closes the one
      before; a property word there opens none. */
  lemma NameOpensNode(pad: string, w: string, rest: seq<string>, ni: int, open: Option<ParsedNode>)
    requires IsPad(pad) && |pad| > ni && pad != "" && IsKeyWord(w)
    ensures ScanNodes([pad + w + ":"] + rest, ni, |pad|, open)
         == if IsPropertyWord(w) then ScanNodes(rest, ni, |pad|, open)
            else (if open.Some? then [open.value] else [])
                 + ScanNodes(rest, ni, |pad|, Some(ParsedNode(w, "linux", "", [])))
  {
    hide IsSkipped, Indent, NameOnLine, IsKeyWord;
    KeyLine(pad, w);
    assert ([pad + w + ":"] + rest)[1..] == rest;
  }

  /** A deeper line changes the open node's kind or image if it gives one, and nothing else. */
  lemma PropertyLine(pad: string, body: string, rest: seq<string>, ni: int, mi: int, n: ParsedNode)
    requires IsPad(pad) && |pad| > mi > ni && body != "" && !IsJsSpace(body[0]) && body[0] != '#'
    ensures var k, m := Token(pad + body, "kind:"), Token(pad + body, "image:");
      ScanNodes([pad + body] + rest, ni, mi, Some(n))
      == ScanNodes(rest, ni, mi, Some(ParsedNode(n.name, if k.Some? then k.value else n.kind,
                                                 if m.Some? then m.value else n.image, n.interfaces)))
  {
    hide IsSkipped, Indent, NameOnLine, Token;
    PaddedLine(pad, body);
    assert ([pad + body] + rest)[1..] == rest;
  }

  /** A key's value is the word after it, whatever indentation precedes it. */
  lemma KeyGives(pad: string, key: string, word: string)
    requires IsPad(pad) && pad != "" && key in {"kind:", "image:"} && Free(word, IsJsSpace)
    ensures Token(pad + (key + " " + word), key) == if word == "" then None else Some(word)
  {
    hide Token, Contains;
    KeyFound(pad, key, word);
  }

  /** A deeper line before the first name is ignored, and so is a line between the two levels. */
  lemma StrayLine(pad: string, body: string, rest: seq<string>, ni: int, mi: int, open: Option<ParsedNode>)
    requires IsPad(pad) && ni < |pad| && body != "" && !IsJsSpace(body[0]) && body[0] != '#'
    requires |pad| < mi || (|pad| > mi && open.None?)
    ensures ScanNodes([pad + body] + rest, ni, mi, open) == ScanNodes(rest, ni, mi, open)
  {
    hide IsSkipped, Indent, NameOnLine, Token;
    PaddedLine(pad, body);
    assert ([pad + body] + rest)[1..] == rest;
  }

  /** A line no deeper than `nodes:` ends the block, whatever follows. */
  lemma BlockEnds(pad: string, body: string, rest: seq<string>, ni: int, mi: int, open: Option<ParsedNode>)
    requires IsPad(pad) && |pad| <= ni && body != "" && !IsJsSpace(body[0]) && body[0] != '#'
    ensures ScanNodes([pad + body] + rest, ni, mi, open) == if open.Some? then [open.value] else []
    ensures ScanNodes([], ni, mi, open) == if open.Some? then [open.value] else []
  {
    hide IsSkipped, Indent, NameOnLine, Token;
    PaddedLine(pad, body);
  }

  // ----- Links -----

  /** Of an endpoint only the first two parts count, and without a second part there is no link. */
  lemma EndParts(node: string, iface: string, more: string)
    requires ':' !in node && ':' !in iface
    ensures EndOf(node) == LinkEnd(node, "")
    ensures EndOf(node + ":" + iface) == EndOf(node + ":" + (iface + ":" + more)) == LinkEnd(node, iface)
  {
    SplitWhole(node, ':');
    SplitWhole(iface, ':');
    SplitOff(iface, ':', more);
    SplitOff(node, ':', iface);
    SplitOff(node, ':', iface + ":" + more);
    assert node + ":" + iface == node + [':'] + iface && iface + ":" + more == iface + [':'] + more;
    assert node + ":" + (iface + ":" + more) == node + [':'] + (iface + ":" + more);
  }

  /** A link needs all four parts. */
  lemma LinkNeedsAllParts(p: Endpoints)
    ensures var a, b := EndOf(p.a), EndOf(p.b);
      LinksOf([p]) == if a.node != "" && a.iface != "" && b.node != "" && b.iface != "" then [ParsedLink(a, b)] else []
  {
    hide EndOf;
    assert [p][1..] == [];
  }

  /** White space after the key and between the two texts makes no difference. */
  lemma SpacingIgnored(ws: string, gap: string, a: string, b: string, rest: string)
    requires (forall i | 0 <= i < |ws| :: IsJsSpace(ws[i])) && forall i | 0 <= i < |gap| :: IsJsSpace(gap[i])
    requires a != "" && '"' !in a && b != "" && '"' !in b
    ensures var second := "," + (gap + ("\"" + (b + "\"" + ("]" + rest))));
      EndpointPairs("endpoints:" + (ws + ("[\"" + (a + "\"" + second)))) == [Endpoints(a, b)] + EndpointPairs(rest)
  {
    hide MatchSecond, IsJsSpace, EndpointPairs, MatchEndpoints;
    var second := "," + (gap + ("\"" + (b + "\"" + ("]" + rest))));
    SecondAfterGap(gap, b, rest);
    FirstAfterSpace(ws, a, b, second, rest);
    PairsFromMatch("endpoints:" + (ws + ("[\"" + (a + "\"" + second))), Endpoints(a, b), rest);
  }

  lemma FirstAfterSpace(ws: string, a: string, b: string, second: string, rest: string)
    requires forall i | 0 <= i < |ws| :: IsJsSpace(ws[i])
    requires a != "" && '"' !in a && MatchSecond(second) == Some((b, rest))
    ensures MatchEndpoints("endpoints:" + (ws + ("[\"" + (a + "\"" + second)))) == Some((Endpoints(a, b), rest))
  {
    hide TakeQuoted, MatchSecond, IsJsSpace, TrimStart;
    var t := "[\"" + (a + "\"" + second);
    var s := "endpoints:" + (ws + t);
    assert "endpoints:" <= s && s[10..] == ws + t;
    assert "[\"" <= t && t[2..] == a + "\"" + second;
    BracketIsVisible();
    TrimStartSpaces(ws, t, IsJsSpace);
    QuotedRun(a, second);
  }

  lemma BracketIsVisible()
    ensures !IsJsSpace('[') && !IsJsSpace('"')
  {
  }

  lemma PairsFromMatch(s: string, p: Endpoints, rest: string)
    requires s != "" && MatchEndpoints(s) == Some((p, rest))
    ensures EndpointPairs(s) == [p] + EndpointPairs(rest)
  {
    hide MatchEndpoints;
  }

  lemma SecondAfterGap(gap: string, b: string, rest: string)
    requires forall i | 0 <= i < |gap| :: IsJsSpace(gap[i])
    requires b != "" && '"' !in b
    ensures MatchSecond("," + (gap + ("\"" + (b + "\"" + ("]" + rest))))) == Some((b, rest))
  {
    hide TakeQuoted, IsJsSpace;
    var t := "\"" + (b + "\"" + ("]" + rest));
    var s := "," + (gap + t);
    assert s[1..] == gap + t && t[1..] == b + "\"" + ("]" + rest);
    BracketIsVisible();
    TrimStartSpaces(gap, t, IsJsSpace);
    QuotedRun(b, "]" + rest);
    assert ("]" + rest)[1..] == rest;
  }

  // ----- The name -----

  /** Lines that do not start with the key are passed over. */
  lemma {:induction false} OtherLinesPassed(line: string, rest: string, atStart: bool)
    requires Free(line, IsLineEnd) && (atStart ==> !("name:" <= line))
    ensures NameFrom(line + "\n" + rest, atStart) == NameFrom(rest, true)
    decreases line
  {
    hide TakeLine, Trim;
    var s := line + "\n" + rest;
    assert IsLineEnd('\n');
    if line == "" {
      assert s[0] == '\n' && s[1..] == rest;
    } else {
      assert s[0] == line[0] && s[1..] == line[1..] + "\n" + rest;
      if atStart && "name:" <= s {
        KeyWithinLine(line, rest);
      }
      OtherLinesPassed(line[1..], rest, false);
    }
  }

  lemma KeyWithinLine(line: string, rest: string)
    requires "name:" <= line + "\n" + rest
    ensures "name:" <= line
  {
    var s, key := line + "\n" + rest, "name:";
    assert s[|line|] == '\n';
    assert forall k | 0 <= k < 5 :: s[k] == key[k] != '\n';
    assert s[..5] == line[..5];
  }

  // ----- Comments anywhere -----

  lemma CommentIsNoNodesLine(c: string)
    requires IsBlankOrComment(c)
    ensures !IsNodesLine(c) && IsSkipped(c)
  {
    hide IsJsSpace;
    var body := SkipSpaces(c);
    if "nodes:" <= body {
      assert !IsJsSpace(body[0]);
      TrimEndKeepsFirst(body);
    }
  }

  lemma {:induction false} NodesLineWith(a: seq<string>, c: string, b: seq<string>)
    requires IsBlankOrComment(c)
    ensures NodesLine(a + [c] + b) == if NodesLine(a) < |a| then NodesLine(a) else |a| + 1 + NodesLine(b)
    ensures NodesLine(a + b) == if NodesLine(a) < |a| then NodesLine(a) else |a| + NodesLine(b)
    decreases a
  {
    hide IsNodesLine, IsBlankOrComment;
    CommentIsNoNodesLine(c);
    if a == [] {
      assert a + [c] + b == [c] + b && a + b == b && ([c] + b)[1..] == b;
    } else {
      NodesLineWith(a[1..], c, b);
      assert (a + [c] + b)[1..] == a[1..] + [c] + b && (a + b)[1..] == a[1..] + b;
    }
  }

  lemma NameIndentStep(line: string, rest: seq<string>, ni: int)
    ensures NodeNameIndent([line] + rest, ni)
         == if IsSkipped(line) then NodeNameIndent(rest, ni) else if Indent(line) <= ni then -1 else Indent(line)
  {
    hide Indent, IsSkipped;
    assert ([line] + rest)[1..] == rest;
  }

  lemma {:induction false} NameIndentWith(a: seq<string>, c: string, b: seq<string>, ni: int)
    requires IsBlankOrComment(c)
    ensures NodeNameIndent(a + ([c] + b), ni) == NodeNameIndent(a + b, ni)
    decreases a
  {
    hide Indent, IsBlankOrComment, IsSkipped, NodeNameIndent;
    CommentIsNoNodesLine(c);
    if a == [] {
      assert a + ([c] + b) == [c] + b && a + b == b;
      NameIndentStep(c, b, ni);
    } else {
      var first, rest := a[0], a[1..];
      NameIndentWith(rest, c, b, ni);
      assert a == [first] + rest;
      Assoc([first], rest, [c] + b);
      Assoc([first], rest, b);
      NameIndentStep(first, rest + ([c] + b), ni);
      NameIndentStep(first, rest + b, ni);
    }
  }

  /** A blank line or a comment anywhere in a text changes no node. */
  lemma CommentsChangeNoNode(a: seq<string>, c: string, b: seq<string>)
    requires IsBlankOrComment(c)
    ensures NodesOf(a + [c] + b) == NodesOf(a + b)
  {
    hide Indent, IsBlankOrComment, ScanNodes, NodeNameIndent, NodesLine;
    NodesLineWith(a, c, b);
    var n := NodesLine(a);
    if n < |a| {
      var rest := a[n + 1..];
      assert (a + [c] + b)[n] == a[n] == (a + b)[n];
      assert (a + [c] + b)[n + 1..] == rest + [c] + b && (a + b)[n + 1..] == rest + b;
      Assoc(rest, [c], b);
      NameIndentWith(rest, c, b, Indent(a[n]));
      var mi := NodeNameIndent(rest + b, Indent(a[n]));
      CommentsIgnored(rest, c, b, Indent(a[n]), mi, None);
    } else {
      var k := NodesLine(b);
      if k < |b| {
        assert (a + [c] + b)[|a| + 1 + k] == b[k] == (a + b)[|a| + k];
        assert (a + [c] + b)[|a| + 1 + k + 1..] == b[k + 1..] == (a + b)[|a| + k + 1..];
      }
    }
  }
}
