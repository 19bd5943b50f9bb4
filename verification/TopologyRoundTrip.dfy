/** Parsing the builder's printed text gives the builder's topology back. */
module TopologyRoundTrip {
  import opened Text
  import opened TopologyPrinter
  import opened TopologyParser

  // ----- What can be printed and read back -----

  /** A node name: visible, one word, no colon or quote, not a comment, not a property word. */
  predicate GoodName(name: string) {
    && name != "" && Free(name, IsJsSpace) && ':' !in name && '"' !in name
    && name[0] != '#' && name !in NODE_PROPERTIES
  }

  /** Free text that neither ends a line nor holds one of the keys the parser looks for. */
  predicate GoodCommand(cmd: string) {
    '\n' !in cmd && Token(cmd, "kind:").None? && Token(cmd, "image:").None? && !Contains(cmd, "endpoints:")
  }

  predicate GoodNode(n: BuilderNode) {
    && GoodName(n.name)
    && n.clabKind != "" && Free(n.clabKind, IsJsSpace) && !Contains(n.clabKind, "endpoints:")
    && Free(n.dockerImage, IsJsSpace) && !Contains(n.dockerImage, "endpoints:")
    && Token(n.dockerImage, "kind:").None?
    && (n.dockerImage == "" ==> Token(n.clabKind, "image:").None?)
    && forall i | 0 <= i < |n.exec| :: GoodCommand(n.exec[i])
  }

  predicate GoodInterface(iface: string) {
    iface != "" && ':' !in iface && '"' !in iface
  }

  predicate Printable(state: BuilderState) {
    && Free(state.name, IsLineEnd) && (state.name != "" ==> SkipSpaces(state.name) != "")
    && !Contains(state.name, "endpoints:")
    && (forall i | 0 <= i < |state.nodes| :: GoodNode(state.nodes[i]))
    && (forall i, j | 0 <= i < j < |state.nodes| :: state.nodes[i].name != state.nodes[j].name)
    && (forall i | 0 <= i < |state.links| ::
          GoodInterface(state.links[i].sourceIface) && GoodInterface(state.links[i].targetIface))
  }

  // ----- What must come back -----

  /** The links whose two ids name nodes, in order. */
  function ResolvedLinks(nodes: seq<BuilderNode>, links: seq<BuilderLink>): seq<ParsedLink> {
    if links == [] then []
    else
      var l := links[0];
      var src, tgt := FindById(nodes, l.sourceNodeId), FindById(nodes, l.targetNodeId);
      (if src.Some? && tgt.Some? then
         [ParsedLink(LinkEnd(src.value.name, l.sourceIface), LinkEnd(tgt.value.name, l.targetIface))]
       else [])
      + ResolvedLinks(nodes, links[1..])
  }

  /** Every use of an interface of the named node, in link order. */
  function Uses(links: seq<ParsedLink>, name: string): seq<string> {
    if links == [] then []
    else UsesOfEnd(links[0].a, name) + UsesOfEnd(links[0].b, name) + Uses(links[1..], name)
  }

  function UsesOfEnd(end: LinkEnd, name: string): seq<string> {
    if end.node == name then [end.iface] else []
  }

  /** The distinct elements of s in the order of their first occurrence. */
  function FirstUses(s: seq<string>): (r: seq<string>)
    ensures forall x :: x in r <==> x in s
    ensures forall i, j | 0 <= i < j < |r| :: r[i] != r[j]
  {
    if s == [] then []
    else
      var r := FirstUses(s[..|s| - 1]);
      if s[|s| - 1] in r then r else r + [s[|s| - 1]]
  }

  function BareNodes(nodes: seq<BuilderNode>): (r: seq<ParsedNode>)
    ensures |r| == |nodes|
    ensures forall i | 0 <= i < |nodes| ::
              r[i] == ParsedNode(nodes[i].name, nodes[i].clabKind, nodes[i].dockerImage, [])
  {
    if nodes == [] then []
    else [ParsedNode(nodes[0].name, nodes[0].clabKind, nodes[0].dockerImage, [])] + BareNodes(nodes[1..])
  }

  // ----- The node block -----

  lemma IndentedLine(pad: string, body: string)
    requires forall i | 0 <= i < |pad| :: IsJsSpace(pad[i])
    requires body != "" && !IsJsSpace(body[0]) && body[0] != '#'
    ensures SkipSpaces(pad + body) == body && Indent(pad + body) == |pad| && !IsSkipped(pad + body)
  {
    TrimStartSpaces(pad, body, IsJsSpace);
    TrimEndKeepsFirst(body);
  }

  lemma {:induction false} TrimEndKeepsFirst(body: string)
    requires body != "" && !IsJsSpace(body[0])
    ensures TrimEnd(body, IsJsSpace) != "" && TrimEnd(body, IsJsSpace)[0] == body[0]
    decreases body
  {
    if IsJsSpace(body[|body| - 1]) {
      TrimEndKeepsFirst(body[..|body| - 1]);
    }
  }

  lemma NameLineScans(name: string)
    requires GoodName(name)
    ensures !IsSkipped(NameLine(name)) && Indent(NameLine(name)) == 4
    ensures NameOnLine(NameLine(name)) == Some(name)
  {
    var body := name + ":";
    assert NameLine(name) == "    " + body;
    IndentedLine("    ", body);
    TrimEndSuffix(body, "", IsJsSpace);
    assert body + "" == body;
    assert body[..|body| - 1] == name;
  }

  /** The key of a property line is found where it was printed. */
  lemma {:induction false} TokenAfterPad(pad: string, rest: string, key: string)
    requires pad != "" && key != "" && pad[|pad| - 1] !in key && !Contains(pad, key)
    ensures Token(pad + rest, key) == Token(rest, key)
    decreases pad
  {
    var s := pad + rest;
    assert |pad| < |key| ==> s[|pad| - 1] != key[|pad| - 1];
    assert |key| <= |pad| ==> s[..|key|] == pad[..|key|];
    assert |key| > 0 && s[|pad| - 1] == pad[|pad| - 1];
    assert s[1..] == pad[1..] + rest;
    if |pad| == 1 {
      assert s[1..] == rest;
    } else {
      TokenAfterPad(pad[1..], rest, key);
    }
  }

  lemma {:induction false} NoToken(s: string, key: string)
    requires !Contains(s, key)
    ensures Token(s, key).None?
  {
    if s != "" {
      NoToken(s[1..], key);
    }
  }

  lemma {:induction false} WholeWord(w: string)
    requires Free(w, IsJsSpace)
    ensures TakeWord(w) == w
  {
    if w != "" {
      WholeWord(w[1..]);
    }
  }

  lemma KeyFound(pad: string, key: string, word: string)
    requires pad != "" && (forall i | 0 <= i < |pad| :: pad[i] == ' ')
    requires key != "" && ' ' !in key && Free(word, IsJsSpace)
    ensures Token(pad + (key + " " + word), key) == if word == "" then None else Some(word)
  {
    var body := key + " " + word;
    LacksChar(pad, key, key[0]);
    TokenAfterPad(pad, body, key);
    assert key <= body && body[|key|..] == " " + word;
    if word != "" {
      TrimStartSpaces(" ", word, IsJsSpace);
      WholeWord(word);
    }
  }

  lemma KindLineScans(kind: string)
    requires kind != "" && Free(kind, IsJsSpace)
    ensures !IsSkipped(KIND_LINE + kind) && Indent(KIND_LINE + kind) == 6
    ensures Token(KIND_LINE + kind, "kind:") == Some(kind)
    ensures Token(KIND_LINE + kind, "image:") == Token(kind, "image:")
  {
    hide Token, TakeWord, IsSkipped, Indent, Contains;
    assert KIND_LINE + kind == "      " + ("kind:" + " " + kind);
    IndentedLine("      ", "kind:" + " " + kind);
    KeyFound("      ", "kind:", kind);
    NoKey(KIND_LINE, "image:", 'm', kind) by { assert "image:"[1] == 'm'; }
  }

  lemma NoKey(pad: string, key: string, c: char, rest: string)
    requires pad != "" && key != "" && pad[|pad| - 1] !in key
    requires c in key && c !in pad
    ensures Token(pad + rest, key) == Token(rest, key)
  {
    LacksChar(pad, key, c);
    TokenAfterPad(pad, rest, key);
  }

  lemma ImageLineScans(image: string)
    requires Free(image, IsJsSpace)
    ensures !IsSkipped(IMAGE_LINE + image) && Indent(IMAGE_LINE + image) == 6
    ensures Token(IMAGE_LINE + image, "image:") == if image == "" then None else Some(image)
    ensures Token(IMAGE_LINE + image, "kind:") == Token(image, "kind:")
  {
    hide Token, TakeWord, IsSkipped, Indent, Contains;
    assert IMAGE_LINE + image == "      " + ("image:" + " " + image);
    IndentedLine("      ", "image:" + " " + image);
    KeyFound("      ", "image:", image);
    NoKey(IMAGE_LINE, "kind:", 'k', image) by { assert "kind:"[0] == 'k'; }
  }

  /** A line the parser reads inside a node without learning anything. */
  predicate Inert(line: string) {
    && '\n' !in line && !IsSkipped(line) && Indent(line) > 4
    && Token(line, "kind:").None? && Token(line, "image:").None? && !Contains(line, "endpoints:")
  }

  lemma HeadingInert(body: string)
    requires body != "" && !IsJsSpace(body[0]) && body[0] != '#' && '\n' !in body
    requires 'k' !in body && 'm' !in body && 'p' !in body
    ensures Inert("      " + body)
  {
    hide Token, Contains, IsSkipped, Indent;
    IndentedLine("      ", body);
    Lacks("      " + body, 'k', 'm', 'p');
  }

  lemma Lacks(s: string, k: char, m: char, p: char)
    requires k in "kind:" && k !in s && m in "image:" && m !in s && p in "endpoints:" && p !in s
    ensures Token(s, "kind:").None? && Token(s, "image:").None? && !Contains(s, "endpoints:")
  {
    hide Token, Contains;
    LacksChar(s, "kind:", k);
    LacksChar(s, "image:", m);
    LacksChar(s, "endpoints:", p);
    NoToken(s, "kind:");
    NoToken(s, "image:");
  }

  lemma ItemInert(cmd: string)
    requires GoodCommand(cmd)
    ensures Inert(ITEM_LINE + cmd)
  {
    hide Token, Contains, IsSkipped, Indent;
    assert ITEM_LINE + cmd == "        " + ("- " + cmd);
    IndentedLine("        ", "- " + cmd);
    ItemKeys(cmd);
    ItemEndpoints(cmd);
  }

  lemma ItemKeys(cmd: string)
    ensures Token(ITEM_LINE + cmd, "kind:") == Token(cmd, "kind:")
    ensures Token(ITEM_LINE + cmd, "image:") == Token(cmd, "image:")
  {
    hide Token, Contains;
    NoKey(ITEM_LINE, "kind:", ':', cmd) by { assert "kind:"[4] == ':'; }
    NoKey(ITEM_LINE, "image:", ':', cmd) by { assert "image:"[5] == ':'; }
  }

  lemma ItemEndpoints(cmd: string)
    requires !Contains(cmd, "endpoints:")
    ensures !Contains(ITEM_LINE + cmd, "endpoints:")
  {
    hide Contains;
    LacksChar("        -", "endpoints:", ':') by { assert "endpoints:"[9] == ':'; }
    SpansNot("        -", ' ', cmd, "endpoints:");
    assert ITEM_LINE + cmd == "        -" + [' '] + cmd;
  }

  /** A colon-free word, a separator no key holds, and a file name. */
  lemma FileCommand(word: string, c: char, file: string)
    requires ':' !in word && '\n' !in word && '\n' !in file && c in {'-', '.'}
    requires 'k' !in file && 'g' !in file && 'p' !in file
    ensures GoodCommand(word + [c] + file)
  {
    hide Token, Contains;
    assert "kind:"[4] == ':' && "image:"[5] == ':' && "endpoints:"[9] == ':';
    assert "kind:"[0] == 'k' && "image:"[3] == 'g' && "endpoints:"[3] == 'p';
    NoKey(word + [c], "kind:", ':', file);
    NoKey(word + [c], "image:", ':', file);
    Lacks(file, 'k', 'g', 'p');
    LacksChar(word, "endpoints:", ':');
    SpansNot(word, c, file, "endpoints:");
  }

  lemma StartupInert(file: string)
    requires ':' !in file && '\n' !in file
    ensures Inert(STARTUP_LINE + file)
  {
    hide Token, Contains, IsSkipped, Indent;
    StartupBody(file);
    IndentedLine("      ", "startup-config: " + file);
    StartupKeys(file);
    StartupEndpoints(file);
  }

  lemma StartupBody(file: string)
    ensures STARTUP_LINE + file == "      " + ("startup-config: " + file)
  {
    assert STARTUP_LINE == "      " + "startup-config: ";
  }

  lemma StartupKeys(file: string)
    requires ':' !in file
    ensures Token(STARTUP_LINE + file, "kind:").None? && Token(STARTUP_LINE + file, "image:").None?
  {
    hide Token, Contains;
    assert "kind:"[4] == ':' && "image:"[5] == ':' && "endpoints:"[9] == ':';
    NoKey(STARTUP_LINE, "kind:", 'k', file) by { assert "kind:"[0] == 'k'; }
    NoKey(STARTUP_LINE, "image:", 'm', file) by { assert "image:"[1] == 'm'; }
    Lacks(file, ':', ':', ':');
  }

  lemma StartupEndpoints(file: string)
    requires ':' !in file
    ensures !Contains(STARTUP_LINE + file, "endpoints:")
  {
    hide Contains;
    LacksChar("      startup-config:", "endpoints:", 'e') by { assert "endpoints:"[0] == 'e'; }
    LacksChar(file, "endpoints:", ':') by { assert "endpoints:"[9] == ':'; }
    SpansNot("      startup-config:", ' ', file, "endpoints:");
    assert STARTUP_LINE + file == "      startup-config:" + [' '] + file;
  }

  predicate AllInert(lines: seq<string>) {
    forall i | 0 <= i < |lines| :: Inert(lines[i])
  }

  lemma WordHasNoNewline(word: string)
    requires Free(word, IsJsSpace)
    ensures '\n' !in word
  {
    assert IsJsSpace('\n');
  }

  lemma DeliveryInert(n: BuilderNode)
    requires GoodName(n.name)
    ensures AllInert(DeliveryLines(n))
  {
    hide Inert, ResolveNosKind, GoodCommand;
    WordHasNoNewline(n.name);
    var kind := ResolveNosKind(n.clabKind, n.dockerImage);
    if kind == "mikrotik_ros" {
      StartupInert(n.name + ".rsc");
      assert STARTUP_LINE + (n.name + ".rsc") == STARTUP_LINE + n.name + ".rsc";
    } else if kind == "openwrt" || kind == "freebsd" {
      StartupInert(n.name + "-config.sh");
      assert STARTUP_LINE + (n.name + "-config.sh") == STARTUP_LINE + n.name + "-config.sh";
    } else if kind == "frr" {
      HeadingInert("binds:");
      assert "      " + "binds:" == "      binds:";
      BindsInert(n.name);
    }
  }

  lemma BindsInert(name: string)
    requires ':' !in name && '\n' !in name
    ensures Inert(ITEM_LINE + name + "-daemons:/etc/frr/daemons") && Inert(ITEM_LINE + name + ".conf:/etc/frr/frr.conf")
  {
    hide Inert, GoodCommand;
    BindInert(name, '-', "daemons:/etc/frr/daemons");
    BindInert(name, '.', "conf:/etc/frr/frr.conf");
    BindTexts();
  }

  lemma BindTexts()
    ensures ['-'] + "daemons:/etc/frr/daemons" == "-daemons:/etc/frr/daemons"
    ensures ['.'] + "conf:/etc/frr/frr.conf" == ".conf:/etc/frr/frr.conf"
  {
  }

  lemma BindInert(name: string, c: char, file: string)
    requires ':' !in name && '\n' !in name && '\n' !in file && c in {'-', '.'}
    requires 'k' !in file && 'g' !in file && 'p' !in file
    ensures Inert(ITEM_LINE + name + ([c] + file))
  {
    hide Inert, GoodCommand;
    FileCommand(name, c, file);
    ItemInert(name + [c] + file);
    assert ITEM_LINE + (name + [c] + file) == ITEM_LINE + name + ([c] + file);
  }

  lemma ExtraInert(n: BuilderNode)
    requires GoodNode(n)
    ensures AllInert(ExtraLines(n))
  {
    hide Inert, DeliveryLines, GoodCommand;
    DeliveryInert(n);
    HeadingInert("exec:");
    assert "      " + "exec:" == "      exec:";
    forall i | 0 <= i < |n.exec| ensures Inert(ITEM_LINE + n.exec[i]) {
      ItemInert(n.exec[i]);
    }
  }

  lemma {:induction false} InertScans(lines: seq<string>, rest: seq<string>, node: ParsedNode)
    requires AllInert(lines)
    ensures ScanNodes(lines + rest, 2, 4, Some(node)) == ScanNodes(rest, 2, 4, Some(node))
    decreases lines
  {
    hide Token, Contains, IsSkipped, Indent;
    if lines == [] {
      assert lines + rest == rest;
    } else {
      assert Inert(lines[0]);
      InertScans(lines[1..], rest, node);
      assert (lines + rest)[1..] == lines[1..] + rest;
    }
  }

  /** One printed node is read back whole, whatever node was open before it. */
  lemma NodeScans(n: BuilderNode, rest: seq<string>, open: Option<ParsedNode>)
    requires GoodNode(n)
    ensures ScanNodes(NodeLines(n) + rest, 2, 4, open)
         == Flush(open) + ScanNodes(rest, 2, 4, Some(ParsedNode(n.name, n.clabKind, n.dockerImage, [])))
  {
    hide Token, Contains, IsSkipped, Indent, NameOnLine, DeliveryLines, ExecLines, NameLine, Flush, Inert;
    var lines := NodeLines(n) + rest;
    NameLineScans(n.name);
    KindLineScans(n.clabKind);
    ImageLineScans(n.dockerImage);
    ExtraInert(n);
    var afterName := [KIND_LINE + n.clabKind, IMAGE_LINE + n.dockerImage] + (ExtraLines(n) + rest);
    assert lines[0] == NameLine(n.name) && lines[1..] == afterName;
    assert afterName[1..] == [IMAGE_LINE + n.dockerImage] + (ExtraLines(n) + rest);
    assert afterName[1..][1..] == ExtraLines(n) + rest;
    InertScans(ExtraLines(n), rest, ParsedNode(n.name, n.clabKind, n.dockerImage, []));
    var node1 := WithProperties(ParsedNode(n.name, "linux", "", []), KIND_LINE + n.clabKind);
    var node2 := WithProperties(node1, IMAGE_LINE + n.dockerImage);
    assert node2 == ParsedNode(n.name, n.clabKind, n.dockerImage, []);
    assert ScanNodes(afterName, 2, 4, Some(ParsedNode(n.name, "linux", "", [])))
        == ScanNodes(afterName[1..], 2, 4, Some(node1))
        == ScanNodes(afterName[1..][1..], 2, 4, Some(node2));
  }

  /** A line, or the end of the text, at which the node block is over. */
  predicate EndsBlock(rest: seq<string>) {
    rest == [""] || (rest != [] && rest[0] == "  links:")
  }

  lemma {:induction false} BlockScans(nodes: seq<BuilderNode>, rest: seq<string>, open: Option<ParsedNode>)
    requires forall i | 0 <= i < |nodes| :: GoodNode(nodes[i])
    requires EndsBlock(rest)
    ensures ScanNodes(AllNodeLines(nodes) + rest, 2, 4, open) == Flush(open) + BareNodes(nodes)
    decreases nodes
  {
    hide Token, Contains, IsSkipped, Indent, NameOnLine, NodeLines, GoodNode;
    if nodes == [] {
      assert AllNodeLines(nodes) + rest == rest;
      LinksLineEnds(rest, open);
    } else {
      var bare := ParsedNode(nodes[0].name, nodes[0].clabKind, nodes[0].dockerImage, []);
      NodeScans(nodes[0], AllNodeLines(nodes[1..]) + rest, open);
      assert NodeLines(nodes[0]) + (AllNodeLines(nodes[1..]) + rest) == AllNodeLines(nodes) + rest;
      BlockScans(nodes[1..], rest, Some(bare));
    }
  }

  lemma LinksLineEnds(rest: seq<string>, open: Option<ParsedNode>)
    requires EndsBlock(rest)
    ensures ScanNodes(rest, 2, 4, open) == Flush(open)
    ensures NodeNameIndent(rest, 2) == -1
  {
    hide Token, Contains, NameOnLine;
    if rest[0] == "  links:" {
      assert "  " + "links:" == "  links:";
      IndentedLine("  ", "links:");
    } else {
      assert rest[1..] == [];
    }
  }

  /** The node part of the parser on the printed lines followed by the link section. */
  lemma NodesScan(state: BuilderState, rest: seq<string>)
    requires Printable(state) && EndsBlock(rest)
    ensures NodesOf(Header(state) + AllNodeLines(state.nodes) + rest) == BareNodes(state.nodes)
  {
    hide Token, Contains, IsSkipped, NameOnLine, GoodNode, NodeLines, GoodName, IsNodesLine, Indent, Header;
    var block := AllNodeLines(state.nodes) + rest;
    var lines := Header(state) + AllNodeLines(state.nodes) + rest;
    HeaderScans(state);
    assert lines == Header(state) + block;
    HeaderSkipped(state, block);
    if state.nodes == [] {
      assert block == rest;
      LinksLineEnds(rest, None);
    } else {
      FirstChild(state.nodes, rest);
      BlockScans(state.nodes, rest, None);
      assert Flush(None) + BareNodes(state.nodes) == BareNodes(state.nodes);
    }
  }

  lemma HeaderSkipped(state: BuilderState, block: seq<string>)
    ensures var lines := Header(state) + block;
      |lines| >= 3 && NodesLine(lines) == 2 && lines[2] == "  nodes:" && lines[3..] == block
  {
    hide IsNodesLine, Indent, SkipSpaces;
    HeaderScans(state);
    var lines := Header(state) + block;
    assert lines[1..][0] == "template:" && lines[1..][1..][0] == "  nodes:";
    assert NodesLine(lines[1..][1..]) == 0;
    assert NodesLine(lines[1..]) == 1;
  }

  lemma HeaderScans(state: BuilderState)
    ensures !IsNodesLine(NAME_KEY + DisplayName(state)) && !IsNodesLine("template:")
    ensures IsNodesLine("  nodes:") && Indent("  nodes:") == 2
  {
    hide IsNodesLine, Indent, DisplayName;
    NotNodesLine(NAME_KEY + DisplayName(state));
    NotNodesLine("template:");
    NodesLineScans();
  }

  lemma NodesLineScans()
    ensures IsNodesLine("  nodes:") && Indent("  nodes:") == 2
  {
    hide Contains, IsSkipped;
    assert "  " + "nodes:" == "  nodes:";
    IndentedLine("  ", "nodes:");
    assert "nodes:"[6..] == "";
  }

  lemma NotNodesLine(line: string)
    requires |line| > 1 && !IsJsSpace(line[0]) && line[1] != 'o'
    ensures !IsNodesLine(line)
  {
    assert "nodes:"[1] == 'o';
    assert SkipSpaces(line) == line;
  }

  lemma FirstChild(nodes: seq<BuilderNode>, rest: seq<string>)
    requires nodes != [] && GoodNode(nodes[0])
    ensures NodeNameIndent(AllNodeLines(nodes) + rest, 2) == 4
  {
    hide Token, Contains, IsSkipped, Indent, NameOnLine, NameLine;
    NameLineScans(nodes[0].name);
    assert (AllNodeLines(nodes) + rest)[0] == NameLine(nodes[0].name);
  }

  // ----- The link section -----

  /** No pair of endpoints starts inside a line without the key. */
  lemma {:induction false} LineHasNoPair(line: string, rest: string)
    requires '\n' !in line && !Contains(line, "endpoints:")
    ensures EndpointPairs(line + "\n" + rest) == EndpointPairs(rest)
    decreases line
  {
    var s, key := line + "\n" + rest, "endpoints:";
    assert s[|line|] == '\n' && '\n' !in key;
    assert |line| < |key| ==> s[|line|] != key[|line|];
    assert |key| <= |line| ==> s[..|key|] == line[..|key|];
    assert MatchEndpoints(s).None?;
    if line == "" {
      assert s[1..] == rest;
    } else {
      LineHasNoPair(line[1..], rest);
      assert s[1..] == line[1..] + "\n" + rest;
    }
  }

  /** The key may end a name line, but the kind line that follows opens no bracket. */
  lemma {:induction false} NameLineHasNoPair(word: string, rest: string)
    requires ':' !in word && '\n' !in word
    requires KIND_LINE <= rest
    ensures EndpointPairs(word + ":" + "\n" + rest) == EndpointPairs(rest)
    decreases word
  {
    hide MatchEndpoints;
    var s := word + ":" + "\n" + rest;
    NoPairHere(word, rest);
    if word == "" {
      LineHasNoPair("", rest);
      assert s[1..] == "" + "\n" + rest;
    } else {
      NameLineHasNoPair(word[1..], rest);
      assert s[1..] == word[1..] + ":" + "\n" + rest;
    }
  }

  lemma NoPairHere(word: string, rest: string)
    requires ':' !in word
    requires KIND_LINE <= rest
    ensures MatchEndpoints(word + ":" + "\n" + rest).None?
  {
    hide SkipSpaces;
    var s, key := word + ":" + "\n" + rest, "endpoints:";
    assert s[|word|] == ':' && key[9] == ':';
    if |word| < 9 {
      assert key[|word|] != ':';
    } else if |word| > 9 {
      assert s[9] == word[9];
    } else {
      KindLineOpensNoPair(rest);
      assert s[10..] == "\n" + rest;
    }
  }

  lemma KindLineOpensNoPair(rest: string)
    requires KIND_LINE <= rest
    ensures SkipSpaces("\n" + rest) != "" && SkipSpaces("\n" + rest)[0] == 'k'
  {
    var body := rest[6..];
    assert "\n" + rest == "\n      " + body && body[0] == KIND_LINE[6] == 'k';
    TrimStartSpaces("\n      ", body, IsJsSpace);
  }

  lemma {:induction false} LinesHaveNoPair(lines: seq<string>, rest: string)
    requires NoneHas(lines, '\n') && forall i | 0 <= i < |lines| :: !Contains(lines[i], "endpoints:")
    ensures EndpointPairs(Unlines(lines) + rest) == EndpointPairs(rest)
    decreases lines
  {
    hide Contains, EndpointPairs;
    if lines == [] {
      assert Unlines(lines) + rest == rest;
    } else {
      LinesHaveNoPair(lines[1..], rest);
      LineHasNoPair(lines[0], Unlines(lines[1..]) + rest);
      assert Unlines(lines) + rest == lines[0] + "\n" + (Unlines(lines[1..]) + rest);
    }
  }

  lemma FieldLines(n: BuilderNode)
    requires GoodNode(n)
    ensures '\n' !in KIND_LINE + n.clabKind && !Contains(KIND_LINE + n.clabKind, "endpoints:")
    ensures '\n' !in IMAGE_LINE + n.dockerImage && !Contains(IMAGE_LINE + n.dockerImage, "endpoints:")
  {
    hide Contains, Token;
    WordHasNoNewline(n.clabKind);
    WordHasNoNewline(n.dockerImage);
    assert "endpoints:"[3] == 'p' && "endpoints:"[7] == 't';
    LacksChar("      kind:", "endpoints:", 'p');
    SpansNot("      kind:", ' ', n.clabKind, "endpoints:");
    assert KIND_LINE + n.clabKind == "      kind:" + [' '] + n.clabKind;
    LacksChar("      image:", "endpoints:", 't');
    SpansNot("      image:", ' ', n.dockerImage, "endpoints:");
    assert IMAGE_LINE + n.dockerImage == "      image:" + [' '] + n.dockerImage;
  }

  lemma NodeHasNoPair(n: BuilderNode, rest: string)
    requires GoodNode(n)
    ensures NoneHas(NodeLines(n), '\n')
    ensures EndpointPairs(Unlines(NodeLines(n)) + rest) == EndpointPairs(rest)
  {
    hide Contains, EndpointPairs, ExtraLines, Token, IsSkipped, Indent;
    WordHasNoNewline(n.name);
    ExtraInert(n);
    FieldLines(n);
    assert forall i | 0 <= i < |ExtraLines(n)| :: Inert(ExtraLines(n)[i]);
    var tail := [KIND_LINE + n.clabKind, IMAGE_LINE + n.dockerImage] + ExtraLines(n);
    LinesHaveNoPair(tail, rest);
    assert NodeLines(n) == [NameLine(n.name)] + tail && NodeLines(n)[1..] == tail;
    assert Unlines(tail) == KIND_LINE + n.clabKind + "\n" + Unlines(tail[1..]);
    assert KIND_LINE <= Unlines(tail) + rest;
    NameLineHasNoPair("    " + n.name, Unlines(tail) + rest);
    assert Unlines(NodeLines(n)) + rest == ("    " + n.name) + ":" + "\n" + (Unlines(tail) + rest);
  }

  lemma {:induction false} NodesHaveNoPair(nodes: seq<BuilderNode>, rest: string)
    requires forall i | 0 <= i < |nodes| :: GoodNode(nodes[i])
    ensures NoneHas(AllNodeLines(nodes), '\n')
    ensures EndpointPairs(Unlines(AllNodeLines(nodes)) + rest) == EndpointPairs(rest)
    decreases nodes
  {
    hide GoodNode, NodeLines, EndpointPairs;
    if nodes == [] {
      assert Unlines(AllNodeLines(nodes)) + rest == rest;
    } else {
      NodesHaveNoPair(nodes[1..], rest);
      NodeHasNoPair(nodes[0], Unlines(AllNodeLines(nodes[1..])) + rest);
      UnlinesAppend(NodeLines(nodes[0]), AllNodeLines(nodes[1..]));
      Assoc(Unlines(NodeLines(nodes[0])), Unlines(AllNodeLines(nodes[1..])), rest);
    }
  }

  lemma {:induction false} QuotedRun(a: string, t: string)
    requires '"' !in a
    ensures TakeQuoted(a + "\"" + t) == Some((a, t))
    decreases a
  {
    var s := a + "\"" + t;
    if a == "" {
      assert s[1..] == t;
    } else {
      QuotedRun(a[1..], t);
      assert [a[0]] + a[1..] == a;
      assert s[1..] == a[1..] + "\"" + t;
    }
  }

  lemma SecondMatches(b: string, t: string)
    requires b != "" && '"' !in b
    ensures MatchSecond(", \"" + (b + "\"" + ("]" + t))) == Some((b, t))
  {
    hide TakeQuoted;
    var bText := b + "\"" + ("]" + t);
    var s := ", \"" + bText;
    assert "," <= s && s[1..] == " " + ("\"" + bText);
    TrimStartSpaces(" ", "\"" + bText, IsJsSpace);
    assert ("\"" + bText)[1..] == bText;
    QuotedRun(b, "]" + t);
    assert ("]" + t)[1..] == t;
  }

  lemma BracketMatches(a: string, b: string, t: string)
    requires a != "" && b != "" && '"' !in a && '"' !in b
    ensures MatchEndpoints(PairText(a, b, t)) == Some((Endpoints(a, b), t))
  {
    hide TakeQuoted, MatchSecond;
    var aText := a + "\"" + (", \"" + (b + "\"" + ("]" + t)));
    var s := PairText(a, b, t);
    assert "endpoints:" <= s && s[10..] == " " + ("[\"" + aText);
    TrimStartSpaces(" ", "[\"" + aText, IsJsSpace);
    assert ("[\"" + aText)[2..] == aText;
    QuotedRun(a, ", \"" + (b + "\"" + ("]" + t)));
    SecondMatches(b, t);
  }

  function PairText(a: string, b: string, t: string): string {
    "endpoints: [\"" + (a + "\"" + (", \"" + (b + "\"" + ("]" + t))))
  }

  lemma {:induction false} PadHasNoPair(pad: string, s: string)
    requires 'e' !in pad
    ensures EndpointPairs(pad + s) == EndpointPairs(s)
    decreases pad
  {
    if pad == "" {
      assert pad + s == s;
    } else {
      assert (pad + s)[0] == pad[0] && "endpoints:"[0] == 'e';
      PadHasNoPair(pad[1..], s);
      assert (pad + s)[1..] == pad[1..] + s;
    }
  }

  lemma LinkLinePair(a: string, b: string, rest: string)
    requires a != "" && b != "" && '"' !in a && '"' !in b
    ensures EndpointPairs(LinkLine(a, b) + "\n" + rest) == [Endpoints(a, b)] + EndpointPairs(rest)
  {
    hide MatchEndpoints, PairText;
    var s := PairText(a, b, "\n" + rest);
    LinkLineText(a, b, "\n" + rest);
    assert LinkLine(a, b) + "\n" + rest == LinkLine(a, b) + ("\n" + rest);
    PadHasNoPair("    - ", s);
    BracketMatches(a, b, "\n" + rest);
    PadHasNoPair("\n", rest);
  }

  lemma LinkLineText(a: string, b: string, t: string)
    ensures LinkLine(a, b) + t == "    - " + PairText(a, b, t)
    ensures PairText(a, b, t) != ""
  {
    var left, right := LinkLine(a, b) + t, "    - " + PairText(a, b, t);
    assert left == "    - endpoints: [\"" + (a + ("\", \"" + (b + ("\"]" + t))));
    assert right == "    - endpoints: [\"" + (a + ("\", \"" + (b + ("\"]" + t))));
  }

  lemma EndReadsBack(node: string, iface: string)
    requires ':' !in node && ':' !in iface
    ensures EndOf(EndText(node, iface)) == LinkEnd(node, iface)
  {
    SplitOff(node, ':', iface);
    SplitWhole(iface, ':');
    assert EndText(node, iface) == node + [':'] + iface;
  }

  lemma {:induction false} LinksReadBack(nodes: seq<BuilderNode>, links: seq<BuilderLink>)
    requires forall i | 0 <= i < |nodes| :: GoodName(nodes[i].name)
    requires forall i | 0 <= i < |links| :: GoodInterface(links[i].sourceIface) && GoodInterface(links[i].targetIface)
    ensures LinksOf(EndpointPairs(Unlines(LinkLines(nodes, links)))) == ResolvedLinks(nodes, links)
    decreases links
  {
    hide GoodName, EndOf, EndpointPairs, LinkLine;
    if links == [] {
      assert EndpointPairs("") == [] by { EmptyHasNoPair(); }
    } else {
      var l := links[0];
      var src, tgt := FindById(nodes, l.sourceNodeId), FindById(nodes, l.targetNodeId);
      LinksReadBack(nodes, links[1..]);
      if src.Some? && tgt.Some? {
        OneLinkReadsBack(src.value.name, l.sourceIface, tgt.value.name, l.targetIface,
                         Unlines(LinkLines(nodes, links[1..])));
        assert LinkLines(nodes, links)[1..] == LinkLines(nodes, links[1..]);
      } else {
        assert LinkLines(nodes, links) == LinkLines(nodes, links[1..]);
        assert ResolvedLinks(nodes, links) == ResolvedLinks(nodes, links[1..]);
      }
    }
  }

  lemma OneLinkReadsBack(src: string, srcIface: string, tgt: string, tgtIface: string, rest: string)
    requires GoodName(src) && GoodInterface(srcIface) && GoodName(tgt) && GoodInterface(tgtIface)
    ensures LinksOf(EndpointPairs(LinkLine(EndText(src, srcIface), EndText(tgt, tgtIface)) + "\n" + rest))
         == [ParsedLink(LinkEnd(src, srcIface), LinkEnd(tgt, tgtIface))] + LinksOf(EndpointPairs(rest))
  {
    hide GoodName, EndOf, EndpointPairs, LinkLine, EndText;
    GoodEnd(src, srcIface);
    GoodEnd(tgt, tgtIface);
    var pair := Endpoints(EndText(src, srcIface), EndText(tgt, tgtIface));
    LinkLinePair(pair.a, pair.b, rest);
    assert ([pair] + EndpointPairs(rest))[1..] == EndpointPairs(rest);
    assert srcIface != "" && tgtIface != "";
  }

  lemma EmptyHasNoPair()
    ensures EndpointPairs("") == []
  {
  }

  lemma GoodEnd(name: string, iface: string)
    requires GoodName(name) && GoodInterface(iface)
    ensures EndText(name, iface) != "" && '"' !in EndText(name, iface)
    ensures EndOf(EndText(name, iface)) == LinkEnd(name, iface) && name != ""
  {
    EndReadsBack(name, iface);
  }

  // ----- The topology name -----

  lemma {:induction false} SkipToBody(s: string, tail: string)
    requires SkipSpaces(s) != ""
    ensures SkipSpaces(s + tail) == SkipSpaces(s) + tail
    decreases s
  {
    if IsJsSpace(s[0]) {
      SkipToBody(s[1..], tail);
      assert (s + tail)[1..] == s[1..] + tail;
    }
  }

  lemma {:induction false} LineIsTaken(s: string, tail: string)
    requires Free(s, IsLineEnd)
    requires tail != "" && IsLineEnd(tail[0])
    ensures TakeLine(s + tail) == s
    decreases s
  {
    if s != "" {
      LineIsTaken(s[1..], tail);
      assert (s + tail)[1..] == s[1..] + tail;
    }
  }

  lemma UntitledIsVisible()
    ensures SkipSpaces("untitled") == "untitled"
  {
    assert "untitled"[0] == 'u';
  }

  lemma NameReadsBack(name: string, rest: string)
    requires Free(name, IsLineEnd) && SkipSpaces(name) != ""
    ensures NameFrom(NAME_KEY + name + "\n" + rest, true) == Trim(name, IsJsSpace)
  {
    hide IsJsSpace, TrimStart, TakeLine, NameFrom, Trim, SkipSpaces;
    var tail := "\n" + rest;
    assert tail[0] == '\n';
    assert NAME_KEY + (name + tail) == NAME_KEY + name + "\n" + rest;
    NameKeyFound(name + tail);
    SkipToBody(name, tail);
    BodyStaysFree(name);
    LineIsTaken(SkipSpaces(name), tail);
    TrimStartTwice(name);
  }

  lemma BodyStaysFree(name: string)
    requires Free(name, IsLineEnd)
    ensures Free(SkipSpaces(name), IsLineEnd)
  {
    hide IsLineEnd, IsJsSpace;
    var body := SkipSpaces(name);
    assert forall i | 0 <= i < |body| :: body[i] == name[i + (|name| - |body|)];
  }

  lemma NameKeyFound(tail: string)
    ensures NameFrom(NAME_KEY + tail, true) == Trim(TakeLine(SkipSpaces(tail)), IsJsSpace)
  {
    hide TakeLine, Trim;
    var text := NAME_KEY + tail;
    assert "name:" <= text && text[5..] == " " + tail && text[5..][1..] == tail;
  }

  lemma TrimStartTwice(s: string)
    ensures Trim(SkipSpaces(s), IsJsSpace) == Trim(s, IsJsSpace)
  {
    hide TrimEnd;
    assert SkipSpaces(SkipSpaces(s)) == SkipSpaces(s);
  }

  // ----- The interfaces of each node -----

  /** Pushing each use that is not there yet. */
  function Extended(have: seq<string>, uses: seq<string>): seq<string>
    decreases uses
  {
    if uses == [] then have
    else Extended(if uses[0] in have then have else have + [uses[0]], uses[1..])
  }

  lemma {:induction false} ExtendedAppend(have: seq<string>, u: seq<string>, v: seq<string>)
    ensures Extended(have, u + v) == Extended(Extended(have, u), v)
    decreases u
  {
    if u == [] {
      assert u + v == v;
    } else {
      assert (u + v)[1..] == u[1..] + v;
      ExtendedAppend(if u[0] in have then have else have + [u[0]], u[1..], v);
    }
  }

  lemma {:induction false} ExtendedIsFirstUses(s: seq<string>)
    ensures Extended([], s) == FirstUses(s)
  {
    if s != [] {
      ExtendedIsFirstUses(s[..|s| - 1]);
      ExtendedAppend([], s[..|s| - 1], [s[|s| - 1]]);
      assert s[..|s| - 1] + [s[|s| - 1]] == s;
    }
  }

  predicate SameNames(a: seq<ParsedNode>, b: seq<ParsedNode>) {
    |a| == |b| && forall i | 0 <= i < |a| :: a[i].name == b[i].name
  }

  lemma SameIndex(a: seq<ParsedNode>, b: seq<ParsedNode>, name: string)
    requires SameNames(a, b)
    ensures IndexOfNode(a, name) == IndexOfNode(b, name)
  {
  }

  /** Which uses reach node i: all those of its name, if it is the first node so called. */
  function Reaching(nodes: seq<ParsedNode>, i: nat, uses: seq<string>): seq<string>
    requires i < |nodes|
  {
    if IndexOfNode(nodes, nodes[i].name) == i then uses else []
  }

  lemma OneEnd(nodes: seq<ParsedNode>, end: LinkEnd, i: nat)
    requires i < |nodes|
    ensures var r := AddInterface(nodes, end);
      && SameNames(nodes, r)
      && r[i]
         == nodes[i].(interfaces := Extended(nodes[i].interfaces, Reaching(nodes, i, UsesOfEnd(end, nodes[i].name))))
  {
    var uses := UsesOfEnd(end, nodes[i].name);
    assert uses != [] ==> uses[1..] == [];
  }

  lemma {:induction false} InterfacesCollected(nodes: seq<ParsedNode>, links: seq<ParsedLink>, i: nat)
    requires i < |nodes|
    ensures var r := AddInterfaces(nodes, links);
      && SameNames(nodes, r)
      && r[i] == nodes[i].(interfaces := Extended(nodes[i].interfaces, Reaching(nodes, i, Uses(links, nodes[i].name))))
    decreases links
  {
    hide AddInterface, IndexOfNode;
    if links != [] {
      var name := nodes[i].name;
      var first := AddInterface(nodes, links[0].a);
      var second := AddInterface(first, links[0].b);
      OneEnd(nodes, links[0].a, i);
      OneEnd(first, links[0].b, i);
      SameIndex(nodes, first, name);
      SameIndex(first, second, name);
      InterfacesCollected(second, links[1..], i);
      var u, v, w := UsesOfEnd(links[0].a, name), UsesOfEnd(links[0].b, name), Uses(links[1..], name);
      ExtendedAppend(nodes[i].interfaces, u, v);
      ExtendedAppend(nodes[i].interfaces, u + v, w);
    }
  }

  /** In any text at all, a node that is the first of its name gets exactly its interfaces in the
      parsed links, each once, in the order of first use; a later namesake gets none. */
  lemma InterfacesOfAnyText(yaml: string, i: nat)
    requires i < |Parsed(yaml).nodes|
    ensures var p := Parsed(yaml);
      p.nodes[i].interfaces == FirstUses(Reaching(p.nodes, i, Uses(p.links, p.nodes[i].name)))
  {
    hide AddInterfaces, NodesOf, EndpointPairs, LinksOf, NameFrom, Split;
    var bare := NodesOf(Split(yaml, '\n'));
    var p := Parsed(yaml);
    LengthKept(bare, p.links);
    InterfacesCollected(bare, p.links, i);
    NodesStartBare(Split(yaml, '\n'), i);
    SameIndex(bare, p.nodes, bare[i].name);
    ExtendedIsFirstUses(Reaching(bare, i, Uses(p.links, bare[i].name)));
  }

  lemma {:induction false} LengthKept(nodes: seq<ParsedNode>, links: seq<ParsedLink>)
    ensures |AddInterfaces(nodes, links)| == |nodes|
    decreases links
  {
    if links != [] {
      LengthKept(AddInterface(AddInterface(nodes, links[0].a), links[0].b), links[1..]);
    }
  }

  /** What every node the scanner emits satisfies, whatever the text. */
  predicate ScannedNode(n: ParsedNode) {
    && n.name != "" && Free(n.name, IsJsSpace) && n.name !in NODE_PROPERTIES
    && n.kind != "" && Free(n.kind, IsJsSpace) && Free(n.image, IsJsSpace) && n.interfaces == []
  }

  lemma {:induction false} ScannedNodes(lines: seq<string>, nodesIndent: int, nameIndent: int,
                                        current: Option<ParsedNode>, i: nat)
    requires current.Some? ==> ScannedNode(current.value)
    requires i < |ScanNodes(lines, nodesIndent, nameIndent, current)|
    ensures ScannedNode(ScanNodes(lines, nodesIndent, nameIndent, current)[i])
    decreases lines
  {
    hide Token, IsSkipped, Indent, NameOnLine;
    if lines != [] && !IsSkipped(lines[0]) && Indent(lines[0]) > nodesIndent {
      var line, rest := lines[0], lines[1..];
      if Indent(line) == nameIndent {
        var m := NameOnLine(line);
        if m.Some? && m.value !in NODE_PROPERTIES {
          var started := ParsedNode(m.value, "linux", "", []);
          if i >= |Flush(current)| {
            ScannedNodes(rest, nodesIndent, nameIndent, Some(started), i - |Flush(current)|);
          }
        } else {
          ScannedNodes(rest, nodesIndent, nameIndent, current, i);
        }
      } else if current.Some? && Indent(line) > nameIndent {
        ScannedNodes(rest, nodesIndent, nameIndent, Some(WithProperties(current.value, line)), i);
      } else {
        ScannedNodes(rest, nodesIndent, nameIndent, current, i);
      }
    } else if lines != [] && IsSkipped(lines[0]) {
      ScannedNodes(lines[1..], nodesIndent, nameIndent, current, i);
    }
  }

  lemma NodesStartBare(lines: seq<string>, i: nat)
    requires i < |NodesOf(lines)|
    ensures ScannedNode(NodesOf(lines)[i])
  {
    hide ScanNodes, Indent, NodesLine, NodeNameIndent, ScannedNode;
    var n := NodesLine(lines);
    var nodesIndent := Indent(lines[n]);
    ScannedNodes(lines[n + 1..], nodesIndent, NodeNameIndent(lines[n + 1..], nodesIndent), None, i);
  }

  // ----- The round trip -----

  lemma BareNamesDiffer(nodes: seq<BuilderNode>, i: nat)
    requires forall i, j | 0 <= i < j < |nodes| :: nodes[i].name != nodes[j].name
    requires i < |nodes|
    ensures IndexOfNode(BareNodes(nodes), BareNodes(nodes)[i].name) == i
  {
  }

  /** The text of a printable state, seen as its name line, its node block and its links. */
  lemma TextParts(state: BuilderState)
    ensures Printed(state)
         == NAME_KEY + DisplayName(state) + "\n"
            + Unlines(["template:", "  nodes:"] + AllNodeLines(state.nodes) + LinkSection(state))
    ensures Printed(state) == Unlines(Header(state) + AllNodeLines(state.nodes)) + Unlines(LinkSection(state))
    ensures Unlines(Header(state) + AllNodeLines(state.nodes))
         == Unlines(Header(state)) + Unlines(AllNodeLines(state.nodes))
  {
    hide AllNodeLines, LinkSection, DisplayName;
    UnlinesAppend(Header(state) + AllNodeLines(state.nodes), LinkSection(state));
    UnlinesAppend(Header(state), AllNodeLines(state.nodes));
    assert PrintedLines(state)[1..] == ["template:", "  nodes:"] + AllNodeLines(state.nodes) + LinkSection(state);
  }

  lemma HeaderHasNoPair(state: BuilderState, rest: string)
    requires Free(state.name, IsLineEnd) && !Contains(state.name, "endpoints:")
    ensures NoneHas(Header(state), '\n')
    ensures EndpointPairs(Unlines(Header(state)) + rest) == EndpointPairs(rest)
  {
    hide Contains, EndpointPairs;
    assert IsLineEnd('\n');
    assert "endpoints:"[3] == 'p' && "endpoints:"[5] == 'i';
    LacksChar("untitled", "endpoints:", 'p');
    LacksChar("name:", "endpoints:", 'p');
    SpansNot("name:", ' ', DisplayName(state), "endpoints:");
    assert NAME_KEY + DisplayName(state) == "name:" + [' '] + DisplayName(state);
    LacksChar("template:", "endpoints:", 'i');
    LacksChar("  nodes:", "endpoints:", 'p');
    LinesHaveNoPair(Header(state), rest);
  }

  lemma LinkSectionReadsBack(state: BuilderState)
    requires Printable(state)
    ensures LinksOf(EndpointPairs(Unlines(LinkSection(state)))) == ResolvedLinks(state.nodes, state.links)
    ensures EndsBlock(Split(Unlines(LinkSection(state)), '\n'))
  {
    hide Contains, EndpointPairs, LinksOf, LinkLines, GoodInterface, Token, Free, ResolvedLinks, GoodNode;
    GoodNodesAreNamed(state);
    LinksReadBack(state.nodes, state.links);
    var rest := LinkLines(state.nodes, state.links);
    if state.links == [] {
      assert rest == [] by { NoLinkLines(state.nodes); }
    } else {
      assert LinkSection(state)[0] == "  links:" && LinkSection(state)[1..] == rest;
      LinksLineSkipped(rest);
      assert Unlines(LinkSection(state)) == "  links:" + "\n" + Unlines(rest);
    }
  }

  lemma GoodNodesAreNamed(state: BuilderState)
    requires Printable(state)
    ensures forall i | 0 <= i < |state.nodes| :: GoodName(state.nodes[i].name)
  {
    hide GoodName, GoodCommand;
  }

  lemma NoLinkLines(nodes: seq<BuilderNode>)
    ensures LinkLines(nodes, []) == []
  {
  }

  lemma LinksLineSkipped(rest: seq<string>)
    ensures EndpointPairs("  links:" + "\n" + Unlines(rest)) == EndpointPairs(Unlines(rest))
    ensures Split("  links:" + "\n" + Unlines(rest), '\n')[0] == "  links:"
  {
    hide Contains, EndpointPairs, Unlines;
    LacksChar("  links:", "endpoints:", 'p') by { assert "endpoints:"[3] == 'p'; }
    LineHasNoPair("  links:", Unlines(rest));
    SplitOff("  links:", '\n', Unlines(rest));
  }

  /** What parsing the printed text of a state has to give. */
  predicate ReadsBack(state: BuilderState, p: ParsedTopology) {
    && p.name == Trim(DisplayName(state), IsJsSpace)
    && p.links == ResolvedLinks(state.nodes, state.links)
    && |p.nodes| == |state.nodes|
    && forall i | 0 <= i < |p.nodes| ::
         p.nodes[i] == ParsedNode(state.nodes[i].name, state.nodes[i].clabKind, state.nodes[i].dockerImage,
                                  FirstUses(Uses(p.links, state.nodes[i].name)))
  }

  /** The round trip: name, nodes in order with kind and image, resolvable links in order, and
      for every node the interfaces its links use, each once, in the order of first use. */
  lemma RoundTrip(state: BuilderState)
    requires Printable(state)
    ensures ReadsBack(state, Parsed(Printed(state)))
  {
    hide Contains, EndpointPairs, LinksOf, Token, Unlines, NodesOf, AddInterfaces, NameFrom, GoodNode,
         AllNodeLines, LinkSection, Header, Split, IsSkipped, GoodInterface, Trim;
    var text := Printed(state);
    TextParts(state);
    UntitledIsVisible();
    NameReadsBack(DisplayName(state),
                  Unlines(["template:", "  nodes:"] + AllNodeLines(state.nodes) + LinkSection(state)));
    var tail := Unlines(LinkSection(state));
    LinkSectionReadsBack(state);
    NodesHaveNoPair(state.nodes, tail);
    HeaderHasNoPair(state, Unlines(AllNodeLines(state.nodes)) + tail);
    Assoc(Unlines(Header(state)), Unlines(AllNodeLines(state.nodes)), tail);
    assert NoneHas(Header(state) + AllNodeLines(state.nodes), '\n');
    SplitUnlines(Header(state) + AllNodeLines(state.nodes), tail);
    NodesScan(state, Split(tail, '\n'));
    var bare, links := BareNodes(state.nodes), ResolvedLinks(state.nodes, state.links);
    LengthKept(bare, links);
    forall i | 0 <= i < |bare|
      ensures AddInterfaces(bare, links)[i] == bare[i].(interfaces := FirstUses(Uses(links, bare[i].name)))
    {
      BareNamesDiffer(state.nodes, i);
      InterfacesCollected(bare, links, i);
      ExtendedIsFirstUses(Uses(links, bare[i].name));
    }
  }

  /** No condition on words can be dropped: a node that comes back has a visible one-word name
      that is no property word, a visible one-word kind, and an image without white space. */
  lemma OnlyWordsReadBack(state: BuilderState, i: nat)
    requires i < |state.nodes|
    ensures var n := state.nodes[i];
      ReadsBack(state, Parsed(Printed(state))) ==>
      && n.name != "" && Free(n.name, IsJsSpace) && n.name !in NODE_PROPERTIES
      && n.clabKind != "" && Free(n.clabKind, IsJsSpace) && Free(n.dockerImage, IsJsSpace)
  {
    hide AddInterfaces, NodesOf, EndpointPairs, LinksOf, NameFrom, Split, Printed, Uses, Trim;
    var yaml := Printed(state);
    var p := Parsed(yaml);
    var bare := NodesOf(Split(yaml, '\n'));
    LengthKept(bare, p.links);
    if ReadsBack(state, p) {
      NodesStartBare(Split(yaml, '\n'), i);
      InterfacesCollected(bare, p.links, i);
    }
  }
}
