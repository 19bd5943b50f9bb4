/** The indentation-driven scanner that reads nodes and links back from containerlab text
    (frontend/app/src/lib/yaml-parser.ts). Each regular expression of the source is a matcher
    on characters; each loop is a method proved against a function. */
module TopologyParser {
  import opened Text

  datatype ParsedNode = ParsedNode(name: string, kind: string, image: string, interfaces: seq<string>)

  datatype LinkEnd = LinkEnd(node: string, iface: string)

  datatype ParsedLink = ParsedLink(a: LinkEnd, b: LinkEnd)

  datatype ParsedTopology = ParsedTopology(name: string, nodes: seq<ParsedNode>, links: seq<ParsedLink>)

  const NODE_PROPERTIES: set<string> := {
    "kind", "image", "binds", "exec", "ports", "env", "labels",
    "network-mode", "cmd", "entrypoint", "user", "group",
    "startup-config", "startup-delay", "enforce-startup-config",
    "auto-remove", "publish", "memory", "cpu", "cpu-set",
    "runtime", "extras", "config", "type", "license",
    "mgmt-ipv4", "mgmt-ipv6", "dns"
  }

  // ----- The regular expressions -----

  function SkipSpaces(s: string): string {
    TrimStart(s, IsJsSpace)
  }

  /** The longest prefix without white space: `\S*`. */
  function TakeWord(s: string): (w: string)
    ensures w <= s && Free(w, IsJsSpace)
  {
    if s == "" || IsJsSpace(s[0]) then "" else [s[0]] + TakeWord(s[1..])
  }

  /** The longest prefix without line terminators: `.*`. */
  function TakeLine(s: string): string {
    if s == "" || IsLineEnd(s[0]) then "" else [s[0]] + TakeLine(s[1..])
  }

  /** `/^name:\s*(.+)$/m` followed by `trim`, tried at the line that starts here and then at
      every later line start. When only white space follows the key, whatever the engine
      matches trims to "", and no later line can match either. */
  function NameFrom(s: string, atLineStart: bool): string {
    if atLineStart && "name:" <= s then Trim(TakeLine(SkipSpaces(s[5..])), IsJsSpace)
    else if s == "" then ""
    else NameFrom(s[1..], IsLineEnd(s[0]))
  }

  /** `/^(\s*)nodes:\s*$/` on one line. */
  predicate IsNodesLine(line: string) {
    var body := SkipSpaces(line);
    "nodes:" <= body && SkipSpaces(body[6..]) == ""
  }

  /** `line.match(/^(\s*)/)[1].length` */
  function Indent(line: string): nat {
    |line| - |SkipSpaces(line)|
  }

  /** The lines both loops skip: blank ones and those whose first visible character is '#'. */
  predicate IsSkipped(line: string) {
    var t := Trim(line, IsJsSpace);
    t == "" || t[0] == '#'
  }

  /** `/^\s+(\S+):\s*$/` on one line. */
  function NameOnLine(line: string): (r: Option<string>)
    ensures r.Some? ==> r.value != "" && Free(r.value, IsJsSpace)
  {
    var t := Trim(line, IsJsSpace);
    if Indent(line) >= 1 && |t| >= 2 && t[|t| - 1] == ':' && Free(t[..|t| - 1], IsJsSpace)
    then Some(t[..|t| - 1])
    else None
  }

  /** `/key\s*(\S+)/` anywhere in one line. When nothing visible follows the first occurrence
      of the key, no later occurrence exists. */
  function Token(line: string, key: string): (r: Option<string>)
    ensures r.Some? ==> r.value != "" && Free(r.value, IsJsSpace)
  {
    if key <= line then
      var t := SkipSpaces(line[|key|..]);
      if t == "" then None else Some(TakeWord(t))
    else if line == "" then None
    else Token(line[1..], key)
  }

  datatype Endpoints = Endpoints(a: string, b: string)

  /** A non-empty run without '"' and the text after the quote that ends it: `([^"]+)"`. */
  function TakeQuoted(s: string): (r: Option<(string, string)>)
    ensures r.Some? ==> |r.value.1| < |s|
  {
    if s == "" then None
    else if s[0] == '"' then Some(("", s[1..]))
    else
      var r := TakeQuoted(s[1..]);
      if r.None? then None else Some(([s[0]] + r.value.0, r.value.1))
  }

  /** `,\s*"([^"]+)"\]` at the start of s: the quoted text and the rest. */
  function MatchSecond(s: string): (r: Option<(string, string)>)
    ensures r.Some? ==> |r.value.1| < |s|
  {
    if !("," <= s) then None else
    var t := SkipSpaces(s[1..]);
    if !("\"" <= t) then None else
    var b := TakeQuoted(t[1..]);
    if b.None? || b.value.0 == "" || !("]" <= b.value.1) then None else
    Some((b.value.0, b.value.1[1..]))
  }

  /** `endpoints:\s*\["([^"]+)",\s*"([^"]+)"\]` at the start of s: the pair and the rest. */
  function MatchEndpoints(s: string): (r: Option<(Endpoints, string)>)
    ensures r.Some? ==> |r.value.1| < |s|
  {
    if !("endpoints:" <= s) then None else
    var t := SkipSpaces(s[10..]);
    if !("[\"" <= t) then None else
    var a := TakeQuoted(t[2..]);
    if a.None? || a.value.0 == "" then None else
    var b := MatchSecond(a.value.1);
    if b.None? then None else
    Some((Endpoints(a.value.0, b.value.0), b.value.1))
  }

  /** The global match: every leftmost, non-overlapping pair of endpoints in the text. */
  function EndpointPairs(s: string): seq<Endpoints>
    decreases |s|
  {
    if s == "" then [] else
    var m := MatchEndpoints(s);
    if m.Some? then [m.value.0] + EndpointPairs(m.value.1) else EndpointPairs(s[1..])
  }

  // ----- The scanner -----

  function NodesLine(lines: seq<string>): (r: nat)
    ensures r <= |lines|
  {
    if lines == [] || IsNodesLine(lines[0]) then 0 else 1 + NodesLine(lines[1..])
  }

  /** The indent of the first child line, or -1 when the block has none. */
  function NodeNameIndent(lines: seq<string>, nodesIndent: int): int {
    if lines == [] then -1
    else if IsSkipped(lines[0]) then NodeNameIndent(lines[1..], nodesIndent)
    else if Indent(lines[0]) <= nodesIndent then -1
    else Indent(lines[0])
  }

  function Flush(current: Option<ParsedNode>): seq<ParsedNode> {
    if current.Some? then [current.value] else []
  }

  function WithProperties(node: ParsedNode, line: string): ParsedNode {
    var k, m := Token(line, "kind:"), Token(line, "image:");
    node.(kind := if k.Some? then k.value else node.kind,
          image := if m.Some? then m.value else node.image)
  }

  function ScanNodes(lines: seq<string>, nodesIndent: int, nameIndent: int, current: Option<ParsedNode>)
    : seq<ParsedNode>
  {
    if lines == [] then Flush(current) else
    var line, rest := lines[0], lines[1..];
    if IsSkipped(line) then ScanNodes(rest, nodesIndent, nameIndent, current)
    else if Indent(line) <= nodesIndent then Flush(current)
    else if Indent(line) == nameIndent then
      var m := NameOnLine(line);
      if m.Some? && m.value !in NODE_PROPERTIES
      then Flush(current) + ScanNodes(rest, nodesIndent, nameIndent, Some(ParsedNode(m.value, "linux", "", [])))
      else ScanNodes(rest, nodesIndent, nameIndent, current)
    else if current.Some? && Indent(line) > nameIndent then
      ScanNodes(rest, nodesIndent, nameIndent, Some(WithProperties(current.value, line)))
    else ScanNodes(rest, nodesIndent, nameIndent, current)
  }

  function NodesOf(lines: seq<string>): seq<ParsedNode> {
    var n := NodesLine(lines);
    if n == |lines| then [] else
    var nodesIndent := Indent(lines[n]);
    var nameIndent := NodeNameIndent(lines[n + 1..], nodesIndent);
    if nameIndent > nodesIndent then ScanNodes(lines[n + 1..], nodesIndent, nameIndent, None) else []
  }

  /** The two parts `str.split(":")` is destructured into; a missing one counts as "". */
  function EndOf(s: string): LinkEnd {
    var parts := Split(s, ':');
    LinkEnd(parts[0], if |parts| > 1 then parts[1] else "")
  }

  /** The link of a pair of endpoints, when all four parts are non-empty. */
  function LinkOf(p: Endpoints): Option<ParsedLink> {
    var a, b := EndOf(p.a), EndOf(p.b);
    if a.node != "" && a.iface != "" && b.node != "" && b.iface != ""
    then Some(ParsedLink(a, b)) else None
  }

  function LinksOf(pairs: seq<Endpoints>): seq<ParsedLink> {
    if pairs == [] then [] else
    (var l := LinkOf(pairs[0]); if l.Some? then [l.value] else []) + LinksOf(pairs[1..])
  }

  /** `find` by name: the index of the first node so called, or the length. */
  function IndexOfNode(nodes: seq<ParsedNode>, name: string): (r: nat)
    ensures r <= |nodes|
    ensures r < |nodes| ==> nodes[r].name == name
    ensures forall i | 0 <= i < r :: nodes[i].name != name
  {
    if nodes == [] || nodes[0].name == name then 0 else 1 + IndexOfNode(nodes[1..], name)
  }

  function AddInterface(nodes: seq<ParsedNode>, end: LinkEnd): seq<ParsedNode> {
    var i := IndexOfNode(nodes, end.node);
    if i < |nodes| && end.iface !in nodes[i].interfaces
    then nodes[i := nodes[i].(interfaces := nodes[i].interfaces + [end.iface])]
    else nodes
  }

  function AddInterfaces(nodes: seq<ParsedNode>, links: seq<ParsedLink>): seq<ParsedNode>
    decreases links
  {
    if links == [] then nodes
    else AddInterfaces(AddInterface(AddInterface(nodes, links[0].a), links[0].b), links[1..])
  }

  function Parsed(yaml: string): ParsedTopology {
    var links := LinksOf(EndpointPairs(yaml));
    ParsedTopology(NameFrom(yaml, true), AddInterfaces(NodesOf(Split(yaml, '\n')), links), links)
  }

  // ----- The loops -----

  method ParseContainerlabYAML(yaml: string) returns (result: ParsedTopology)
    ensures result == Parsed(yaml)
  {
    var lines := Split(yaml, '\n');
    var name := NameFrom(yaml, true);
    var nodesStart := 0;
    while nodesStart < |lines| && !IsNodesLine(lines[nodesStart])
      invariant nodesStart <= |lines|
      invariant NodesLine(lines) == nodesStart + NodesLine(lines[nodesStart..])
    {
      nodesStart := nodesStart + 1;
    }
    var nodes := [];
    if nodesStart < |lines| {
      var nodesIndent := Indent(lines[nodesStart]);
      var nodeNameIndent := FirstChildIndent(lines[nodesStart + 1..], nodesIndent);
      if nodeNameIndent > nodesIndent {
        nodes := ScanNodeBlock(lines[nodesStart + 1..], nodesIndent, nodeNameIndent);
      }
    }
    var links;
    links, nodes := CollectLinks(EndpointPairs(yaml), nodes);
    result := ParsedTopology(name, nodes, links);
  }

  method FirstChildIndent(lines: seq<string>, nodesIndent: int) returns (indent: int)
    ensures indent == NodeNameIndent(lines, nodesIndent)
  {
    for i := 0 to |lines|
      invariant NodeNameIndent(lines, nodesIndent) == NodeNameIndent(lines[i..], nodesIndent)
    {
      if IsSkipped(lines[i]) {
        continue;
      }
      return if Indent(lines[i]) <= nodesIndent then -1 else Indent(lines[i]);
    }
    indent := -1;
  }

  method ScanNodeBlock(lines: seq<string>, nodesIndent: int, nodeNameIndent: int) returns (nodes: seq<ParsedNode>)
    ensures nodes == ScanNodes(lines, nodesIndent, nodeNameIndent, None)
  {
    hide IsSkipped, Indent, NameOnLine, WithProperties, Token, SkipSpaces;
    nodes := [];
    var currentNode: Option<ParsedNode> := None;
    for i := 0 to |lines|
      invariant nodes + ScanNodes(lines[i..], nodesIndent, nodeNameIndent, currentNode)
             == ScanNodes(lines, nodesIndent, nodeNameIndent, None)
    {
      var line := lines[i];
      assert lines[i..][0] == line && lines[i..][1..] == lines[i + 1..];
      if IsSkipped(line) {
        continue;
      }
      var indent := Indent(line);
      if indent <= nodesIndent {
        break;
      }
      if indent == nodeNameIndent {
        var m := NameOnLine(line);
        if m.Some? && m.value !in NODE_PROPERTIES {
          nodes := nodes + Flush(currentNode);
          currentNode := Some(ParsedNode(m.value, "linux", "", []));
        }
        continue;
      }
      if currentNode.Some? && indent > nodeNameIndent {
        var node := ReadProperties(currentNode.value, line);
        currentNode := Some(node);
      }
    }
    nodes := nodes + Flush(currentNode);
  }

  method ReadProperties(current: ParsedNode, line: string) returns (node: ParsedNode)
    ensures node == WithProperties(current, line)
  {
    node := current;
    var kindMatch := Token(line, "kind:");
    if kindMatch.Some? {
      node := node.(kind := kindMatch.value);
    }
    var imageMatch := Token(line, "image:");
    if imageMatch.Some? {
      node := node.(image := imageMatch.value);
    }
  }

  method CollectLinks(pairs: seq<Endpoints>, parsed: seq<ParsedNode>)
    returns (links: seq<ParsedLink>, nodes: seq<ParsedNode>)
    ensures links == LinksOf(pairs)
    ensures nodes == AddInterfaces(parsed, links)
  {
    hide EndOf, AddInterface, IndexOfNode, Split;
    links, nodes := [], parsed;
    for i := 0 to |pairs|
      invariant links + LinksOf(pairs[i..]) == LinksOf(pairs)
      invariant AddInterfaces(nodes, LinksOf(pairs[i..])) == AddInterfaces(parsed, LinksOf(pairs))
    {
      assert pairs[i..][0] == pairs[i] && pairs[i..][1..] == pairs[i + 1..];
      var a, b := EndOf(pairs[i].a), EndOf(pairs[i].b);
      if a.node != "" && a.iface != "" && b.node != "" && b.iface != "" {
        assert LinksOf(pairs[i..]) == [ParsedLink(a, b)] + LinksOf(pairs[i + 1..]);
        links := links + [ParsedLink(a, b)];
        nodes := AddInterface(AddInterface(nodes, a), b);
      } else {
        assert LinksOf(pairs[i..]) == LinksOf(pairs[i + 1..]);
      }
    }
  }
}
