/** The topology builder's state and its containerlab text
    (frontend/app/src/lib/yaml-generator.ts). */
module TopologyPrinter {
  import opened Text

  datatype BuilderNode = BuilderNode(id: string, name: string, clabKind: string, dockerImage: string,
                                     exec: seq<string>)

  datatype BuilderLink = BuilderLink(id: string, sourceNodeId: string, sourceIface: string,
                                     targetNodeId: string, targetIface: string)

  datatype BuilderState = BuilderState(name: string, nodes: seq<BuilderNode>, links: seq<BuilderLink>)

  /** The config profile of a node; "" when the builder delivers no config for it. */
  function ResolveNosKind(clabKind: string, dockerImage: string): string {
    if clabKind in {"mikrotik_ros", "openwrt", "freebsd"} then clabKind
    else if clabKind == "linux" && Contains(dockerImage, "frrouting/frr") then "frr"
    else if clabKind == "linux" && Contains(dockerImage, "gobgp") then "gobgp"
    else ""
  }

  /** `nodes.find((n) => n.id === id)` */
  function FindById(nodes: seq<BuilderNode>, id: string): (r: Option<BuilderNode>)
    ensures r.Some? ==> r.value in nodes && r.value.id == id
    ensures r.None? ==> forall n | n in nodes :: n.id != id
  {
    if nodes == [] then None
    else if nodes[0].id == id then Some(nodes[0])
    else FindById(nodes[1..], id)
  }

  // ----- The lines of the text -----

  const NAME_KEY := "name: "
  const KIND_LINE := "      kind: "
  const IMAGE_LINE := "      image: "
  const STARTUP_LINE := "      startup-config: "
  const ITEM_LINE := "        - "

  function DisplayName(state: BuilderState): string {
    if state.name == "" then "untitled" else state.name
  }

  function NameLine(name: string): string {
    "    " + name + ":"
  }

  function DeliveryLines(n: BuilderNode): seq<string> {
    var kind := ResolveNosKind(n.clabKind, n.dockerImage);
    if kind == "mikrotik_ros" then [STARTUP_LINE + n.name + ".rsc"]
    else if kind == "openwrt" || kind == "freebsd" then [STARTUP_LINE + n.name + "-config.sh"]
    else if kind == "frr" then
      ["      binds:",
       ITEM_LINE + n.name + "-daemons:/etc/frr/daemons",
       ITEM_LINE + n.name + ".conf:/etc/frr/frr.conf"]
    else []
  }

  function ItemLines(cmds: seq<string>): (r: seq<string>)
    ensures |r| == |cmds| && forall i | 0 <= i < |cmds| :: r[i] == ITEM_LINE + cmds[i]
  {
    if cmds == [] then [] else [ITEM_LINE + cmds[0]] + ItemLines(cmds[1..])
  }

  function ExecLines(n: BuilderNode): seq<string> {
    if n.exec == [] then [] else ["      exec:"] + ItemLines(n.exec)
  }

  /** The lines of one node after its name, kind and image. */
  function ExtraLines(n: BuilderNode): seq<string> {
    DeliveryLines(n) + ExecLines(n)
  }

  function NodeLines(n: BuilderNode): seq<string> {
    [NameLine(n.name), KIND_LINE + n.clabKind, IMAGE_LINE + n.dockerImage] + ExtraLines(n)
  }

  function AllNodeLines(nodes: seq<BuilderNode>): seq<string> {
    if nodes == [] then [] else NodeLines(nodes[0]) + AllNodeLines(nodes[1..])
  }

  /** One end of a link as it stands between the quotes. */
  function EndText(node: string, iface: string): string {
    node + ":" + iface
  }

  function LinkLine(a: string, b: string): string {
    "    - endpoints: [\"" + a + "\", \"" + b + "\"]"
  }

  /** One line a link; a link whose source or target id names no node is left out. */
  function LinkLines(nodes: seq<BuilderNode>, links: seq<BuilderLink>): seq<string> {
    if links == [] then []
    else
      var l := links[0];
      var src, tgt := FindById(nodes, l.sourceNodeId), FindById(nodes, l.targetNodeId);
      (if src.Some? && tgt.Some? then
         [LinkLine(EndText(src.value.name, l.sourceIface), EndText(tgt.value.name, l.targetIface))]
       else [])
      + LinkLines(nodes, links[1..])
  }

  function LinkSection(state: BuilderState): seq<string> {
    if state.links == [] then [] else ["  links:"] + LinkLines(state.nodes, state.links)
  }

  function Header(state: BuilderState): seq<string> {
    [NAME_KEY + DisplayName(state), "template:", "  nodes:"]
  }

  function PrintedLines(state: BuilderState): seq<string> {
    Header(state) + AllNodeLines(state.nodes) + LinkSection(state)
  }

  /** The whole printed text: every line ends in a newline. */
  function Printed(state: BuilderState): string {
    Unlines(PrintedLines(state))
  }

  method GenerateContainerlabYAML(state: BuilderState) returns (yaml: string)
    ensures yaml == Printed(state)
  {
    var lines := Header(state);
    var i := 0;
    while i < |state.nodes|
      invariant 0 <= i <= |state.nodes|
      invariant lines + AllNodeLines(state.nodes[i..]) == Header(state) + AllNodeLines(state.nodes)
    {
      var before := lines;
      lines := PushNode(lines, state.nodes[i]);
      Assoc(before, NodeLines(state.nodes[i]), AllNodeLines(state.nodes[i + 1..]));
      assert state.nodes[i..][1..] == state.nodes[i + 1..];
      i := i + 1;
    }
    assert lines == Header(state) + AllNodeLines(state.nodes);
    lines := PushLinks(lines, state);
    yaml := Join(lines, '\n') + "\n";
    JoinUnlines(lines);
  }

  /** The loop body for one node. */
  method PushNode(before: seq<string>, node: BuilderNode) returns (lines: seq<string>)
    ensures lines == before + NodeLines(node)
  {
    var block := [NameLine(node.name), KIND_LINE + node.clabKind, IMAGE_LINE + node.dockerImage];
    var delivery := PushDelivery(node);
    block := block + delivery;
    Assoc([NameLine(node.name), KIND_LINE + node.clabKind, IMAGE_LINE + node.dockerImage], delivery, ExecLines(node));
    if |node.exec| > 0 {
      block := block + ["      exec:"];
      block := PushItems(block, node.exec);
    }
    lines := before + block;
  }

  method PushDelivery(node: BuilderNode) returns (lines: seq<string>)
    ensures lines == DeliveryLines(node)
  {
    var nosKind := ResolveNosKind(node.clabKind, node.dockerImage);
    lines := [];
    if nosKind == "mikrotik_ros" {
      lines := lines + [STARTUP_LINE + node.name + ".rsc"];
    } else if nosKind == "openwrt" || nosKind == "freebsd" {
      lines := lines + [STARTUP_LINE + node.name + "-config.sh"];
    } else if nosKind == "frr" {
      lines := lines + ["      binds:"];
      lines := lines + [ITEM_LINE + node.name + "-daemons:/etc/frr/daemons"];
      lines := lines + [ITEM_LINE + node.name + ".conf:/etc/frr/frr.conf"];
    }
  }

  method PushItems(before: seq<string>, cmds: seq<string>) returns (lines: seq<string>)
    ensures lines == before + ItemLines(cmds)
  {
    lines := before;
    for k := 0 to |cmds|
      invariant lines + ItemLines(cmds[k..]) == before + ItemLines(cmds)
    {
      lines := lines + [ITEM_LINE + cmds[k]];
    }
  }

  method PushLinks(before: seq<string>, state: BuilderState) returns (lines: seq<string>)
    ensures lines == before + LinkSection(state)
  {
    lines := before;
    if |state.links| > 0 {
      lines := lines + ["  links:"];
      for j := 0 to |state.links|
        invariant lines + LinkLines(state.nodes, state.links[j..]) == before + LinkSection(state)
      {
        var link := state.links[j];
        var srcNode, tgtNode := FindById(state.nodes, link.sourceNodeId), FindById(state.nodes, link.targetNodeId);
        if srcNode.Some? && tgtNode.Some? {
          lines := lines + [LinkLine(EndText(srcNode.value.name, link.sourceIface),
                                     EndText(tgtNode.value.name, link.targetIface))];
        }
      }
    }
  }
}
