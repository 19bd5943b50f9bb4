/** What stands on which line of the builder's printed text
    (frontend/app/src/lib/yaml-generator.ts). */
module PrintedText {
  import opened Text
  import opened TopologyPrinter

  predicate OneLineNode(n: BuilderNode) {
    '\n' !in n.name && '\n' !in n.clabKind && '\n' !in n.dockerImage && forall cmd | cmd in n.exec :: '\n' !in cmd
  }

  /** No field holds a newline. */
  predicate OneLineFields(state: BuilderState) {
    && '\n' !in state.name
    && (forall n | n in state.nodes :: OneLineNode(n))
    && (forall l | l in state.links :: '\n' !in l.sourceIface && '\n' !in l.targetIface)
  }

  /** How a node's config reaches it: an FRR node by two binds, a MikroTik, OpenWrt or FreeBSD node by a
      start-up config, any other not at all. */
  function ConfigLines(n: BuilderNode): seq<string> {
    if n.clabKind == "linux" && Contains(n.dockerImage, "frrouting/frr") then
      ["      binds:",
       "        - " + n.name + "-daemons:/etc/frr/daemons",
       "        - " + n.name + ".conf:/etc/frr/frr.conf"]
    else if n.clabKind == "mikrotik_ros" then ["      startup-config: " + n.name + ".rsc"]
    else if n.clabKind == "openwrt" || n.clabKind == "freebsd" then ["      startup-config: " + n.name + "-config.sh"]
    else []
  }

  /** Lines `from` to `to` are the node's: name, kind, image, config, and its commands in order. */
  predicate NodeStands(text: seq<string>, from: nat, to: nat, n: BuilderNode) {
    var c, e := |ConfigLines(n)|, |n.exec|;
    && from + 3 + c + (if e == 0 then 0 else 1 + e) == to <= |text|
    && text[from] == "    " + n.name + ":"
    && text[from + 1] == "      kind: " + n.clabKind
    && text[from + 2] == "      image: " + n.dockerImage
    && text[from + 3..from + 3 + c] == ConfigLines(n)
    && (e > 0 ==> text[from + 3 + c] == "      exec:")
    && forall i | 0 <= i < e :: text[from + 4 + c + i] == "        - " + n.exec[i]
  }

  lemma ConfigLinesPrinted(n: BuilderNode)
    ensures DeliveryLines(n) == ConfigLines(n)
  {
    hide Contains;
  }

  lemma NodePrinted(text: seq<string>, from: nat, n: BuilderNode)
    requires from + |NodeLines(n)| <= |text| && text[from..from + |NodeLines(n)|] == NodeLines(n)
    ensures NodeStands(text, from, from + |NodeLines(n)|, n)
  {
    hide DeliveryLines, ConfigLines;
    ConfigLinesPrinted(n);
    var lines := NodeLines(n);
    var c := |ConfigLines(n)|;
    assert forall i | 0 <= i < |lines| :: text[from + i] == lines[i];
    assert lines[3..3 + c] == ConfigLines(n);
    assert text[from + 3..from + 3 + c] == lines[3..3 + c];
    if n.exec != [] {
      assert lines[3 + c] == "      exec:";
      forall i | 0 <= i < |n.exec|
        ensures text[from + 4 + c + i] == "        - " + n.exec[i]
      {
        assert lines[4 + c + i] == ExecLines(n)[1 + i] == ItemLines(n.exec)[i];
      }
    }
  }

  lemma {:induction false} NodesPrinted(text: seq<string>, from: nat, nodes: seq<BuilderNode>) returns (at: seq<nat>)
    requires from + |AllNodeLines(nodes)| <= |text|
    requires text[from..from + |AllNodeLines(nodes)|] == AllNodeLines(nodes)
    ensures |at| == |nodes| + 1 && at[0] == from && at[|nodes|] == from + |AllNodeLines(nodes)|
    ensures forall i | 0 <= i < |nodes| :: NodeStands(text, at[i], at[i + 1], nodes[i])
    decreases nodes
  {
    hide NodeLines, NodeStands;
    if nodes == [] {
      at := [from];
    } else {
      var first, all := NodeLines(nodes[0]), AllNodeLines(nodes);
      assert text[from..from + |first|] == all[..|first|] == first;
      assert text[from + |first|..from + |all|] == all[|first|..] == AllNodeLines(nodes[1..]);
      NodePrinted(text, from, nodes[0]);
      var rest := NodesPrinted(text, from + |first|, nodes[1..]);
      at := [from] + rest;
      forall i | 0 <= i < |nodes|
        ensures NodeStands(text, at[i], at[i + 1], nodes[i])
      {
        if i > 0 {
          assert NodeStands(text, rest[i - 1], rest[i], nodes[1..][i - 1]);
        }
      }
    }
  }

  lemma ConfigOnOneLine(n: BuilderNode)
    requires '\n' !in n.name
    ensures NoneHas(ConfigLines(n), '\n')
  {
    hide Contains;
  }

  lemma NodeOnOneLine(n: BuilderNode)
    requires OneLineNode(n)
    ensures NoneHas(NodeLines(n), '\n')
  {
    hide DeliveryLines, ConfigLines;
    ConfigLinesPrinted(n);
    ConfigOnOneLine(n);
    CommandsOnOneLine(n.exec);
    hide ItemLines;
    assert NoneHas(ExecLines(n), '\n');
  }

  lemma CommandsOnOneLine(cmds: seq<string>)
    requires forall cmd | cmd in cmds :: '\n' !in cmd
    ensures NoneHas(ItemLines(cmds), '\n')
  {
    forall i | 0 <= i < |cmds|
      ensures '\n' !in ItemLines(cmds)[i]
    {
      assert cmds[i] in cmds;
    }
  }

  lemma {:induction false} NodesOnOneLine(nodes: seq<BuilderNode>)
    requires forall n | n in nodes :: OneLineNode(n)
    ensures NoneHas(AllNodeLines(nodes), '\n')
  {
    hide NodeLines;
    if nodes != [] {
      NodeOnOneLine(nodes[0]);
      NodesOnOneLine(nodes[1..]);
    }
  }

  lemma {:induction false} LinksOnOneLine(nodes: seq<BuilderNode>, links: seq<BuilderLink>)
    requires forall n | n in nodes :: '\n' !in n.name
    requires forall l | l in links :: '\n' !in l.sourceIface && '\n' !in l.targetIface
    ensures NoneHas(LinkLines(nodes, links), '\n')
  {
    if links != [] {
      LinksOnOneLine(nodes, links[1..]);
      assert links[0] in links;
    }
  }

  /** The printed text, line by line: the name, two fixed lines, the nodes one after the other, and the
      links. Node i stands on lines at[i] to at[i + 1]. */
  lemma TextLineByLine(state: BuilderState) returns (at: seq<nat>)
    requires OneLineFields(state)
    ensures var text := Split(Printed(state), '\n');
      && |text| >= 4
      && text[0] == "name: " + (if state.name == "" then "untitled" else state.name)
      && text[1] == "template:" && text[2] == "  nodes:"
      && |at| == |state.nodes| + 1 && at[0] == 3 && at[|state.nodes|] < |text|
      && (forall i | 0 <= i < |state.nodes| :: NodeStands(text, at[i], at[i + 1], state.nodes[i]))
      && text[at[|state.nodes|]] == (if state.links == [] then "" else "  links:")
      && text[|text| - 1] == ""
  {
    hide AllNodeLines, LinkLines, Split, NodeStands, Unlines;
    var nodes, lines := AllNodeLines(state.nodes), PrintedLines(state);
    NodesOnOneLine(state.nodes);
    LinksOnOneLine(state.nodes, state.links);
    assert NoneHas(Header(state), '\n');
    SplitUnlines(lines, "");
    SplitWhole("", '\n');
    assert Unlines(lines) + "" == Unlines(lines);
    var text := lines + [""];
    assert text[..3] == Header(state) && text[3..3 + |nodes|] == nodes;
    assert text[3 + |nodes|..] == LinkSection(state) + [""];
    at := NodesPrinted(text, 3, state.nodes);
    assert text[3 + |nodes|] == (LinkSection(state) + [""])[0];
  }
}
