/** Overriding the images of a whole topology, whatever the order Go's map iteration takes, and
    what is delivered with the result (platform/internal/domain/lab/service.go,
    platform/internal/domain/template/loader.go). */
module ImageOverrides {
  import opened Text
  import opened NosOverrides

  datatype OverrideError = NoTopology | NoNodes | NodeNotFound(name: string) | Unresolved(name: string)

  datatype Result<+T> = Ok(value: T) | Err(error: OverrideError)

  datatype Image = Image(clabKind: string, dockerImage: string)

  /** The image a NOS image id stands for, if the resolver knows it. */
  type Resolver = string -> Option<Image>

  /** Replaces kind and image and rewrites the config delivery for them. */
  function Overridden(node: Node, name: string, image: Image): Node {
    Rewritten(node["kind" := Str(image.clabKind)]["image" := Str(image.dockerImage)], name,
              ResolveNosKind(image.clabKind, image.dockerImage))
  }

  /** A node to override that the document and the resolver both know. */
  predicate Overridable(nodes: Node, images: map<string, string>, resolve: Resolver, name: string)
    requires name in images
  {
    name in nodes && nodes[name].Dict? && resolve(images[name]).Some?
  }

  function OverriddenNodes(nodes: Node, images: map<string, string>, resolve: Resolver, done: set<string>): Node
    requires done <= images.Keys && forall n | n in done :: Overridable(nodes, images, resolve, n)
  {
    map n | n in nodes ::
      if n in done then
        assert Overridable(nodes, images, resolve, n);
        Dict(Overridden(nodes[n].fields, n, resolve(images[n]).value))
      else nodes[n]
  }

  /** The nodes that became Nokia SR Linux. */
  function SrlNodes(images: map<string, string>, resolve: Resolver, done: set<string>): set<string> {
    set n | n in done && n in images && resolve(images[n]).Some? && resolve(images[n]).value.clabKind == "srl"
  }

  // ----- Links -----

  /** `ethN` becomes `e1-N` on the overridden nodes. */
  function RewriteEndpoint(ep: string, srl: set<string>): string {
    var node := SourceOf(ep);
    if ':' !in ep || |node| + 1 > |ep| || node !in srl then ep
    else
      var iface := ep[|node| + 1..];
      if "eth" <= iface then node + ":e1-" + iface[3..] else ep
  }

  function RewriteValue(v: Yaml, srl: set<string>): Yaml {
    if v.Str? then Str(RewriteEndpoint(v.text, srl)) else v
  }

  function RewriteLink(link: Yaml, srl: set<string>): Yaml {
    if link.Dict? && "endpoints" in link.fields && link.fields["endpoints"].List?
       && |link.fields["endpoints"].items| == 2
    then
      var ends := link.fields["endpoints"].items;
      Dict(link.fields["endpoints" := List([RewriteValue(ends[0], srl), RewriteValue(ends[1], srl)])])
    else link
  }

  function RewriteLinks(links: seq<Yaml>, srl: set<string>): (r: seq<Yaml>)
    ensures |r| == |links| && forall i | 0 <= i < |links| :: r[i] == RewriteLink(links[i], srl)
  {
    if links == [] then [] else [RewriteLink(links[0], srl)] + RewriteLinks(links[1..], srl)
  }

  /** The topology section with its links rewritten, when it has a list of them. */
  function RewriteLinkSection(section: Node, srl: set<string>): Node {
    if "links" in section && section["links"].List?
    then section["links" := List(RewriteLinks(section["links"].items, srl))] else section
  }

  method RewriteLinksForSRL(section: Node, srl: set<string>) returns (r: Node)
    ensures r == RewriteLinkSection(section, srl)
  {
    hide RewriteLink;
    if "links" !in section || !section["links"].List? {
      return section;
    }
    var links := section["links"].items;
    for i := 0 to |links|
      invariant |links| == |section["links"].items|
      invariant forall k | 0 <= k < i :: links[k] == RewriteLink(section["links"].items[k], srl)
      invariant forall k | i <= k < |links| :: links[k] == section["links"].items[k]
    {
      var link := RewriteOneLink(links[i], srl);
      links := links[i := link];
    }
    assert links == RewriteLinks(section["links"].items, srl);
    r := section["links" := List(links)];
  }

  /** The loop over the two endpoints of one link. */
  method RewriteOneLink(link: Yaml, srl: set<string>) returns (r: Yaml)
    ensures r == RewriteLink(link, srl)
  {
    hide RewriteEndpoint;
    if !link.Dict? || "endpoints" !in link.fields || !link.fields["endpoints"].List?
       || |link.fields["endpoints"].items| != 2 {
      return link;
    }
    var was := link.fields["endpoints"].items;
    var ends := was;
    for i := 0 to 2
      invariant |ends| == 2
      invariant forall k | 0 <= k < 2 :: ends[k] == if k < i then RewriteValue(was[k], srl) else was[k]
    {
      if ends[i].Str? {
        ends := ends[i := Str(RewriteEndpoint(ends[i].text, srl))];
      }
    }
    assert ends == [RewriteValue(was[0], srl), RewriteValue(was[1], srl)];
    r := Dict(link.fields["endpoints" := List(ends)]);
  }

  // ----- The whole document -----

  function SectionOf(topo: Node): Option<Node> {
    if "topology" in topo && topo["topology"].Dict? then Some(topo["topology"].fields) else None
  }

  function NodesOf(topo: Node): Option<Node> {
    var section := SectionOf(topo);
    if section.Some? && "nodes" in section.value && section.value["nodes"].Dict?
    then Some(section.value["nodes"].fields) else None
  }

  predicate AllOverridable(nodes: Node, images: map<string, string>, resolve: Resolver) {
    forall n | n in images :: Overridable(nodes, images, resolve, n)
  }

  /** The error names a node to override, and what is wrong with it: the document has no section for it, or
      has one and the resolver does not know its image. */
  predicate Explains(e: OverrideError, nodes: Node, images: map<string, string>, resolve: Resolver) {
    && (e.NodeNotFound? || e.Unresolved?) && e.name in images
    && if e.NodeNotFound? then e.name !in nodes || !nodes[e.name].Dict?
       else e.name in nodes && nodes[e.name].Dict? && resolve(images[e.name]).None?
  }

  /** The document a successful override gives: no iteration order occurs in it. */
  function OverriddenTopology(topo: Node, images: map<string, string>, resolve: Resolver): Node
    requires NodesOf(topo).Some? && AllOverridable(NodesOf(topo).value, images, resolve)
  {
    var section := SectionOf(topo).value;
    var nodes := OverriddenNodes(NodesOf(topo).value, images, resolve, images.Keys);
    var srl := SrlNodes(images, resolve, images.Keys);
    topo["topology" := Dict(RewriteLinkSection(section["nodes" := Dict(nodes)], srl))]
  }

  /** The loop takes the nodes in any order; a failure names some node that has one. */
  method ApplyImageOverrides(topo: Node, images: map<string, string>, resolve: Resolver) returns (r: Result<Node>)
    ensures SectionOf(topo).None? ==> r == Err(NoTopology)
    ensures SectionOf(topo).Some? && NodesOf(topo).None? ==> r == Err(NoNodes)
    ensures NodesOf(topo).Some? ==>
              (r.Ok? <==> AllOverridable(NodesOf(topo).value, images, resolve))
              && (r.Ok? ==> r.value == OverriddenTopology(topo, images, resolve))
              && (r.Err? ==> Explains(r.error, NodesOf(topo).value, images, resolve))
  {
    hide Overridden, RewriteLinkSection, SrlNodes, OverriddenNodes;
    var section := SectionOf(topo);
    if section.None? {
      return Err(NoTopology);
    }
    var nodes := NodesOf(topo);
    if nodes.None? {
      return Err(NoNodes);
    }
    var overridden := OverrideNodes(nodes.value, images, resolve);
    if overridden.Err? {
      return Err(overridden.error);
    }
    var (result, srl) := overridden.value;
    var edited := section.value["nodes" := Dict(result)];
    if |srl| > 0 {
      edited := RewriteLinksForSRL(edited, srl);
    } else {
      NoSrlNoRewrite(edited);
    }
    r := Ok(topo["topology" := Dict(edited)]);
  }

  /** The loop over the images, in any order. */
  method OverrideNodes(nodes: Node, images: map<string, string>, resolve: Resolver)
    returns (r: Result<(Node, set<string>)>)
    ensures r.Ok? <==> AllOverridable(nodes, images, resolve)
    ensures r.Ok? ==>
              r.value == (OverriddenNodes(nodes, images, resolve, images.Keys), SrlNodes(images, resolve, images.Keys))
    ensures r.Err? ==> Explains(r.error, nodes, images, resolve)
  {
    hide Overridden, SrlNodes, OverriddenNodes;
    NothingDone(nodes, images, resolve);
    var result, srl := nodes, {};
    var todo := images.Keys;
    assert images.Keys - todo == {};
    while todo != {}
      invariant todo <= images.Keys
      invariant forall n | n in images.Keys - todo :: Overridable(nodes, images, resolve, n)
      invariant result == OverriddenNodes(nodes, images, resolve, images.Keys - todo)
      invariant srl == SrlNodes(images, resolve, images.Keys - todo)
      decreases |todo|
    {
      var name :| name in todo;
      NotYetOverridden(nodes, images, resolve, images.Keys - todo, name);
      if name !in result || !result[name].Dict? {
        return Err(NodeNotFound(name));
      }
      var image := resolve(images[name]);
      if image.None? {
        return Err(Unresolved(name));
      }
      OneMoreOverride(nodes, images, resolve, images.Keys - todo, name);
      assert images.Keys - (todo - {name}) == images.Keys - todo + {name};
      var fields := OverrideNode(result[name].fields, name, image.value);
      result := result[name := Dict(fields)];
      if image.value.clabKind == "srl" {
        srl := srl + {name};
      }
      todo := todo - {name};
    }
    assert images.Keys - todo == images.Keys;
    r := Ok((result, srl));
  }

  lemma NotYetOverridden(nodes: Node, images: map<string, string>, resolve: Resolver, done: set<string>, name: string)
    requires done <= images.Keys && name !in done && forall n | n in done :: Overridable(nodes, images, resolve, n)
    ensures var now := OverriddenNodes(nodes, images, resolve, done);
      (name in now <==> name in nodes) && (name in nodes ==> now[name] == nodes[name])
  {
    hide Overridden;
  }

  lemma NothingDone(nodes: Node, images: map<string, string>, resolve: Resolver)
    ensures OverriddenNodes(nodes, images, resolve, {}) == nodes && SrlNodes(images, resolve, {}) == {}
  {
  }

  method OverrideNode(fields: Node, name: string, image: Image) returns (r: Node)
    ensures r == Overridden(fields, name, image)
  {
    hide Rewritten;
    var data := new NodeData(fields);
    data.fields := data.fields["kind" := Str(image.clabKind)];
    data.fields := data.fields["image" := Str(image.dockerImage)];
    data.RewriteNodeConfig(name, ResolveNosKind(image.clabKind, image.dockerImage));
    r := data.fields;
  }

  lemma OneMoreOverride(nodes: Node, images: map<string, string>, resolve: Resolver, done: set<string>, name: string)
    requires done <= images.Keys && name in images && name !in done
    requires forall n | n in done + {name} :: Overridable(nodes, images, resolve, n)
    ensures var before := OverriddenNodes(nodes, images, resolve, done);
      && name in before && before[name] == nodes[name]
      && OverriddenNodes(nodes, images, resolve, done + {name})
         == before[name := Dict(Overridden(nodes[name].fields, name, resolve(images[name]).value))]
    ensures SrlNodes(images, resolve, done + {name})
         == SrlNodes(images, resolve, done) + (if resolve(images[name]).value.clabKind == "srl" then {name} else {})
  {
    hide Overridden;
  }

  lemma NoSrlNoRewrite(section: Node)
    ensures RewriteLinkSection(section, {}) == section
  {
    if "links" in section && section["links"].List? {
      forall i | 0 <= i < |section["links"].items|
        ensures RewriteLink(section["links"].items[i], {}) == section["links"].items[i]
      {
        NoSrlNoLinkRewrite(section["links"].items[i]);
      }
      assert RewriteLinks(section["links"].items, {}) == section["links"].items;
    }
  }

  lemma NoSrlNoLinkRewrite(link: Yaml)
    ensures RewriteLink(link, {}) == link
  {
    if link.Dict? && "endpoints" in link.fields && link.fields["endpoints"].List?
       && |link.fields["endpoints"].items| == 2
    {
      var ends := link.fields["endpoints"].items;
      assert [RewriteValue(ends[0], {}), RewriteValue(ends[1], {})] == ends;
    }
  }

  // ----- Every iteration order -----

  /** The loop under a given iteration order, as a fold over it. */
  function InOrder(nodes: Node, images: map<string, string>, resolve: Resolver, order: seq<string>)
    : Result<(Node, set<string>)>
    requires forall n | n in order :: n in images
  {
    if order == [] then Ok((nodes, {}))
    else
      var init, name := order[..|order| - 1], order[|order| - 1];
      var r := InOrder(nodes, images, resolve, init);
      if r.Err? then r
      else
        var (current, srl) := r.value;
        if name !in current || !current[name].Dict? then Err(NodeNotFound(name))
        else
          var image := resolve(images[name]);
          if image.None? then Err(Unresolved(name))
          else Ok((current[name := Dict(Overridden(current[name].fields, name, image.value))],
                   srl + (if image.value.clabKind == "srl" then {name} else {})))
  }

  predicate NoRepeats(order: seq<string>) {
    forall i, j | 0 <= i < j < |order| :: order[i] != order[j]
  }

  function Names(order: seq<string>): set<string> {
    set n | n in order
  }

  lemma {:induction false} OrderDoesNotMatter(nodes: Node, images: map<string, string>, resolve: Resolver,
                                              order: seq<string>)
    requires NoRepeats(order) && Names(order) <= images.Keys
    ensures var r := InOrder(nodes, images, resolve, order);
      && (r.Ok? <==> forall n | n in order :: Overridable(nodes, images, resolve, n))
      && (r.Ok? ==> r.value == (OverriddenNodes(nodes, images, resolve, Names(order)),
                                SrlNodes(images, resolve, Names(order))))
  {
    hide Overridden;
    if order == [] {
      assert Names(order) == {} && SrlNodes(images, resolve, {}) == {};
      assert OverriddenNodes(nodes, images, resolve, {}) == nodes;
    } else {
      var init, name := order[..|order| - 1], order[|order| - 1];
      assert order == init + [name];
      assert Names(order) == Names(init) + {name} && name !in Names(init);
      OrderDoesNotMatter(nodes, images, resolve, init);
      var r := InOrder(nodes, images, resolve, init);
      if r.Ok? && Overridable(nodes, images, resolve, name) {
        OneMoreOverride(nodes, images, resolve, Names(init), name);
      }
      assert forall n | n in order :: n in init || n == name;
    }
  }

  /** Two orders of the same nodes succeed together and then give the same nodes. */
  lemma AnyTwoOrders(nodes: Node, images: map<string, string>, resolve: Resolver, a: seq<string>, b: seq<string>)
    requires NoRepeats(a) && NoRepeats(b) && Names(a) == Names(b) == images.Keys
    ensures var x, y := InOrder(nodes, images, resolve, a), InOrder(nodes, images, resolve, b);
      (x.Ok? <==> y.Ok?) && (x.Ok? ==> x == y)
  {
    hide InOrder, OverriddenNodes, SrlNodes;
    OrderDoesNotMatter(nodes, images, resolve, a);
    OrderDoesNotMatter(nodes, images, resolve, b);
    assert forall n | n in a :: n in Names(a);
    assert forall n | n in b :: n in Names(b);
    assert forall n | n in Names(a) :: n in a && n in b;
  }

  // ----- Laws of the link rewrite -----

  lemma FirstColon(s: string) returns (i: nat)
    requires ':' in s
    ensures i < |s| && s[i] == ':' && ':' !in s[..i]
  {
    i := 0;
    while s[i] != ':'
      invariant i < |s| && ':' !in s[..i] && ':' in s[i..]
      decreases |s| - i
    {
      i := i + 1;
    }
  }

  lemma EndpointParts(ep: string)
    ensures ':' !in SourceOf(ep)
    ensures ':' in ep ==> |SourceOf(ep)| < |ep| && ep == SourceOf(ep) + ":" + ep[|SourceOf(ep)| + 1..]
    ensures ':' !in ep ==> SourceOf(ep) == ep
  {
    hide Split;
    if ':' in ep {
      var i := FirstColon(ep);
      SplitOff(ep[..i], ':', ep[i + 1..]);
      assert ep == ep[..i] + [':'] + ep[i + 1..];
    } else {
      SplitWhole(ep, ':');
    }
  }

  /** The interface of an endpoint, after its first colon. */
  function InterfaceOf(ep: string): string {
    if |SourceOf(ep)| < |ep| then ep[|SourceOf(ep)| + 1..] else ""
  }

  /** The rewrite keeps the node, is idempotent, and changes exactly the `eth` interfaces of the
      overridden nodes. */
  lemma EndpointLaws(ep: string, srl: set<string>)
    ensures var r := RewriteEndpoint(ep, srl);
      && SourceOf(r) == SourceOf(ep)
      && RewriteEndpoint(r, srl) == r
      && (r != ep <==> ':' in ep && SourceOf(ep) in srl && "eth" <= InterfaceOf(ep))
      && (r != ep ==> InterfaceOf(r) == "e1-" + InterfaceOf(ep)[3..])
  {
    hide SourceOf;
    EndpointParts(ep);
    var node, iface, r := SourceOf(ep), InterfaceOf(ep), RewriteEndpoint(ep, srl);
    if ':' in ep && node in srl && "eth" <= iface {
      var iface' := "e1-" + iface[3..];
      SourceUpToColon(node, iface');
      assert r == node + [':'] + iface';
      assert r[|node| + 1..] == iface' && iface'[1] != iface[1];
      assert !("eth" <= iface') by { assert "eth"[1] == 't'; }
      assert ep[|node| + 1..] == iface;
    }
  }

  lemma LinkRewriteTwice(link: Yaml, srl: set<string>)
    ensures RewriteLink(RewriteLink(link, srl), srl) == RewriteLink(link, srl)
  {
    hide RewriteEndpoint;
    if link.Dict? && "endpoints" in link.fields && link.fields["endpoints"].List?
       && |link.fields["endpoints"].items| == 2
    {
      var ends := link.fields["endpoints"].items;
      if ends[0].Str? { EndpointLaws(ends[0].text, srl); }
      if ends[1].Str? { EndpointLaws(ends[1].text, srl); }
    }
  }

  lemma LinkRewriteIdempotent(section: Node, srl: set<string>)
    ensures RewriteLinkSection(RewriteLinkSection(section, srl), srl) == RewriteLinkSection(section, srl)
  {
    hide RewriteLink;
    if "links" in section && section["links"].List? {
      var links := section["links"].items;
      var once := RewriteLinks(links, srl);
      forall i | 0 <= i < |links| ensures RewriteLink(once[i], srl) == once[i] {
        LinkRewriteTwice(links[i], srl);
      }
      assert RewriteLinks(once, srl) == once;
    }
  }
}
