/** What an override leaves of a document, which content is sent for a path, and when a deployment is
    prepared, in the terms of the documents (platform/internal/domain/lab/service.go,
    platform/internal/domain/template/loader.go). */
module DocumentLaws {
  import opened Text
  import opened NosOverrides
  import opened ImageOverrides
  import opened ConfigDelivery
  import opened TierCheck
  import opened DeployPreparation
  import Plan

  // ----- Links -----

  /** `node:ethN` becomes `node:e1-N` for the given nodes; any other endpoint is kept. */
  lemma EndRewritten(node: string, iface: string, srl: set<string>)
    requires ':' !in node
    ensures RewriteEndpoint(node, srl) == node
    ensures RewriteEndpoint(node + ":" + iface, srl)
         == if node in srl && "eth" <= iface then node + ":e1-" + iface[3..] else node + ":" + iface
  {
    hide SourceOf;
    SourceUpToColon(node, iface);
    var ep := node + ":" + iface;
    assert ep == node + [':'] + iface && ep[|node|] == ':' && ep[|node| + 1..] == iface;
  }

  function EndAfter(v: Yaml, srl: set<string>): Yaml {
    if v.Str? then Str(RewriteEndpoint(v.text, srl)) else v
  }

  predicate HasTwoEnds(link: Yaml) {
    && link.Dict? && "endpoints" in link.fields && link.fields["endpoints"].List?
    && |link.fields["endpoints"].items| == 2
  }

  /** Both ends of a link are rewritten, its other fields are kept, and what is no link of two ends is kept
      as it is. */
  lemma BothEndsRewritten(link: Yaml, srl: set<string>)
    ensures !HasTwoEnds(link) ==> RewriteLink(link, srl) == link
    ensures HasTwoEnds(link) ==>
              var r, ends := RewriteLink(link, srl), link.fields["endpoints"].items;
              && HasTwoEnds(r) && r.fields.Keys == link.fields.Keys
              && r.fields["endpoints"].items[0] == EndAfter(ends[0], srl)
              && r.fields["endpoints"].items[1] == EndAfter(ends[1], srl)
              && forall k | k in link.fields && k != "endpoints" :: r.fields[k] == link.fields[k]
  {
    hide RewriteEndpoint;
  }

  // ----- The whole document -----

  /** The nodes that are given an image of kind srl. */
  ghost predicate BecomesSrl(images: map<string, string>, resolve: Resolver, n: string) {
    n in images && resolve(images[n]).Some? && resolve(images[n]).value.clabKind == "srl"
  }

  lemma SrlExactly(images: map<string, string>, resolve: Resolver, n: string)
    ensures n in SrlNodes(images, resolve, images.Keys) <==> BecomesSrl(images, resolve, n)
  {
  }

  /** An override gives every node it is for the new kind and image, and leaves the other nodes, and
      everything that is no node or link, alone. */
  lemma OverrideChangesOnlyItsNodes(topo: Node, images: map<string, string>, resolve: Resolver)
    requires ImageOverrides.NodesOf(topo).Some? && AllOverridable(ImageOverrides.NodesOf(topo).value, images, resolve)
    ensures var out, was := OverriddenTopology(topo, images, resolve), ImageOverrides.NodesOf(topo).value;
      && (forall k | k != "topology" :: (k in out <==> k in topo) && (k in topo ==> out[k] == topo[k]))
      && ImageOverrides.NodesOf(out).Some?
      && var nodes := ImageOverrides.NodesOf(out).value;
         && nodes.Keys == was.Keys
         && (forall n | n in was && n !in images :: nodes[n] == was[n])
         && (forall n | n in images ::
               && n in nodes && nodes[n].Dict? && resolve(images[n]).Some?
               && "kind" in nodes[n].fields && nodes[n].fields["kind"] == Str(resolve(images[n]).value.clabKind)
               && "image" in nodes[n].fields && nodes[n].fields["image"] == Str(resolve(images[n]).value.dockerImage))
  {
    hide RewriteLinks, Rewritten, ResolveNosKind, SrlNodes;
    var was := ImageOverrides.NodesOf(topo).value;
    forall n | n in images
      ensures Overridable(was, images, resolve, n)
      ensures var image := resolve(images[n]).value; var o := Overridden(was[n].fields, n, image);
        "kind" in o && o["kind"] == Str(image.clabKind) && "image" in o && o["image"] == Str(image.dockerImage)
    {
      assert Overridable(was, images, resolve, n);
      var image := resolve(images[n]).value;
      RewriteKeepsImage(was[n].fields["kind" := Str(image.clabKind)]["image" := Str(image.dockerImage)], n,
                        ResolveNosKind(image.clabKind, image.dockerImage));
    }
  }

  /** Of the topology section, the links are rewritten for the nodes that become SR Linux, and all but nodes
      and links is kept. */
  lemma OverrideRewritesLinks(topo: Node, images: map<string, string>, resolve: Resolver)
    requires ImageOverrides.NodesOf(topo).Some? && AllOverridable(ImageOverrides.NodesOf(topo).value, images, resolve)
    ensures var out, was := SectionOf(OverriddenTopology(topo, images, resolve)), SectionOf(topo).value;
      var srl := SrlNodes(images, resolve, images.Keys);
      && out.Some? && out.value.Keys == was.Keys
      && (forall k | k in was && k != "nodes" && k != "links" :: out.value[k] == was[k])
      && ("links" in was && !was["links"].List? ==> out.value["links"] == was["links"])
      && ("links" in was && was["links"].List? ==>
            && out.value["links"].List? && |out.value["links"].items| == |was["links"].items|
            && forall i | 0 <= i < |was["links"].items| ::
                 out.value["links"].items[i] == RewriteLink(was["links"].items[i], srl))
  {
    hide OverriddenNodes, SrlNodes, RewriteLink;
  }

  // ----- The files sent -----

  /** Content is sent for a path as the last file has it that is for everyone or for one of the kinds. */
  ghost predicate IsLastFor(files: seq<BindFile>, kinds: set<string>, path: string, i: int) {
    && 0 <= i < |files| && files[i].path == path && (files[i].nosKind == "" || files[i].nosKind in kinds)
    && forall j | i < j < |files| && files[j].path == path :: files[j].nosKind != "" && files[j].nosKind !in kinds
  }

  lemma {:induction false} ContentSent(files: seq<BindFile>, kinds: set<string>, path: string, i: int)
    requires IsLastFor(files, kinds, path, i)
    ensures path in FilesFor(files, kinds) && FilesFor(files, kinds)[path] == files[i].content
    decreases |files|
  {
    var init := files[..|files| - 1];
    if i < |init| {
      assert forall j | 0 <= j < |init| :: init[j] == files[j];
      ContentSent(init, kinds, path, i);
      assert files[|files| - 1].path == path ==> !Wanted(files[|files| - 1], kinds);
    }
  }

  /** The profiles in use are those of the document's nodes, as their kind and image texts give them. */
  lemma KindsInUse(topo: Node, k: string)
    ensures k in KindsIn(topo)
       <==> && k != "" && ImageOverrides.NodesOf(topo).Some?
            && exists n :: n in ImageOverrides.NodesOf(topo).value
                           && HasProfile(ImageOverrides.NodesOf(topo).value[n], k)
  {
    hide ResolveNosKind;
    if k in KindsIn(topo) {
      var nodes := ImageOverrides.NodesOf(topo).value;
      var n :| n in nodes && KindOf(nodes[n]) != "" && KindOf(nodes[n]) == k;
      assert HasProfile(nodes[n], k);
    }
  }

  predicate HasProfile(entry: Yaml, k: string) {
    && entry.Dict?
    && k == ResolveNosKind(
              if "kind" in entry.fields && entry.fields["kind"].Str? then entry.fields["kind"].text else "",
              if "image" in entry.fields && entry.fields["image"].Str? then entry.fields["image"].text else "")
  }

  // ----- The tier test and the whole preparation -----

  predicate WithinPlan(entry: Yaml, orgPlan: string) {
    entry.Dict? ==>
      Plan.TierAllowed(orgPlan, Plan.NosImageTier(
        if "kind" in entry.fields && entry.fields["kind"].Str? then entry.fields["kind"].text else "",
        if "image" in entry.fields && entry.fields["image"].Str? then entry.fields["image"].text else ""))
  }

  /** Every node is tested, whether it was overridden or not. */
  lemma EveryNodeTested(topo: Node, orgPlan: string)
    ensures AllPermitted(topo, orgPlan)
       <==> (ImageOverrides.NodesOf(topo).Some? ==>
               forall n | n in ImageOverrides.NodesOf(topo).value ::
                 WithinPlan(ImageOverrides.NodesOf(topo).value[n], orgPlan))
  {
    hide Plan.TierAllowed, Plan.NosImageTier;
    if ImageOverrides.NodesOf(topo).Some? {
      var nodes := ImageOverrides.NodesOf(topo).value;
      assert forall n | n in nodes :: Permitted(nodes[n], orgPlan) <==> WithinPlan(nodes[n], orgPlan);
    }
  }

  /** A cloud lab needs its definition only, and is sent it unchanged without files. */
  lemma CloudPreparation(req: Request, orgPlan: string)
    requires req.cloud
    ensures Preparable(req, orgPlan) <==> req.definition.Some?
    ensures FinalDefinition(req) == req.definition
    ensures req.definition.Some? ==> FilesSent(req, req.definition.value) == map[]
  {
  }

  /** A network lab without image choices is sent its definition unchanged, if the files load and every node
      of a definition that can be decoded is within the plan. */
  lemma PlainPreparation(req: Request, orgPlan: string)
    requires !req.cloud && req.images == map[]
    ensures Preparable(req, orgPlan)
       <==> && req.definition.Some? && req.files.Some?
            && (req.definition.value.Document? ==> AllPermitted(req.definition.value.topo, orgPlan))
    ensures FinalDefinition(req) == req.definition
  {
    hide AllPermitted;
  }

  /** With image choices the definition has to be decoded, a resolver has to be there, every choice has to be
      possible, and the tier test is made on the overridden document. */
  lemma ChosenPreparation(req: Request, orgPlan: string)
    requires !req.cloud && req.images != map[]
    ensures Preparable(req, orgPlan)
       <==> && req.definition.Some? && req.files.Some? && req.resolver.Some? && req.definition.value.Document?
            && var topo := req.definition.value.topo;
               && ImageOverrides.NodesOf(topo).Some?
               && AllOverridable(ImageOverrides.NodesOf(topo).value, req.images, req.resolver.value)
               && AllPermitted(OverriddenTopology(topo, req.images, req.resolver.value), orgPlan)
    ensures Preparable(req, orgPlan) ==>
              FinalDefinition(req) == Some(Document(OverriddenTopology(req.definition.value.topo, req.images,
                                                                       req.resolver.value)))
  {
    hide AllPermitted, OverriddenTopology, AllOverridable;
  }
}
