/** What a deployment does before it changes the lab: it loads the definition, overrides images,
    tests NOS tiers and loads the bind files (platform/internal/domain/lab/service.go). */
module DeployPreparation {
  import opened Text
  import opened NosOverrides
  import opened ImageOverrides
  import opened ConfigDelivery
  import opened TierCheck
  import Plan

  /** The template's text; an undecodable one is sent on as it is unless images are overridden. */
  datatype Definition = Document(topo: Node) | Undecodable(text: string)

  /** `None` stands for a definition or files that cannot be loaded, or a missing resolver. */
  datatype Request = Request(cloud: bool, definition: Option<Definition>, images: map<string, string>,
                             resolver: Option<Resolver>, files: Option<seq<BindFile>>)

  /** What goes to the worker. */
  datatype Payload = Payload(definition: Definition, files: map<string, string>)

  datatype Refusal =
    | NotLoaded
    | NoResolver
    | NotDecodable
    | NotOverridden(error: OverrideError)
    | BeyondPlan(node: string)
    | FilesNotLoaded

  datatype Outcome = Ready(payload: Payload) | Refused(why: Refusal)

  predicate CanOverride(req: Request) {
    && req.resolver.Some? && req.definition.Some? && req.definition.value.Document?
    && ImageOverrides.NodesOf(req.definition.value.topo).Some?
    && AllOverridable(ImageOverrides.NodesOf(req.definition.value.topo).value, req.images, req.resolver.value)
  }

  /** The definition that is sent, if the images can be overridden. */
  function FinalDefinition(req: Request): Option<Definition> {
    if req.definition.None? || req.cloud || req.images == map[] then req.definition
    else if CanOverride(req)
    then Some(Document(OverriddenTopology(req.definition.value.topo, req.images, req.resolver.value)))
    else None
  }

  /** An undecodable definition passes the tier test. */
  predicate Permits(d: Definition, orgPlan: string) {
    d.Document? ==> AllPermitted(d.topo, orgPlan)
  }

  predicate Preparable(req: Request, orgPlan: string) {
    var d := FinalDefinition(req);
    d.Some? && (req.cloud || (Permits(d.value, orgPlan) && req.files.Some?))
  }

  function FilesOf(files: seq<BindFile>, d: Definition): map<string, string> {
    if d.Document? then Delivered(files, d.topo) else AllFiles(files)
  }

  function FilesSent(req: Request, d: Definition): map<string, string> {
    if req.cloud || req.files.None? then map[] else FilesOf(req.files.value, d)
  }

  /** The refusal says what is wrong. */
  predicate Justified(why: Refusal, req: Request, orgPlan: string) {
    && (why.NotLoaded? ==> req.definition.None?)
    && (why.FilesNotLoaded? ==> req.files.None?)
    && (why.NoResolver? ==> req.images != map[] && req.resolver.None?)
    && (why.NotDecodable? ==> req.images != map[] && req.definition.Some? && req.definition.value.Undecodable?)
    && (why.NotOverridden? ==>
          req.images != map[] && req.resolver.Some? && req.definition.Some? && req.definition.value.Document?
          && !CanOverride(req))
    && (why.BeyondPlan? ==>
          FinalDefinition(req).Some? && FinalDefinition(req).value.Document?
          && Beyond(FinalDefinition(req).value.topo, why.node, orgPlan))
  }

  predicate Beyond(topo: Node, name: string, orgPlan: string) {
    var nodes := ImageOverrides.NodesOf(topo);
    nodes.Some? && name in nodes.value && !Permitted(nodes.value[name], orgPlan)
  }

  /** A deployment is prepared exactly when it can be, and then sends the overridden definition with
      the files its nodes want. */
  method Prepare(req: Request, orgPlan: string) returns (r: Outcome)
    ensures r.Ready? <==> Preparable(req, orgPlan)
    ensures r.Refused? ==> Justified(r.why, req, orgPlan) && (r.why.NotLoaded? || !req.cloud)
    ensures r.Ready? ==>
              var d := FinalDefinition(req).value;
              r.payload == Payload(d, FilesSent(req, d))
  {
    hide OverriddenTopology, AllOverridable, AllPermitted, KindsIn, FilesFor, AllFiles, Permitted;
    if req.definition.None? {
      return Refused(NotLoaded);
    }
    var d := req.definition.value;
    if req.cloud {
      return Ready(Payload(d, map[]));
    }
    if req.images != map[] {
      var overridden := OverrideImages(d, req.images, req.resolver);
      if overridden.Refused? {
        return overridden;
      }
      d := overridden.payload.definition;
    }
    assert FinalDefinition(req) == Some(d);
    if d.Document? {
      var refused := CheckNosTiers(d.topo, orgPlan);
      if refused.Some? {
        return Refused(BeyondPlan(refused.value));
      }
    }
    if req.files.None? {
      return Refused(FilesNotLoaded);
    }
    var files := LoadBindFiles(req.files.value, d);
    r := Ready(Payload(d, files));
  }

  /** The override step; its payload carries no files yet. */
  method OverrideImages(d: Definition, images: map<string, string>, resolver: Option<Resolver>) returns (r: Outcome)
    ensures r.Ready? <==>
              && resolver.Some? && d.Document? && ImageOverrides.NodesOf(d.topo).Some?
              && AllOverridable(ImageOverrides.NodesOf(d.topo).value, images, resolver.value)
    ensures r.Ready? ==> r.payload == Payload(Document(OverriddenTopology(d.topo, images, resolver.value)), map[])
    ensures r.Refused? ==>
              && (r.why.NoResolver? || r.why.NotDecodable? || r.why.NotOverridden?)
              && (r.why.NoResolver? ==> resolver.None?) && (r.why.NotDecodable? ==> d.Undecodable?)
              && (r.why.NotOverridden? ==> resolver.Some? && d.Document?)
  {
    hide OverriddenTopology, Overridable;
    if resolver.None? {
      return Refused(NoResolver);
    }
    if d.Undecodable? {
      return Refused(NotDecodable);
    }
    var result := ApplyImageOverrides(d.topo, images, resolver.value);
    if result.Err? {
      return Refused(NotOverridden(result.error));
    }
    r := Ready(Payload(Document(result.value), map[]));
  }

  method LoadBindFiles(files: seq<BindFile>, d: Definition) returns (r: map<string, string>)
    ensures r == FilesOf(files, d)
  {
    hide KindsIn, FilesFor, AllFiles;
    var nosKinds: seq<string> := [];
    if d.Document? {
      nosKinds := ExtractNosKinds(d.topo);
    }
    ghost var kindSet := set k | k in nosKinds;
    if |nosKinds| > 0 {
      assert nosKinds[0] in kindSet;
      r := GetBindFilesForNos(files, nosKinds);
    } else {
      assert kindSet == {};
      r := GetBindFiles(files);
    }
  }

  /** A network lab that can be deployed runs no overridden image beyond the plan, and gets every file
      the template has for the profile of an overridden node. */
  lemma PreparedIsPermitted(req: Request, orgPlan: string, name: string, f: BindFile)
    requires Preparable(req, orgPlan) && !req.cloud && name in req.images && f in req.files.value
    ensures CanOverride(req) && req.resolver.value(req.images[name]).Some?
    ensures var image := req.resolver.value(req.images[name]).value;
      && Plan.TierAllowed(orgPlan, Plan.NosImageTier(image.clabKind, image.dockerImage))
      && (f.nosKind == ResolveNosKind(image.clabKind, image.dockerImage) ==>
            f.path in FilesSent(req, FinalDefinition(req).value))
  {
    hide OverriddenTopology, AllPermitted, Delivered, RefersTo, ConfigPaths, Plan.TierAllowed, Plan.NosImageTier,
         ResolveNosKind, Plan.Get;
    assert req.images != map[];
    var topo := req.definition.value.topo;
    OverridesAreChecked(topo, req.images, req.resolver.value, orgPlan, name);
    OverriddenKind(topo, req.images, req.resolver.value, name);
    DeliveryClosure(topo, req.images, req.resolver.value, req.files.value, name, f);
  }
}
