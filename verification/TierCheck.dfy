/** The tier test of a deployment: no node may run a NOS beyond the organisation's plan
    (platform/internal/domain/lab/service.go, platform/internal/plan/plan.go). */
module TierCheck {
  import opened Text
  import opened NosOverrides
  import opened ImageOverrides
  import opened ConfigDelivery
  import Plan

  /** Entries that are no dictionary are skipped. */
  predicate Permitted(entry: Yaml, orgPlan: string) {
    entry.Dict? ==>
      Plan.TierAllowed(orgPlan, Plan.NosImageTier(TextField(entry.fields, "kind"), TextField(entry.fields, "image")))
  }

  /** A document without a node map has nothing to refuse. */
  predicate AllPermitted(topo: Node, orgPlan: string) {
    var nodes := ImageOverrides.NodesOf(topo);
    nodes.Some? ==> forall n | n in nodes.value :: Permitted(nodes.value[n], orgPlan)
  }

  /** The plan the refusal names: "requires this plan or higher". */
  function TierMinPlan(tier: string): string {
    if tier == "midweight" then "light" else if tier == "heavyweight" then "heavy" else "free"
  }

  /** The node the refusal names, if there is one. */
  method CheckNosTiers(topo: Node, orgPlan: string) returns (refused: Option<string>)
    ensures refused.None? <==> AllPermitted(topo, orgPlan)
    ensures refused.Some? ==>
              var nodes := ImageOverrides.NodesOf(topo);
              nodes.Some? && refused.value in nodes.value && !Permitted(nodes.value[refused.value], orgPlan)
  {
    hide Permitted;
    var nodes := ImageOverrides.NodesOf(topo);
    if nodes.None? {
      return None;
    }
    var todo := nodes.value.Keys;
    while todo != {}
      invariant todo <= nodes.value.Keys
      invariant forall n | n in nodes.value.Keys - todo :: Permitted(nodes.value[n], orgPlan)
      decreases |todo|
    {
      var name :| name in todo;
      if !Permitted(nodes.value[name], orgPlan) {
        return Some(name);
      }
      todo := todo - {name};
    }
    return None;
  }

  /** The order of the plans; an unknown one counts as "free". */
  function Rank(planName: string): nat {
    if planName == "heavy" then 2 else if planName == "light" then 1 else 0
  }

  /** The refusal names the right plan: a tier is allowed exactly under that plan and higher ones. */
  lemma MinPlanIsLeast(clabKind: string, dockerImage: string, orgPlan: string)
    ensures var tier := Plan.NosImageTier(clabKind, dockerImage);
      Plan.TierAllowed(orgPlan, tier) <==> Rank(orgPlan) >= Rank(TierMinPlan(tier))
  {
    var tiers := Plan.Get(orgPlan).allowedNosTiers;
    assert tiers[0] == "lightweight";
    assert Rank(orgPlan) >= 1 ==> tiers[1] == "midweight";
    assert Rank(orgPlan) == 2 ==> tiers[2] == "heavyweight";
  }

  /** A document that passes under a plan passes under every higher one. */
  lemma HigherPlanPermitsMore(topo: Node, lower: string, higher: string)
    requires Rank(lower) <= Rank(higher) && AllPermitted(topo, lower)
    ensures AllPermitted(topo, higher)
  {
    hide Plan.Get, Plan.NosImageTier, Plan.TierAllowed, Rank, TierMinPlan;
    var nodes := ImageOverrides.NodesOf(topo);
    if nodes.Some? {
      forall n | n in nodes.value && nodes.value[n].Dict?
        ensures Permitted(nodes.value[n], higher)
      {
        var fields := nodes.value[n].fields;
        assert Permitted(nodes.value[n], lower);
        MinPlanIsLeast(TextField(fields, "kind"), TextField(fields, "image"), lower);
        MinPlanIsLeast(TextField(fields, "kind"), TextField(fields, "image"), higher);
      }
    }
  }

  /** An override cannot carry an image past the plan: if the overridden document passes, the
      plan allows the tier of every image that was chosen. */
  lemma OverridesAreChecked(topo: Node, images: map<string, string>, resolve: Resolver, orgPlan: string, name: string)
    requires ImageOverrides.NodesOf(topo).Some? && AllOverridable(ImageOverrides.NodesOf(topo).value, images, resolve)
    requires name in images && AllPermitted(OverriddenTopology(topo, images, resolve), orgPlan)
    ensures resolve(images[name]).Some?
    ensures var image := resolve(images[name]).value;
      Plan.TierAllowed(orgPlan, Plan.NosImageTier(image.clabKind, image.dockerImage))
  {
    hide OverriddenTopology, Plan.TierAllowed, Plan.NosImageTier, ResolveNosKind, Rewritten, Plan.Get;
    OverriddenKind(topo, images, resolve, name);
    var image := resolve(images[name]).value;
    var node := ImageOverrides.NodesOf(topo).value[name].fields;
    RewriteKeepsImage(node["kind" := Str(image.clabKind)]["image" := Str(image.dockerImage)], name,
                      ResolveNosKind(image.clabKind, image.dockerImage));
    var entry := Dict(Overridden(node, name, image));
    assert Permitted(entry, orgPlan);
  }
}
