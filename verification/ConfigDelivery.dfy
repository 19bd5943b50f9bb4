/** Which config files travel with a deployment, and that they are the ones its nodes refer to
    (platform/internal/domain/lab/service.go, platform/internal/domain/template/loader.go). */
module ConfigDelivery {
  import opened Text
  import opened NosOverrides
  import opened ImageOverrides

  datatype BindFile = BindFile(path: string, content: string, nosKind: string)

  /** A string field of a node; "" when it is missing or no string. */
  function TextField(node: Node, key: string): string {
    if key in node && node[key].Str? then node[key].text else ""
  }

  /** The config profile of one entry of the node map; "" for none. */
  function KindOf(entry: Yaml): string {
    if entry.Dict? then ResolveNosKind(TextField(entry.fields, "kind"), TextField(entry.fields, "image")) else ""
  }

  /** The profiles in use, as the deploy step extracts them from the final document. */
  function KindsIn(topo: Node): set<string> {
    var nodes := ImageOverrides.NodesOf(topo);
    if nodes.None? then {} else set n | n in nodes.value && KindOf(nodes.value[n]) != "" :: KindOf(nodes.value[n])
  }

  /** The set of profiles, and from it the list, in whatever order the map yields them. */
  method ExtractNosKinds(topo: Node) returns (kinds: seq<string>)
    ensures (set k | k in kinds) == KindsIn(topo)
    ensures forall i, j | 0 <= i < j < |kinds| :: kinds[i] != kinds[j]
  {
    hide KindOf;
    kinds := [];
    var nodes := ImageOverrides.NodesOf(topo);
    if nodes.None? {
      return;
    }
    var kindSet, todo := {}, nodes.value.Keys;
    while todo != {}
      invariant todo <= nodes.value.Keys
      invariant kindSet
             == set n | n in nodes.value.Keys - todo && KindOf(nodes.value[n]) != "" :: KindOf(nodes.value[n])
      decreases |todo|
    {
      var name :| name in todo;
      var kind := KindOf(nodes.value[name]);
      if kind != "" {
        kindSet := kindSet + {kind};
      }
      todo := todo - {name};
    }
    kinds := InAnyOrder(kindSet);
  }

  method InAnyOrder(kindSet: set<string>) returns (kinds: seq<string>)
    ensures (set k | k in kinds) == kindSet
    ensures forall i, j | 0 <= i < j < |kinds| :: kinds[i] != kinds[j]
  {
    kinds := [];
    var todo := kindSet;
    while todo != {}
      invariant todo <= kindSet && (forall k :: k in kinds <==> k in kindSet - todo)
      invariant forall i, j | 0 <= i < j < |kinds| :: kinds[i] != kinds[j]
      decreases |todo|
    {
      var k :| k in todo;
      assert k !in kinds;
      kinds := kinds + [k];
      todo := todo - {k};
    }
  }

  /** Universal, or tagged with one of the kinds. */
  predicate Wanted(f: BindFile, kinds: set<string>) {
    f.nosKind == "" || f.nosKind in kinds
  }

  /** Path to content; of two files with one path the later stays. */
  function FilesFor(files: seq<BindFile>, kinds: set<string>): map<string, string> {
    if files == [] then map[]
    else
      var init, f := FilesFor(files[..|files| - 1], kinds), files[|files| - 1];
      if Wanted(f, kinds) then init[f.path := f.content] else init
  }

  function AllFiles(files: seq<BindFile>): map<string, string> {
    if files == [] then map[]
    else AllFiles(files[..|files| - 1])[files[|files| - 1].path := files[|files| - 1].content]
  }

  /** What Deploy loads for the final document. */
  function Delivered(files: seq<BindFile>, topo: Node): map<string, string> {
    if KindsIn(topo) == {} then AllFiles(files) else FilesFor(files, KindsIn(topo))
  }

  method GetBindFilesForNos(files: seq<BindFile>, nosKinds: seq<string>) returns (result: map<string, string>)
    ensures result == FilesFor(files, set k | k in nosKinds)
  {
    var kindSet := {};
    for i := 0 to |nosKinds|
      invariant kindSet == set k | k in nosKinds[..i]
    {
      assert nosKinds[..i + 1] == nosKinds[..i] + [nosKinds[i]];
      kindSet := kindSet + {nosKinds[i]};
    }
    assert nosKinds[..|nosKinds|] == nosKinds;
    result := map[];
    for i := 0 to |files|
      invariant result == FilesFor(files[..i], kindSet)
    {
      assert files[..i + 1][..i] == files[..i];
      var f := files[i];
      if f.nosKind == "" || f.nosKind in kindSet {
        result := result[f.path := f.content];
      }
    }
    assert files[..|files|] == files;
  }

  method GetBindFiles(files: seq<BindFile>) returns (result: map<string, string>)
    ensures result == AllFiles(files)
  {
    result := map[];
    for i := 0 to |files|
      invariant result == AllFiles(files[..i])
    {
      assert files[..i + 1][..i] == files[..i];
      result := result[files[i].path := files[i].content];
    }
    assert files[..|files|] == files;
  }

  // ----- Exactly the wanted files -----

  lemma {:induction false} PathsFor(files: seq<BindFile>, kinds: set<string>, path: string)
    ensures path in FilesFor(files, kinds) <==> exists f :: f in files && f.path == path && Wanted(f, kinds)
    ensures path in AllFiles(files) <==> exists f :: f in files && f.path == path
  {
    if files != [] {
      var init, f := files[..|files| - 1], files[|files| - 1];
      PathsFor(init, kinds, path);
      assert forall g :: g in files <==> g in init || g == f;
    }
  }

  /** The paths sent are exactly those of the template's files that are universal or tagged with a
      kind some node uses; when no node uses any kind, all of them. */
  lemma DeliveredExactly(files: seq<BindFile>, topo: Node, path: string)
    ensures path in Delivered(files, topo) <==>
      exists f :: f in files && f.path == path
                  && (KindsIn(topo) == {} || f.nosKind == "" || f.nosKind in KindsIn(topo))
  {
    hide KindsIn;
    PathsFor(files, KindsIn(topo), path);
  }

  // ----- What a rewritten node refers to -----

  /** The config files of a node under a profile. */
  function ConfigPaths(name: string, nosKind: string): set<string> {
    if nosKind in {"srl", "nokia_srlinux"} then {name + ".cfg"}
    else if nosKind in {"sonic-vs", "sonic-vm"} then {name + ".json"}
    else if nosKind == "mikrotik_ros" then {name + ".rsc"}
    else if nosKind == "frr" then {name + "-daemons", name + ".conf"}
    else if nosKind in {"openwrt", "freebsd"} then {name + "-config.sh"}
    else {}
  }

  /** The node names the file as its start-up config or as the source of one of its own binds. */
  ghost predicate RefersTo(node: Node, name: string, path: string) {
    || ("startup-config" in node && node["startup-config"] == Str(path))
    || exists b :: b in ExistingBinds(node) && b.Str? && IsNodeConfigBind(b.text, name) && SourceOf(b.text) == path
  }

  lemma {:induction false} KeptAreForeign(binds: seq<Yaml>, name: string, b: Yaml)
    requires b in KeptBinds(binds, name)
    ensures IsKept(b, name)
  {
    hide IsKept;
    if binds != [] && b in KeptBinds(binds[1..], name) {
      KeptAreForeign(binds[1..], name, b);
    }
  }

  lemma ForeignBindsAfterClearing(node: Node, name: string, b: Yaml)
    requires b in ExistingBinds(WithoutConfig(node, name))
    ensures IsKept(b, name)
  {
    if "binds" in node && node["binds"].List? {
      KeptAreForeign(node["binds"].items, name, b);
    }
  }

  /** A rewritten node refers to its profile's config files and to no other file of its own, except
      that a colon in its name breaks the FRR binds apart. */
  lemma RewrittenRefersTo(node: Node, name: string, k: string, path: string)
    ensures RefersTo(Rewritten(node, name, k), name, path)
       <==> path in ConfigPaths(name, k) && (k == "frr" ==> ':' !in name)
  {
    hide IsNodeConfigBind, WithoutConfig, SourceOf, Daemons, FrrConf, KeptBinds;
    var w, r := WithoutConfig(node, name), Rewritten(node, name, k);
    NoStartup(node, name);
    DeliveredBindsAreOwn(name);
    forall b | b in ExistingBinds(w) ensures IsKept(b, name) {
      ForeignBindsAfterClearing(node, name, b);
    }
    var d, c := Str(Daemons(name)), Str(FrrConf(name));
    assert ExistingBinds(r) == if k == "frr" then ExistingBinds(w) + [d, c] else ExistingBinds(w);
    if k == "frr" {
      assert d in ExistingBinds(r) && c in ExistingBinds(r);
      assert forall b | b in ExistingBinds(r) :: b in ExistingBinds(w) || b == d || b == c;
    }
  }

  lemma OverriddenKind(topo: Node, images: map<string, string>, resolve: Resolver, name: string)
    requires ImageOverrides.NodesOf(topo).Some? && AllOverridable(ImageOverrides.NodesOf(topo).value, images, resolve)
    requires name in images
    ensures Overridable(ImageOverrides.NodesOf(topo).value, images, resolve, name)
    ensures var out := ImageOverrides.NodesOf(OverriddenTopology(topo, images, resolve));
      var image := resolve(images[name]).value;
      && out.Some? && name in out.value
      && out.value[name] == Dict(Overridden(ImageOverrides.NodesOf(topo).value[name].fields, name, image))
      && KindOf(out.value[name]) == ResolveNosKind(image.clabKind, image.dockerImage)
  {
    hide RewriteLinks, ResolveNosKind, KeptBinds, IsNodeConfigBind;
    assert Overridable(ImageOverrides.NodesOf(topo).value, images, resolve, name);
    var image := resolve(images[name]).value;
    var node := ImageOverrides.NodesOf(topo).value[name].fields;
    RewriteKeepsImage(node["kind" := Str(image.clabKind)]["image" := Str(image.dockerImage)], name,
                      ResolveNosKind(image.clabKind, image.dockerImage));
  }

  lemma RewriteKeepsImage(node: Node, name: string, k: string)
    requires "kind" in node && "image" in node
    ensures var r := Rewritten(node, name, k);
      "kind" in r && r["kind"] == node["kind"] && "image" in r && r["image"] == node["image"]
  {
    hide KeptBinds;
  }

  /** Every file the template has under an overridden node's new profile is delivered, whatever the
      node is called. Its own config files are among those as far as it refers to them, which it
      does unless it runs FRR and has a colon in its name. */
  lemma DeliveryClosure(topo: Node, images: map<string, string>, resolve: Resolver, files: seq<BindFile>,
                        name: string, f: BindFile)
    requires ImageOverrides.NodesOf(topo).Some? && AllOverridable(ImageOverrides.NodesOf(topo).value, images, resolve)
    requires name in images && f in files
    ensures var out := OverriddenTopology(topo, images, resolve);
      var node := ImageOverrides.NodesOf(out).value[name];
      && node.Dict?
      && (f.nosKind == KindOf(node) ==> f.path in Delivered(files, out))
      && (RefersTo(node.fields, name, f.path) <==>
            f.path in ConfigPaths(name, KindOf(node)) && (KindOf(node) == "frr" ==> ':' !in name))
  {
    hide OverriddenTopology, RefersTo, ConfigPaths, ResolveNosKind, Rewritten;
    OverriddenKind(topo, images, resolve, name);
    var image := resolve(images[name]).value;
    var k := ResolveNosKind(image.clabKind, image.dockerImage);
    var node := ImageOverrides.NodesOf(topo).value[name].fields;
    RewrittenRefersTo(node["kind" := Str(image.clabKind)]["image" := Str(image.dockerImage)], name, k, f.path);
    var out := OverriddenTopology(topo, images, resolve);
    DeliveredExactly(files, out, f.path);
    assert k != "" ==> k in KindsIn(out);
  }
}
