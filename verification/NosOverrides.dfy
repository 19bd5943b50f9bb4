/** How a node of a decoded topology document gets the config delivery of a NOS profile
    (platform/internal/domain/lab/service.go). */
module NosOverrides {
  import opened Text

  /** A decoded YAML value; `Other` covers numbers, booleans and null. */
  datatype Yaml = Str(text: string) | List(items: seq<Yaml>) | Dict(fields: map<string, Yaml>) | Other(literal: string)

  type Node = map<string, Yaml>

  function ResolveNosKind(clabKind: string, image: string): string {
    if clabKind in {"srl", "nokia_srlinux"} then "srl"
    else if clabKind in {"sonic-vs", "sonic-vm"} then "sonic-vs"
    else if clabKind in {"mikrotik_ros", "openwrt", "freebsd"} then clabKind
    else if clabKind != "linux" then ""
    else if Contains(image, "frrouting/frr") || Contains(image, "mirror-frr") then "frr"
    else if Contains(image, "gobgp") || Contains(image, "mirror-gobgp") then "gobgp"
    else if Contains(image, "osvbng") || Contains(image, "mirror-osvbng") then "osvbng"
    else ""
  }

  /** The part of a bind before its first colon. */
  function SourceOf(bind: string): string {
    Split(bind, ':')[0]
  }

  predicate IsNodeConfigBind(bind: string, name: string) {
    SourceOf(bind)
    in {name + ".cfg", name + ".json", name + ".rsc", name + "-daemons", name + ".conf", name + "-config.sh"}
  }

  predicate IsKept(b: Yaml, name: string) {
    b.Str? ==> !IsNodeConfigBind(b.text, name)
  }

  function KeptBinds(binds: seq<Yaml>, name: string): seq<Yaml> {
    if binds == [] then []
    else (if IsKept(binds[0], name) then [binds[0]] else []) + KeptBinds(binds[1..], name)
  }

  /** The node without its start-up config and without its own config binds. */
  function WithoutConfig(node: Node, name: string): Node {
    var n := node - {"startup-config"};
    if "binds" !in n || !n["binds"].List? then n
    else
      var kept := KeptBinds(n["binds"].items, name);
      if kept == [] then n - {"binds"} else n["binds" := List(kept)]
  }

  function Daemons(name: string): string { name + "-daemons:/etc/frr/daemons" }

  function FrrConf(name: string): string { name + ".conf:/etc/frr/frr.conf" }

  function ExistingBinds(node: Node): seq<Yaml> {
    if "binds" in node && node["binds"].List? then node["binds"].items else []
  }

  function WithDelivery(node: Node, name: string, nosKind: string): Node {
    if nosKind in {"srl", "nokia_srlinux"} then node["startup-config" := Str(name + ".cfg")]
    else if nosKind in {"sonic-vs", "sonic-vm"} then node["startup-config" := Str(name + ".json")]
    else if nosKind == "mikrotik_ros" then node["startup-config" := Str(name + ".rsc")]
    else if nosKind == "frr" then node["binds" := List(ExistingBinds(node) + [Str(Daemons(name)), Str(FrrConf(name))])]
    else if nosKind in {"openwrt", "freebsd"} then node["startup-config" := Str(name + "-config.sh")]
    else node
  }

  function Rewritten(node: Node, name: string, nosKind: string): Node {
    WithDelivery(WithoutConfig(node, name), name, nosKind)
  }

  /** A node's map, which the source edits in place. */
  class NodeData {
    var fields: Node

    constructor (fields: Node)
      ensures this.fields == fields
    {
      this.fields := fields;
    }

    method RewriteNodeConfig(name: string, nosKind: string)
      modifies this
      ensures fields == Rewritten(old(fields), name, nosKind)
    {
      hide KeptBinds, IsKept;
      fields := fields - {"startup-config"};
      if "binds" in fields && fields["binds"].List? {
        var kept := KeepBinds(fields["binds"].items, name);
        if |kept| > 0 {
          fields := fields["binds" := List(kept)];
        } else {
          fields := fields - {"binds"};
        }
      }
      AddDelivery(name, nosKind);
    }

    /** The final switch of rewriteNodeConfig. */
    method AddDelivery(name: string, nosKind: string)
      modifies this
      ensures fields == WithDelivery(old(fields), name, nosKind)
    {
      match nosKind {
        case "srl" => fields := fields["startup-config" := Str(name + ".cfg")];
        case "nokia_srlinux" => fields := fields["startup-config" := Str(name + ".cfg")];
        case "sonic-vs" => fields := fields["startup-config" := Str(name + ".json")];
        case "sonic-vm" => fields := fields["startup-config" := Str(name + ".json")];
        case "mikrotik_ros" => fields := fields["startup-config" := Str(name + ".rsc")];
        case "frr" =>
          var existing := [];
          if "binds" in fields && fields["binds"].List? {
            existing := fields["binds"].items;
          }
          fields := fields["binds" := List(existing + [Str(Daemons(name)), Str(FrrConf(name))])];
        case "openwrt" => fields := fields["startup-config" := Str(name + "-config.sh")];
        case "freebsd" => fields := fields["startup-config" := Str(name + "-config.sh")];
        case _ =>
      }
    }
  }

  lemma KeptFrom(binds: seq<Yaml>, i: nat, name: string)
    requires i < |binds|
    ensures KeptBinds(binds[i..], name)
         == (if IsKept(binds[i], name) then [binds[i]] else []) + KeptBinds(binds[i + 1..], name)
  {
    hide IsKept;
    assert binds[i..][0] == binds[i] && binds[i..][1..] == binds[i + 1..];
  }

  method KeepBinds(binds: seq<Yaml>, name: string) returns (kept: seq<Yaml>)
    ensures kept == KeptBinds(binds, name)
  {
    hide IsNodeConfigBind;
    kept := [];
    for i := 0 to |binds|
      invariant kept + KeptBinds(binds[i..], name) == KeptBinds(binds, name)
    {
      hide KeptBinds;
      var b := binds[i];
      KeptFrom(binds, i, name);
      Assoc(kept, [b], KeptBinds(binds[i + 1..], name));
      if !b.Str? {
        kept := kept + [b];
        continue;
      }
      if !IsNodeConfigBind(b.text, name) {
        kept := kept + [b];
      }
    }
  }

  // ----- Laws of the node rewrite -----

  lemma {:induction false} KeptAppend(a: seq<Yaml>, b: seq<Yaml>, name: string)
    ensures KeptBinds(a + b, name) == KeptBinds(a, name) + KeptBinds(b, name)
  {
    hide IsKept;
    if a == [] {
      assert a + b == b;
    } else {
      KeptAppend(a[1..], b, name);
      assert (a + b)[1..] == a[1..] + b && (a + b)[0] == a[0];
      Assoc(if IsKept(a[0], name) then [a[0]] else [], KeptBinds(a[1..], name), KeptBinds(b, name));
    }
  }

  lemma {:induction false} KeptTwice(binds: seq<Yaml>, name: string)
    ensures KeptBinds(KeptBinds(binds, name), name) == KeptBinds(binds, name)
  {
    hide IsKept;
    if binds != [] {
      KeptTwice(binds[1..], name);
      if IsKept(binds[0], name) {
        assert KeptBinds(binds, name)[1..] == KeptBinds(binds[1..], name);
      } else {
        assert KeptBinds(binds, name) == KeptBinds(binds[1..], name);
      }
    }
  }

  /** Unrelated binds survive, in their order: the one at position i moves to the position counted
      by the unrelated binds before it. */
  lemma {:induction false} UnrelatedBindsKeepOrder(binds: seq<Yaml>, name: string, i: nat)
    requires i < |binds| && IsKept(binds[i], name)
    ensures var j := |KeptBinds(binds[..i], name)|;
      j < |KeptBinds(binds, name)| && KeptBinds(binds, name)[j] == binds[i]
  {
    hide IsKept;
    assert binds == binds[..i] + ([binds[i]] + binds[i + 1..]);
    KeptAppend(binds[..i], [binds[i]] + binds[i + 1..], name);
    KeptAppend([binds[i]], binds[i + 1..], name);
    assert [binds[i]][1..] == [];
  }

  /** The delivered FRR binds are recognised as the node's own exactly when its name has no colon. */
  lemma DeliveredBindsAreOwn(name: string)
    ensures IsNodeConfigBind(Daemons(name), name) == IsNodeConfigBind(FrrConf(name), name) == (':' !in name)
    ensures ':' !in name ==> SourceOf(Daemons(name)) == name + "-daemons" && SourceOf(FrrConf(name)) == name + ".conf"
  {
    hide SourceOf, Daemons, FrrConf;
    if ':' in name {
      SourceIsShorter(name, "-daemons:/etc/frr/daemons");
      SourceIsShorter(name, ".conf:/etc/frr/frr.conf");
    } else {
      SourceUpToColon(name + "-daemons", "/etc/frr/daemons");
      SourceUpToColon(name + ".conf", "/etc/frr/frr.conf");
    }
    DeliveredTexts(name);
  }

  lemma DeliveredTexts(name: string)
    ensures Daemons(name) == name + "-daemons:/etc/frr/daemons" == (name + "-daemons") + [':'] + "/etc/frr/daemons"
    ensures FrrConf(name) == name + ".conf:/etc/frr/frr.conf" == (name + ".conf") + [':'] + "/etc/frr/frr.conf"
  {
  }

  lemma SourceUpToColon(source: string, rest: string)
    requires ':' !in source
    ensures SourceOf(source + [':'] + rest) == source
  {
    SplitOff(source, ':', rest);
  }

  lemma {:induction false} SourceIsShorter(name: string, rest: string)
    requires ':' in name
    ensures |SourceOf(name + rest)| < |name|
  {
    var s := name + rest;
    assert s[1..] == name[1..] + rest;
    if name[0] != ':' {
      SourceIsShorter(name[1..], rest);
    }
  }

  predicate ListOrAbsent(node: Node) {
    "binds" in node ==> node["binds"].List?
  }

  /** Clearing the config is not disturbed by a start-up config, and doing it twice is doing it once. */
  lemma ClearedTwice(node: Node, name: string, v: Yaml)
    ensures WithoutConfig(WithoutConfig(node, name), name) == WithoutConfig(node, name)
    ensures WithoutConfig(WithoutConfig(node, name)["startup-config" := v], name) == WithoutConfig(node, name)
  {
    hide KeptBinds;
    var w := WithoutConfig(node, name);
    assert w["startup-config" := v] - {"startup-config"} == w;
    assert w - {"startup-config"} == w;
    if "binds" in node && node["binds"].List? {
      KeptTwice(node["binds"].items, name);
    }
  }

  lemma ExistingAreKept(node: Node, name: string)
    ensures KeptBinds(ExistingBinds(WithoutConfig(node, name)), name) == ExistingBinds(WithoutConfig(node, name))
    ensures ListOrAbsent(node) == ListOrAbsent(WithoutConfig(node, name))
    ensures ListOrAbsent(node) && ExistingBinds(WithoutConfig(node, name)) == [] ==>
              "binds" !in WithoutConfig(node, name)
  {
    if "binds" in node && node["binds"].List? {
      KeptTwice(node["binds"].items, name);
    }
  }

  /** Clearing after an FRR delivery: with a colon in the name the delivered binds stay behind;
      without one they go, and with them a `binds` that was no list. */
  lemma ClearedAfterFrr(node: Node, name: string)
    ensures var w := WithoutConfig(node, name);
      WithoutConfig(WithDelivery(w, name, "frr"), name)
      == if ':' in name then WithDelivery(w, name, "frr")
         else if ListOrAbsent(node) then w
         else w - {"binds"}
  {
    hide IsNodeConfigBind, WithoutConfig, Daemons, FrrConf, KeptBinds;
    var w := WithoutConfig(node, name);
    var own := [Str(Daemons(name)), Str(FrrConf(name))];
    var e := ExistingBinds(w);
    ExistingAreKept(node, name);
    KeptAppend(e, own, name);
    OwnBindsKept(name);
    assert KeptBinds(e + own, name) == if ':' in name then e + own else e;
    NoStartup(node, name);
    ClearedBinds(w, name, e + own);
  }

  lemma OwnBindsKept(name: string)
    ensures var own := [Str(Daemons(name)), Str(FrrConf(name))];
      KeptBinds(own, name) == if ':' in name then own else []
  {
    hide IsNodeConfigBind, Daemons, FrrConf;
    var own := [Str(Daemons(name)), Str(FrrConf(name))];
    DeliveredBindsAreOwn(name);
    assert IsKept(own[0], name) == IsKept(own[1], name) == (':' in name);
    assert own[1..] == [own[1]] && own[1..][1..] == [];
    assert KeptBinds(own[1..], name) == if ':' in name then [own[1]] else [];
    assert [own[0]] + [own[1]] == own;
  }

  lemma ClearedBinds(w: Node, name: string, binds: seq<Yaml>)
    requires "startup-config" !in w
    ensures var kept := KeptBinds(binds, name);
      WithoutConfig(w["binds" := List(binds)], name) == if kept == [] then w - {"binds"} else w["binds" := List(kept)]
  {
    hide KeptBinds;
    assert w["binds" := List(binds)] - {"startup-config"} == w["binds" := List(binds)];
    assert w["binds" := List(binds)] - {"binds"} == w - {"binds"};
  }

  lemma NoStartup(node: Node, name: string)
    ensures "startup-config" !in WithoutConfig(node, name)
  {
  }

  lemma OnlyStartupChanges(w: Node, name: string, nosKind: string)
    requires nosKind != "frr"
    ensures var d := WithDelivery(w, name, nosKind);
      d == w || ("startup-config" in d && d == w["startup-config" := d["startup-config"]])
  {
  }

  /** The last rewrite wins: rewriting for k1 and then for k2 is rewriting for k2 alone, if and only
      if k1 delivers no binds, or the name has no colon and `binds` is a list or absent (or is
      about to be replaced by k2's binds). */
  lemma LastRewriteWinsIff(node: Node, name: string, k1: string, k2: string)
    ensures Rewritten(Rewritten(node, name, k1), name, k2) == Rewritten(node, name, k2)
       <==> k1 != "frr" || (':' !in name && (ListOrAbsent(node) || k2 == "frr"))
  {
    hide KeptBinds, WithoutConfig, IsNodeConfigBind;
    var w := WithoutConfig(node, name);
    var d := WithDelivery(w, name, k1);
    if k1 != "frr" {
      OnlyStartupChanges(w, name, k1);
      ClearedTwice(node, name, Str(""));
      if d != w {
        ClearedTwice(node, name, d["startup-config"]);
      }
    } else {
      ClearedAfterFrr(node, name);
      ExistingAreKept(node, name);
      FrrLeftovers(w, name, k2);
    }
  }

  /** What the second delivery makes of the two kinds of leftover. */
  lemma FrrLeftovers(w: Node, name: string, k2: string)
    ensures WithDelivery(WithDelivery(w, name, "frr"), name, k2) != WithDelivery(w, name, k2)
    ensures !ListOrAbsent(w) ==> (WithDelivery(w - {"binds"}, name, k2) == WithDelivery(w, name, k2) <==> k2 == "frr")
  {
    hide Daemons, FrrConf;
    var own := [Str(Daemons(name)), Str(FrrConf(name))];
    var f := WithDelivery(w, name, "frr");
    assert ExistingBinds(f) == ExistingBinds(w) + own;
    if k2 == "frr" {
      assert |WithDelivery(f, name, k2)["binds"].items| == |ExistingBinds(w)| + 4;
      assert |WithDelivery(w, name, k2)["binds"].items| == |ExistingBinds(w)| + 2;
      if !ListOrAbsent(w) {
        assert (w - {"binds"})["binds" := List(own)] == w["binds" := List(own)];
        assert [] + own == own;
      }
    } else {
      OnlyStartupChanges(w, name, k2);
      OnlyStartupChanges(f, name, k2);
      OnlyStartupChanges(w - {"binds"}, name, k2);
      assert WithDelivery(f, name, k2)["binds"] == List(ExistingBinds(w) + own);
    }
  }

  /** Two nodes for which a rewrite for OpenWrt does not erase one for FRR: a colon in the name
      leaves the FRR binds behind, and binds that were no list are lost. */
  lemma FirstRewriteShows()
    ensures Rewritten(Rewritten(map[], "a:b", "frr"), "a:b", "openwrt")
         == map["binds" := List([Str(Daemons("a:b")), Str(FrrConf("a:b"))]), "startup-config" := Str("a:b-config.sh")]
    ensures Rewritten(map[], "a:b", "openwrt") == map["startup-config" := Str("a:b-config.sh")]
    ensures var node: Node := map["binds" := Str("/data:/data")];
      && Rewritten(Rewritten(node, "r", "frr"), "r", "openwrt") == map["startup-config" := Str("r-config.sh")]
      && Rewritten(node, "r", "openwrt") == node["startup-config" := Str("r-config.sh")]
  {
    hide Daemons, FrrConf, KeptBinds, IsNodeConfigBind;
    var empty: Node := map[];
    assert WithoutConfig(empty, "a:b") == empty;
    ClearedAfterFrr(empty, "a:b");
    assert "a:b"[1] == ':' && "a:b" + "-config.sh" == "a:b-config.sh" && "r" + "-config.sh" == "r-config.sh";
    var own := [Str(Daemons("a:b")), Str(FrrConf("a:b"))];
    assert [] + own == own;
    assert WithDelivery(empty, "a:b", "frr") == map["binds" := List(own)];
    var node: Node := map["binds" := Str("/data:/data")];
    assert WithoutConfig(node, "r") == node;
    ClearedAfterFrr(node, "r");
    assert node - {"binds"} == empty;
  }
}
