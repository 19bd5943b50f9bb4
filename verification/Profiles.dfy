/** Which profile, tier and config delivery a node gets, in the builder and on the platform, and where
    the two sides differ (frontend/app/src/lib/yaml-generator.ts,
    platform/internal/domain/lab/service.go, platform/internal/plan/plan.go). */
module Profiles {
  import opened Text
  import opened NosOverrides
  import Builder = TopologyPrinter
  import PrintedText
  import Plan

  // ----- Substrings -----

  lemma {:induction false} ContainsMore(t: string, r: string, u: string)
    requires Contains(t, u)
    ensures Contains(t + r, u)
    decreases t
  {
    if u <= t {
      assert (t + r)[..|u|] == t[..|u|];
    } else {
      ContainsMore(t[1..], r, u);
      assert (t + r)[1..] == t[1..] + r;
    }
  }

  /** What a part contains the whole contains. */
  lemma {:induction false} ContainsPart(s: string, t: string, u: string)
    requires Contains(s, t) && Contains(t, u)
    ensures Contains(s, u)
    decreases s
  {
    if t <= s {
      ContainsMore(t, s[|t|..], u);
      assert t + s[|t|..] == s;
    } else {
      ContainsPart(s[1..], t, u);
    }
  }

  lemma MirrorGoBgp()
    ensures Contains("mirror-gobgp", "gobgp")
  {
    assert "mirror-gobgp" == "mirror-" + "gobgp";
    InTail("mirror-", "gobgp");
  }

  lemma {:induction false} InTail(a: string, u: string)
    ensures Contains(a + u, u)
    decreases a
  {
    if a == "" {
      assert a + u == u;
    } else {
      InTail(a[1..], u);
      assert (a + u)[1..] == a[1..] + u;
    }
  }

  // ----- Profiles -----

  /** Which image and kind give which profile on the platform. */
  lemma PlatformProfiles(kind: string, image: string)
    ensures var p := ResolveNosKind(kind, image);
      var frr := Contains(image, "frrouting/frr") || Contains(image, "mirror-frr");
      && (p == "srl" <==> kind == "srl" || kind == "nokia_srlinux")
      && (p == "sonic-vs" <==> kind == "sonic-vs" || kind == "sonic-vm")
      && (p == "mikrotik_ros" <==> kind == "mikrotik_ros")
      && (p == "openwrt" <==> kind == "openwrt")
      && (p == "freebsd" <==> kind == "freebsd")
      && (p == "frr" <==> kind == "linux" && frr)
      && (p == "gobgp" <==> kind == "linux" && !frr && Contains(image, "gobgp"))
      && (p == "osvbng" <==> kind == "linux" && !frr && !Contains(image, "gobgp")
                             && (Contains(image, "osvbng") || Contains(image, "mirror-osvbng")))
      && p in {"srl", "sonic-vs", "mikrotik_ros", "openwrt", "freebsd", "frr", "gobgp", "osvbng", ""}
  {
    hide Contains;
    MirrorGoBgp();
    if Contains(image, "mirror-gobgp") {
      ContainsPart(image, "mirror-gobgp", "gobgp");
    }
  }

  /** A profile the builder gives is the platform's too, unless the image is a mirrored FRR that also
      mentions GoBGP. */
  lemma BuilderAgreesIff(kind: string, image: string)
    ensures var b := Builder.ResolveNosKind(kind, image);
      b != "" ==>
        (ResolveNosKind(kind, image) == b <==>
           !(kind == "linux" && Contains(image, "mirror-frr") && Contains(image, "gobgp")
             && !Contains(image, "frrouting/frr")))
  {
    hide Contains;
  }

  lemma ProfilesDiffer()
    ensures Builder.ResolveNosKind("linux", "mirror-frr/gobgp") == "gobgp"
    ensures ResolveNosKind("linux", "mirror-frr/gobgp") == "frr"
  {
    hide Contains;
    MirroredName();
    InTail("mirror-frr/", "gobgp");
    AtFront("mirror-frr", "/gobgp");
    LacksChar("mirror-frr/gobgp", "frrouting/frr", 't');
  }

  lemma MirroredName()
    ensures "mirror-frr/gobgp" == "mirror-frr/" + "gobgp" == "mirror-frr" + "/gobgp"
    ensures 't' in "frrouting/frr" && 't' !in "mirror-frr/gobgp"
  {
    assert "frrouting/frr"[5] == 't';
  }

  lemma AtFront(t: string, r: string)
    ensures Contains(t + r, t)
  {
    assert t <= t + r;
  }

  /** The plans' limits; an unknown plan is the free one. */
  lemma PlanLimits(name: string)
    ensures Plan.Get("free").maxConcurrentLabs == 1 && Plan.Get("light").maxConcurrentLabs == 3
    ensures Plan.Get("heavy").maxConcurrentLabs == 10
    ensures name !in {"light", "heavy"} ==> Plan.Get(name) == Plan.Get("free")
  {
  }

  /** The tier of a node follows its profile, except that the two alias kinds of the heavyweight
      profiles count as lightweight. */
  lemma TierFollowsProfileIff(kind: string, image: string)
    ensures var p, tier := ResolveNosKind(kind, image), Plan.NosImageTier(kind, image);
      && (p in {"mikrotik_ros", "openwrt", "freebsd"} ==> tier == "midweight")
      && (p in {"frr", "gobgp", "osvbng"} ==> tier == "lightweight")
      && (p in {"srl", "sonic-vs"} ==> (tier == "heavyweight" <==> kind !in {"nokia_srlinux", "sonic-vm"}))
      && (p in {"srl", "sonic-vs"} && tier != "heavyweight" ==> tier == "lightweight")
      && (p == "" ==>
            tier == if kind in {"ceos", "vr-veos", "vr-sros", "vr-xrv9k", "vr-vmx", "cvx", "vr-aoscx",
                                "fortinet_fortigate"}
                    then "heavyweight" else "lightweight")
  {
    hide Contains;
  }

  // ----- Config delivery -----

  /** The binds that count as a node's own config. */
  lemma OwnBinds(source: string, rest: string, name: string)
    requires ':' !in source
    ensures IsNodeConfigBind(source + ":" + rest, name)
       <==> || source == name + ".cfg" || source == name + ".json" || source == name + ".rsc"
            || source == name + "-daemons" || source == name + ".conf" || source == name + "-config.sh"
  {
    hide SourceOf;
    SourceUpToColon(source, rest);
    assert source + ":" + rest == source + [':'] + rest;
  }

  /** The config lines the builder prints for a node name the files, and the places in the node, that the
      platform's rewrite for the same profile gives. */
  lemma BuilderAndRewriteDeliverTheSame(n: Builder.BuilderNode, node: Node)
    ensures var k, lines := Builder.ResolveNosKind(n.clabKind, n.dockerImage), PrintedText.ConfigLines(n);
      var r := Rewritten(node, n.name, k);
      && (k in {"mikrotik_ros", "openwrt", "freebsd"} ==>
            "startup-config" in r && r["startup-config"].Str?
            && lines == ["      startup-config: " + r["startup-config"].text])
      && (k == "frr" ==>
            && "startup-config" !in r && "binds" in r && r["binds"].List? && |r["binds"].items| >= 2
            && var own := r["binds"].items[|r["binds"].items| - 2..];
               own[0].Str? && own[1].Str?
               && lines == ["      binds:", "        - " + own[0].text, "        - " + own[1].text])
      && (k in {"gobgp", ""} ==> lines == [] && "startup-config" !in r)
  {
    hide Contains, KeptBinds, IsNodeConfigBind, ExistingBinds, WithoutConfig;
    NoStartup(node, n.name);
    var k := Builder.ResolveNosKind(n.clabKind, n.dockerImage);
    if k == "frr" {
      DeliveredTexts(n.name);
      TextsOnLines(n.name);
    } else {
      StartupTexts(n.name);
    }
  }

  lemma TextsOnLines(name: string)
    ensures "        - " + name + "-daemons:/etc/frr/daemons" == "        - " + (name + "-daemons:/etc/frr/daemons")
    ensures "        - " + name + ".conf:/etc/frr/frr.conf" == "        - " + (name + ".conf:/etc/frr/frr.conf")
  {
  }

  lemma StartupTexts(name: string)
    ensures "      startup-config: " + name + ".rsc" == "      startup-config: " + (name + ".rsc")
    ensures "      startup-config: " + name + "-config.sh" == "      startup-config: " + (name + "-config.sh")
  {
  }

  /** A rewrite touches the start-up config and the binds, and nothing else. */
  lemma OtherFieldsKept(node: Node, name: string, k: string, field: string)
    requires field !in {"startup-config", "binds"}
    ensures field in Rewritten(node, name, k) <==> field in node
    ensures field in node ==> Rewritten(node, name, k)[field] == node[field]
  {
    hide KeptBinds, ExistingBinds;
  }

  /** The start-up config of each profile. */
  lemma StartupConfigs(node: Node, name: string)
    ensures forall k | k in {"srl", "sonic-vs", "mikrotik_ros", "openwrt", "freebsd"} ::
              "startup-config" in Rewritten(node, name, k)
    ensures Rewritten(node, name, "srl")["startup-config"] == Str(name + ".cfg")
    ensures Rewritten(node, name, "sonic-vs")["startup-config"] == Str(name + ".json")
    ensures Rewritten(node, name, "mikrotik_ros")["startup-config"] == Str(name + ".rsc")
    ensures Rewritten(node, name, "openwrt")["startup-config"] == Str(name + "-config.sh")
    ensures Rewritten(node, name, "freebsd")["startup-config"] == Str(name + "-config.sh")
    ensures forall k | k in {"frr", "gobgp", "osvbng", ""} :: "startup-config" !in Rewritten(node, name, k)
  {
    hide WithoutConfig, ExistingBinds;
    NoStartup(node, name);
  }
}
