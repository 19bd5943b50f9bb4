/** Which address stands on which interface, and what each kind of router is told, in the terms of
    the topology (frontend/app/src/lib/config-generator.ts). */
module Interfaces {
  import opened Text
  import opened TopologyPrinter
  import opened AddressPlan
  import opened ScenarioConfig
  import opened Routing

  // ----- Texts of the plan -----

  /** The number a decimal text stands for. */
  function ValueOf(s: string): nat {
    if s == "" then 0 else 10 * ValueOf(s[..|s| - 1]) + DigitValue(s[|s| - 1])
  }

  function DigitValue(c: char): nat {
    if '0' <= c <= '9' then c as int - '0' as int else 0
  }

  lemma DigitReadsBack(d: nat)
    requires d < 10
    ensures DigitValue(Digit(d)) == d
  {
  }

  /** Reading a printed number gives the number. */
  lemma {:induction false} DecimalReadsBack(n: nat)
    ensures ValueOf(Decimal(n)) == n
  {
    hide Digit, DigitValue;
    DigitReadsBack(n % 10);
    if n < 10 {
      assert [Digit(n)][..0] == [];
    } else {
      DecimalReadsBack(n / 10);
      assert Decimal(n)[..|Decimal(n)| - 1] == Decimal(n / 10);
    }
  }

  /** The text of a network is 10 and two numbers, and of a loopback one number four times. */
  lemma PlanTexts(idx: nat, i: nat)
    ensures exists x, y :: Network(idx) == "10." + x + "." + y && ValueOf(x) == idx / 255 + 1 && ValueOf(y) == idx % 255
    ensures exists d :: Loopback(i) == d + "." + d + "." + d + "." + d && ValueOf(d) == i + 1
  {
    hide Decimal, ValueOf;
    DecimalReadsBack(idx / 255 + 1);
    DecimalReadsBack(idx % 255);
    DecimalReadsBack(i + 1);
    var x, y, d := Decimal(idx / 255 + 1), Decimal(idx % 255), Decimal(i + 1);
    assert Network(idx) == "10." + x + "." + y;
    assert Loopback(i) == d + "." + d + "." + d + "." + d;
  }

  // ----- Addresses -----

  /** Link i puts this address on an interface of the node: .1 on the source's, .2 on the target's. */
  predicate PutsAddress(links: seq<BuilderLink>, i: int, id: string, a: Address) {
    && 0 <= i < |links|
    && if links[i].sourceNodeId == id then a == Address(links[i].sourceIface, Network(i + 1) + ".1")
       else links[i].targetNodeId == id && a == Address(links[i].targetIface, Network(i + 1) + ".2")
  }

  lemma PutsIsInfo(links: seq<BuilderLink>, i: int, id: string, a: Address)
    ensures PutsAddress(links, i, id, a)
       <==> InfoAt(links, i, id).Some?
            && a == Address(InfoAt(links, i, id).value.iface, InfoAt(links, i, id).value.localIP)
  {
    hide Network;
  }

  lemma AddressesOfLinks(links: seq<BuilderLink>, id: string, a: Address)
    requires DistinctLinkIds(links)
    ensures a in Addresses(SeenFrom(id, links)) <==> exists i :: PutsAddress(links, i, id, a)
  {
    hide LinksOfNode, Subnets, InfoAt, PutsAddress;
    var infos := SeenFrom(id, links);
    if a in Addresses(infos) {
      var k :| 0 <= k < |infos| && Addresses(infos)[k] == a;
      NodeSeesItsLinks(links, id, infos[k]);
      var i :| InfoAt(links, i, id) == Some(infos[k]);
      PutsIsInfo(links, i, id, a);
    }
    if i :| PutsAddress(links, i, id, a) {
      PutsIsInfo(links, i, id, a);
      var li := InfoAt(links, i, id).value;
      NodeSeesItsLinks(links, id, li);
      var k :| 0 <= k < |infos| && infos[k] == li;
      assert Addresses(infos)[k] == a;
    }
  }

  /** Every router and every host has exactly the addresses its links put on its interfaces. */
  lemma AddressesExact(state: BuilderState, scenario: Scenario, n: BuilderNode, a: Address)
    requires DistinctLinkIds(state.links)
    ensures a in ConfigOf(state, scenario, n).addresses <==> exists i :: PutsAddress(state.links, i, n.id, a)
    ensures a in HostConfigIn(state, n.id).addresses <==> exists i :: PutsAddress(state.links, i, n.id, a)
  {
    hide LinksOfNode, Subnets, PutsAddress, ASNumbers, Routers, Neighbors, Routes, AllRouterLinks, Loopbacks, NosKindOf,
         RoutesVia, Gateways;
    AddressesOfLinks(state.links, n.id, a);
  }

  /** The source of a link has the first address of its network, on the interface the link names for it. */
  lemma SourceAddressed(state: BuilderState, scenario: Scenario, n: BuilderNode, i: nat)
    requires DistinctLinkIds(state.links) && i < |state.links| && state.links[i].sourceNodeId == n.id
    ensures var a := Address(state.links[i].sourceIface, Network(i + 1) + ".1");
      a in ConfigOf(state, scenario, n).addresses && a in HostConfigIn(state, n.id).addresses
  {
    hide ConfigOf, HostConfigIn, Network;
    var a := Address(state.links[i].sourceIface, Network(i + 1) + ".1");
    AddressesExact(state, scenario, n, a);
    assert PutsAddress(state.links, i, n.id, a);
  }

  /** The target, unless it is the source too, has the second, on the interface the link names for it. */
  lemma TargetAddressed(state: BuilderState, scenario: Scenario, n: BuilderNode, i: nat)
    requires DistinctLinkIds(state.links) && i < |state.links|
    requires state.links[i].targetNodeId == n.id != state.links[i].sourceNodeId
    ensures var a := Address(state.links[i].targetIface, Network(i + 1) + ".2");
      a in ConfigOf(state, scenario, n).addresses && a in HostConfigIn(state, n.id).addresses
  {
    hide ConfigOf, HostConfigIn, Network;
    var a := Address(state.links[i].targetIface, Network(i + 1) + ".2");
    AddressesExact(state, scenario, n, a);
    assert PutsAddress(state.links, i, n.id, a);
  }

  /** No two interfaces of a router or host get one address. */
  lemma AddressesOnce(state: BuilderState, scenario: Scenario, n: BuilderNode)
    requires DistinctLinkIds(state.links)
    ensures NoRepeats(ConfigOf(state, scenario, n).addresses) && NoRepeats(HostConfigIn(state, n.id).addresses)
  {
    hide LinksOfNode, Subnets, ASNumbers, Routers, Neighbors, Routes, AllRouterLinks, Loopbacks, NosKindOf, RoutesVia,
         Gateways;
    assert state.links[0..] == state.links;
    SeenApart(state.links, 0, n.id);
  }

  // ----- Who is told what -----

  /** The nodes that get a router config. */
  lemma RouterKinds(n: BuilderNode)
    ensures IsRouter(n)
       <==> || n.clabKind in {"mikrotik_ros", "openwrt", "freebsd"}
            || (n.clabKind == "linux"
                && (Contains(n.dockerImage, "frrouting/frr") || Contains(n.dockerImage, "gobgp")))
  {
    hide Contains;
  }

  predicate IsFrr(n: BuilderNode) {
    n.clabKind == "linux" && Contains(n.dockerImage, "frrouting/frr")
  }

  predicate IsGoBgp(n: BuilderNode) {
    n.clabKind == "linux" && Contains(n.dockerImage, "gobgp") && !IsFrr(n)
  }

  /** OSPF is for MikroTik and FRR, BGP for these and GoBGP; every other router, and these in the static
      scenario, get static routes instead; nobody gets two of the three. */
  lemma WhoSpeaksWhat(state: BuilderState, scenario: Scenario, n: BuilderNode)
    requires IsRouter(n)
    ensures var c := ConfigOf(state, scenario, n);
      var ospf := scenario == Ospf && (n.clabKind == "mikrotik_ros" || IsFrr(n));
      var bgp := scenario == Ebgp && (n.clabKind == "mikrotik_ros" || IsFrr(n) || IsGoBgp(n));
      && (c.localAS.Some? <==> bgp) && (c.routerId.Some? <==> ospf || bgp)
      && (!ospf ==> c.ospf == []) && (!bgp ==> c.neighbors == []) && (ospf || bgp ==> c.routes == [])
      && (UsesStatic(NosKindOf(n), scenario) <==> !ospf && !bgp)
      && (UsesBgp(NosKindOf(n), scenario) <==> bgp) && (UsesOspf(NosKindOf(n), scenario) <==> ospf)
  {
    hide Contains, LinksOfNode, Subnets, ASNumbers, Routers, Neighbors, Routes, AllRouterLinks, Loopbacks;
  }

  /** An OSPF router announces exactly the networks of its links. */
  lemma OspfNetworks(state: BuilderState, n: BuilderNode, x: string)
    requires DistinctLinkIds(state.links) && UsesOspf(NosKindOf(n), Ospf)
    ensures x in ConfigOf(state, Ospf, n).ospf
       <==> exists i :: 0 <= i < |state.links| && Touches(state.links[i], n.id) && x == Network(i + 1)
  {
    hide LinksOfNode, Subnets, ASNumbers, Routers, Neighbors, Routes, AllRouterLinks, Loopbacks, NosKindOf, InfoAt,
         Network;
    var infos := SeenFrom(n.id, state.links);
    if x in Networks(infos) {
      var k :| 0 <= k < |infos| && Networks(infos)[k] == x;
      NodeSeesItsLinks(state.links, n.id, infos[k]);
      var i :| InfoAt(state.links, i, n.id) == Some(infos[k]);
      InfoInRange(state.links, i, n.id);
      InfoNetwork(state.links, i, n.id);
    }
    if i :| 0 <= i < |state.links| && Touches(state.links[i], n.id) && x == Network(i + 1) {
      InfoNetwork(state.links, i, n.id);
      var li := InfoAt(state.links, i, n.id).value;
      NodeSeesItsLinks(state.links, n.id, li);
      var k :| 0 <= k < |infos| && infos[k] == li;
      assert Networks(infos)[k] == x;
    }
  }

  /** The k-th router that names a router id names the k-th loopback. */
  lemma RouterIdOf(state: BuilderState, scenario: Scenario, k: nat)
    requires DistinctNodeIds(state.nodes) && k < |Routers(state.nodes)|
    ensures var c := ConfigOf(state, scenario, Routers(state.nodes)[k]);
      && (c.routerId.Some? ==> c.routerId == Some(Loopback(k)))
      && (c.localAS.Some? ==> c.localAS == Some(65001 + k))
  {
    hide Loopback, Loopbacks, ASNumbers, IsRouter, Routers, LinksOfNode, Subnets, Neighbors, Routes, AllRouterLinks,
         NosKindOf;
    RoutersDistinct(state.nodes);
    RouterNumbers(Routers(state.nodes), k);
    LoopbackNotEmpty(k);
  }

  /** The hosts that get a config are those with a link. */
  lemma LinkedHosts(state: BuilderState, n: BuilderNode)
    requires DistinctLinkIds(state.links)
    ensures LinkedHost(state, n)
       <==> !IsRouter(n) && exists i :: 0 <= i < |state.links| && Touches(state.links[i], n.id)
  {
    hide LinksOfNode, Subnets, InfoAt, IsRouter, Touches;
    var infos := SeenFrom(n.id, state.links);
    if infos != [] {
      NodeSeesItsLinks(state.links, n.id, infos[0]);
      var i :| InfoAt(state.links, i, n.id) == Some(infos[0]);
      InfoInRange(state.links, i, n.id);
      InfoNetwork(state.links, i, n.id);
    }
    if i :| 0 <= i < |state.links| && Touches(state.links[i], n.id) {
      InfoNetwork(state.links, i, n.id);
      NodeSeesItsLinks(state.links, n.id, InfoAt(state.links, i, n.id).value);
    }
  }
}
